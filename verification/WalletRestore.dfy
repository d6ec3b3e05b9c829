/**
 Saving the wallet's objects and rebuilding them: the maps are written in any order, and whatever the
 order was, the same index and ledger come back, up to what is not stored.
 */
module WalletRestore {
  import opened Results
  import opened Bitcoin
  import opened AddressSpec
  import opened LedgerSpec
  import opened AddressIndexes
  import opened Ledgers
  import opened Codec
  import opened WalletStore
  import opened UniqueKeys

  // ----- what a file says of an index -----

  function ListedRecord(ix: IndexState, t: nat, i: nat): AddressRecord
    requires ValidRef(ix, Listed(t, i))
  {
    AddressRecord(StoredAddress(ix.wallet, Listed(t, i)), t, i, None, ix.lists[t][i].used)
  }

  function DerivedRecord(ix: IndexState, k: PublicKey): AddressRecord
    requires k in ix.derived
  {
    var d := ix.derived[k];
    AddressRecord(PayToKeyHash(Hash160(k)), d.keyType, d.keyIndex, Some(d.keyHash), d.slot.used)
  }

  /** The key of a derived record's address. */
  function KeyOf(r: AddressRecord): PublicKey {
    match r.address
    case PayToKeyHash(Hash160(k)) => k
    case _ => NoKey
  }

  ghost predicate ListDescribed(list: seq<AddressRecord>, ix: IndexState, t: nat)
    requires t < |ix.lists|
  {
    |list| == |ix.lists[t]| && forall i :: 0 <= i < |list| ==> list[i] == ListedRecord(ix, t, i)
  }

  ghost predicate DerivedDescribed(records: seq<AddressRecord>, ix: IndexState) {
    && (forall n :: 0 <= n < |records| ==> KeyOf(records[n]) in ix.derived && records[n] == DerivedRecord(ix, KeyOf(records[n])))
    && (forall k :: k in ix.derived ==> exists n :: 0 <= n < |records| && KeyOf(records[n]) == k)
    && (forall m, n :: 0 <= m < n < |records| ==> KeyOf(records[m]) != KeyOf(records[n]))
  }

  /** An enumeration of a map: each of its pairs once, in any order. */
  ghost predicate Enumerates<K, V>(pairs: seq<(K, V)>, m: map<K, V>) {
    && (forall n :: 0 <= n < |pairs| ==> pairs[n].0 in m && m[pairs[n].0] == pairs[n].1)
    && (forall k :: k in m ==> exists n :: 0 <= n < |pairs| && pairs[n].0 == k)
    && (forall a, b :: 0 <= a < b < |pairs| ==> pairs[a].0 != pairs[b].0)
  }

  ghost predicate IndexDescribed(f: WalletFile, ix: IndexState, hashes: map<Hash20, RawAddress>) {
    && |f.lists| == |ix.lists| == KEY_TYPE_COUNT
    && (forall t :: 0 <= t < KEY_TYPE_COUNT ==> ListDescribed(f.lists[t], ix, t))
    && DerivedDescribed(f.derived, ix)
    && Enumerates(f.hashes, hashes)
  }

  // ----- saving the index -----

  function RecordOf(a: Address): AddressRecord
    reads a
  {
    AddressRecord(a.address, a.keyType, a.keyIndex, a.keyHash, a.used)
  }

  method CollectList(index: AddressIndex, t: nat) returns (list: seq<AddressRecord>)
    requires index.Valid() && t < KEY_TYPE_COUNT
    ensures t < |index.state.lists| && ListDescribed(list, index.state, t)
  {
    hide ListsShared, MapFiled, Monitored, WellFormed;
    index.ListedLength(t);
    list := [];
    for i := 0 to |index.addressesList[t]|
      invariant |list| == i
      invariant forall k :: 0 <= k < i ==> list[k] == ListedRecord(index.state, t, k)
    {
      ListedIs(index, t, i);
      list := list + [RecordOf(index.addressesList[t][i])];
    }
  }

  lemma ListedIs(index: AddressIndex, t: nat, i: nat)
    requires index.Valid() && t < KEY_TYPE_COUNT == |index.addressesList| && i < |index.addressesList[t]|
    ensures ValidRef(index.state, Listed(t, i))
    ensures RecordOf(index.addressesList[t][i]) == ListedRecord(index.state, t, i)
  {
    index.HoldsRepresents(index.addressesList[t][i], Listed(t, i));
  }

  /** The derived addresses, in whatever order the address map gives them. */
  method CollectDerived(index: AddressIndex) returns (records: seq<AddressRecord>)
    requires index.Valid()
    ensures DerivedDescribed(records, index.state)
  {
    hide ListsShared, MapFiled, Monitored, WellFormed;
    DerivedFiled(index);
    records := [];
    var rest := index.addressesMap.Keys;
    while rest != {}
      invariant rest <= index.addressesMap.Keys
      invariant forall n :: 0 <= n < |records| ==>
                  KeyOf(records[n]) in index.state.derived && records[n] == DerivedRecord(index.state, KeyOf(records[n]))
      invariant forall k :: k in index.state.derived ==>
                  Hash160(k) in rest || exists n :: 0 <= n < |records| && KeyOf(records[n]) == k
      invariant forall n :: 0 <= n < |records| ==> Hash160(KeyOf(records[n])) !in rest
      invariant forall m, n :: 0 <= m < n < |records| ==> KeyOf(records[m]) != KeyOf(records[n])
      decreases |rest|
    {
      var h :| h in rest;
      FiledIs(index, h);
      ghost var before := records;
      if index.addressesMap[h].keyHash.Some? {
        records := records + [RecordOf(index.addressesMap[h])];
        assert KeyOf(records[|before|]) == h.key;
      }
      forall k | k in index.state.derived && Hash160(k) !in rest - {h}
        ensures exists n :: 0 <= n < |records| && KeyOf(records[n]) == k
      {
        if Hash160(k) in rest {
          assert k == h.key;
        } else {
          var n :| 0 <= n < |before| && KeyOf(before[n]) == k;
          assert records[n] == before[n];
        }
      }
      rest := rest - {h};
    }
  }

  lemma DerivedFiled(index: AddressIndex)
    requires index.Valid()
    ensures forall k :: k in index.state.derived ==> Hash160(k) in index.addressesMap
  {
  }

  /** A filed entry is derived exactly when it has a key hash. */
  lemma FiledIs(index: AddressIndex, h: Hash20)
    requires index.Valid() && h in index.addressesMap
    ensures h.Hash160?
    ensures index.addressesMap[h].keyHash.Some? <==> h.key in index.state.derived
    ensures h.key in index.state.derived ==> RecordOf(index.addressesMap[h]) == DerivedRecord(index.state, h.key)
  {
    assert index.addressesMap[h].Represents(index.state, OwnerOf(index.state, h.key).value);
    OwnerKey(index.state, h.key);
  }

  method CollectHashes(hashes: map<Hash20, RawAddress>) returns (pairs: seq<(Hash20, RawAddress)>)
    ensures Enumerates(pairs, hashes)
  {
    pairs := [];
    var rest := hashes.Keys;
    while rest != {}
      invariant rest <= hashes.Keys
      invariant forall n :: 0 <= n < |pairs| ==> pairs[n].0 in hashes && hashes[pairs[n].0] == pairs[n].1
      invariant forall k :: k in hashes ==> k in rest || exists n :: 0 <= n < |pairs| && pairs[n].0 == k
      invariant forall n :: 0 <= n < |pairs| ==> pairs[n].0 !in rest
      invariant forall a, b :: 0 <= a < b < |pairs| ==> pairs[a].0 != pairs[b].0
      decreases |rest|
    {
      var h :| h in rest;
      ghost var before := pairs;
      pairs := pairs + [(h, hashes[h])];
      assert pairs[|before|].0 == h;
      forall k | k in hashes && k !in rest - {h} ensures exists n :: 0 <= n < |pairs| && pairs[n].0 == k {
        if k != h {
          var n :| 0 <= n < |before| && before[n].0 == k;
          assert pairs[n] == before[n];
        }
      }
      rest := rest - {h};
    }
  }

  // ----- rebuilding the index -----

  /** The hashes a file lists, whatever the order. */
  method RebuildHashes(pairs: seq<(Hash20, RawAddress)>, ghost hashes: map<Hash20, RawAddress>) returns (r: map<Hash20, RawAddress>)
    requires Enumerates(pairs, hashes)
    ensures r == hashes
  {
    r := map[];
    for n := 0 to |pairs|
      invariant forall k :: k in r ==> k in hashes && r[k] == hashes[k]
      invariant forall m :: 0 <= m < n ==> pairs[m].0 in r
    {
      r := r[pairs[n].0 := pairs[n].1];
    }
  }

  /** Every entry's hash is monitored under its stored address. */
  ghost predicate AllMonitored(ix: IndexState, hashes: map<Hash20, RawAddress>) {
    && (forall t, i :: ValidRef(ix, Listed(t, i)) ==>
          var h := Hash160(ChildKey(ix.wallet, t, i));
          h in hashes && hashes[h] == StoredAddress(ix.wallet, Listed(t, i)))
    && (forall k :: k in ix.derived ==> Hash160(k) in hashes && hashes[Hash160(k)] == PayToKeyHash(Hash160(k)))
  }

  lemma SavedMonitored(index: AddressIndex)
    requires index.Valid()
    ensures AllMonitored(index.state, index.hashes)
  {
    hide ListsShared, MapFiled, Monitored, WellFormed;
    forall t, i | ValidRef(index.state, Listed(t, i))
      ensures var h := Hash160(ChildKey(index.state.wallet, t, i));
              h in index.hashes && index.hashes[h] == StoredAddress(index.state.wallet, Listed(t, i))
    {
      ListedMonitored(index, t, i);
    }
    forall k | k in index.state.derived
      ensures Hash160(k) in index.hashes && index.hashes[Hash160(k)] == PayToKeyHash(Hash160(k))
    {
      DerivedFiled(index);
      FiledIs(index, Hash160(k));
      FiledMonitored(index, Hash160(k));
    }
  }

  lemma FiledMonitored(index: AddressIndex, h: Hash20)
    requires index.Valid() && h in index.addressesMap
    ensures h in index.hashes && index.hashes[h] == index.addressesMap[h].address
  {
  }

  lemma ListedMonitored(index: AddressIndex, t: nat, i: nat)
    requires index.Valid() && ValidRef(index.state, Listed(t, i))
    ensures var h := Hash160(ChildKey(index.state.wallet, t, i));
            h in index.hashes && index.hashes[h] == StoredAddress(index.state.wallet, Listed(t, i))
  {
    index.ListedLength(t);
    ListedIs(index, t, i);
    FiledMonitored(index, Hash160(ChildKey(index.state.wallet, t, i)));
  }

  function RestoredSlot(slot: Slot): Slot {
    Slot(false, slot.used, false)
  }

  function RestoredSlots(list: seq<Slot>): (r: seq<Slot>)
    ensures |r| == |list| && forall i :: 0 <= i < |list| ==> r[i] == RestoredSlot(list[i])
  {
    seq(|list|, i requires 0 <= i < |list| => RestoredSlot(list[i]))
  }

  /** The lists put back so far: all before list `t`, and `n` entries of list `t`. */
  function ListsBack(ix: IndexState, t: nat, n: nat): (r: IndexState)
    requires |ix.lists| == KEY_TYPE_COUNT && (t < KEY_TYPE_COUNT ==> n <= |ix.lists[t]|)
    ensures |r.lists| == KEY_TYPE_COUNT
  {
    IndexState(ix.wallet, ix.gap,
               seq(KEY_TYPE_COUNT, o requires 0 <= o < KEY_TYPE_COUNT =>
                     if o < t then RestoredSlots(ix.lists[o])
                     else if o == t then RestoredSlots(ix.lists[o][..n])
                     else []),
               map[])
  }

  lemma ListsBackStart(ix: IndexState)
    requires |ix.lists| == KEY_TYPE_COUNT
    ensures ListsBack(ix, 0, 0) == IndexState(ix.wallet, ix.gap, seq(KEY_TYPE_COUNT, _ => []), map[])
  {
    assert ListsBack(ix, 0, 0).lists == seq(KEY_TYPE_COUNT, _ => []);
  }

  lemma ListsBackOne(ix: IndexState, t: nat, n: nat)
    requires |ix.lists| == KEY_TYPE_COUNT && t < KEY_TYPE_COUNT && n < |ix.lists[t]|
    ensures |ListsBack(ix, t, n).lists[t]| == n
    ensures ListsBack(ix, t, n + 1) == WithSlot(ListsBack(ix, t, n), t, RestoredSlot(ix.lists[t][n]))
  {
    var a, b := ListsBack(ix, t, n + 1), WithSlot(ListsBack(ix, t, n), t, RestoredSlot(ix.lists[t][n]));
    assert a.lists[t] == b.lists[t];
    assert forall o :: 0 <= o < KEY_TYPE_COUNT ==> a.lists[o] == b.lists[o];
  }

  lemma ListsBackNext(ix: IndexState, t: nat)
    requires |ix.lists| == KEY_TYPE_COUNT && t < KEY_TYPE_COUNT
    ensures ListsBack(ix, t, |ix.lists[t]|) == ListsBack(ix, t + 1, 0)
  {
    var a, b := ListsBack(ix, t, |ix.lists[t]|), ListsBack(ix, t + 1, 0);
    assert ix.lists[t][..|ix.lists[t]|] == ix.lists[t];
    assert forall o :: 0 <= o < KEY_TYPE_COUNT ==> a.lists[o] == b.lists[o];
  }

  method RestoreList(index: AddressIndex, list: seq<AddressRecord>, t: nat, ghost ix: IndexState)
    requires index.Valid() && index.wallet == ix.wallet && |ix.lists| == KEY_TYPE_COUNT && t < KEY_TYPE_COUNT
    requires index.state == ListsBack(ix, t, 0) && ListDescribed(list, ix, t) && AllMonitored(ix, index.hashes)
    modifies index
    ensures index.Valid() && index.state == ListsBack(ix, t + 1, 0)
    ensures index.hashes == old(index.hashes) && fresh(index.repr - old(index.repr))
  {
    hide AddressIndex.Valid, WithSlot, ListsBack, AllMonitored;
    for n := 0 to |list|
      invariant index.Valid() && index.state == ListsBack(ix, t, n)
      invariant index.hashes == old(index.hashes) && fresh(index.repr - old(index.repr))
    {
      ListsBackOne(ix, t, n);
      MonitoredAt(ix, index.hashes, t, n);
      index.RestoreListed(t, list[n].address, list[n].used);
    }
    ListsBackNext(ix, t);
  }

  lemma MonitoredAt(ix: IndexState, hashes: map<Hash20, RawAddress>, t: nat, i: nat)
    requires AllMonitored(ix, hashes) && ValidRef(ix, Listed(t, i))
    ensures var h := Hash160(KeyBehind(ix.wallet, Listed(t, i)));
            h in hashes && hashes[h] == StoredAddress(ix.wallet, Listed(t, i))
  {
  }

  // ----- the derived entries -----

  function KeysOf(records: seq<AddressRecord>): set<PublicKey> {
    set n | 0 <= n < |records| :: KeyOf(records[n])
  }

  /** All lists are back, and the derived entries of some keys. */
  ghost function DerivedBack(ix: IndexState, keys: set<PublicKey>): IndexState
    requires |ix.lists| == KEY_TYPE_COUNT && keys <= ix.derived.Keys
  {
    ListsBack(ix, KEY_TYPE_COUNT, 0).(derived := map k | k in keys :: ix.derived[k].(slot := RestoredSlot(ix.derived[k].slot)))
  }

  lemma DerivedBackEnds(ix: IndexState)
    requires WellFormed(ix)
    ensures |ix.lists| == KEY_TYPE_COUNT
    ensures DerivedBack(ix, {}) == ListsBack(ix, KEY_TYPE_COUNT, 0)
    ensures DerivedBack(ix, ix.derived.Keys) == Reloaded(ix)
  {
    var a, b := DerivedBack(ix, ix.derived.Keys), Reloaded(ix);
    assert forall o :: 0 <= o < KEY_TYPE_COUNT ==> a.lists[o] == b.lists[o];
    assert a.lists == b.lists && a.derived == b.derived;
  }

  lemma DerivedBackOne(ix: IndexState, keys: set<PublicKey>, k: PublicKey)
    requires WellFormed(ix) && keys <= ix.derived.Keys && k in ix.derived
    ensures var d := ix.derived[k];
            && DerivedBack(ix, keys + {k}) ==
               WithDerived(DerivedBack(ix, keys), k, d.keyType, d.keyIndex, d.keyHash, RestoredSlot(d.slot))
            && ValidRef(DerivedBack(ix, keys), Listed(d.keyType, d.keyIndex))
  {
    var d := ix.derived[k];
    var a := DerivedBack(ix, keys + {k});
    var b := WithDerived(DerivedBack(ix, keys), k, d.keyType, d.keyIndex, d.keyHash, RestoredSlot(d.slot));
    assert a.derived == b.derived;
    assert forall o :: 0 <= o < KEY_TYPE_COUNT ==> |DerivedBack(ix, keys).lists[o]| == |ix.lists[o]|;
  }

  method RestoreDerivedAll(index: AddressIndex, records: seq<AddressRecord>, ghost ix: IndexState)
    requires index.Valid() && WellFormed(ix) && index.state == ListsBack(ix, KEY_TYPE_COUNT, 0)
    requires DerivedDescribed(records, ix) && AllMonitored(ix, index.hashes)
    modifies index
    ensures index.Valid() && index.state == Reloaded(ix)
    ensures index.hashes == old(index.hashes) && fresh(index.repr - old(index.repr))
  {
    hide AddressIndex.Valid, WithDerived, DerivedBack, WellFormed, ListsBack, Reloaded;
    DerivedBackEnds(ix);
    assert KeysOf(records[..0]) == {};
    for n := 0 to |records|
      invariant KeysOf(records[..n]) <= ix.derived.Keys
      invariant index.Valid() && index.state == DerivedBack(ix, KeysOf(records[..n]))
      invariant index.hashes == old(index.hashes) && fresh(index.repr - old(index.repr))
    {
      var r := records[n];
      ghost var k := KeyOf(r);
      KeysOfNext(records, n);
      DerivedBackOne(ix, KeysOf(records[..n]), k);
      DerivedKeyShape(ix, k);
      index.RestoreDerived(r.address, r.keyType, r.keyIndex, r.keyHash.value, r.used, k);
    }
    assert records[..|records|] == records;
    assert KeysOf(records) == ix.derived.Keys;
  }

  lemma DerivedKeyShape(ix: IndexState, k: PublicKey)
    requires WellFormed(ix) && k in ix.derived
    ensures k.NextPublicKey?
  {
  }

  lemma KeysOfNext(records: seq<AddressRecord>, n: nat)
    requires n < |records|
    ensures KeysOf(records[..n + 1]) == KeysOf(records[..n]) + {KeyOf(records[n])}
  {
    var a, b := records[..n], records[..n + 1];
    assert b[n] == records[n];
    forall k | k in KeysOf(a) ensures k in KeysOf(b) {
      var m :| 0 <= m < |a| && KeyOf(a[m]) == k;
      assert b[m] == a[m];
    }
    forall k | k in KeysOf(b) ensures k in KeysOf(a) + {KeyOf(records[n])} {
      var m :| 0 <= m < |b| && KeyOf(b[m]) == k;
      if m < n {
        assert a[m] == b[m];
      }
    }
    assert KeyOf(b[n]) in KeysOf(b);
  }

  /**
   Whatever order the maps were written in, the index comes back with its lists sharing their entries
   with the address map, every derived entry and every monitored hash: all but what is not stored.
   */
  method RestoreIndex(f: WalletFile, wallet: nat, gap: nat, ghost ix: IndexState, ghost hashes: map<Hash20, RawAddress>)
    returns (index: AddressIndex)
    requires WellFormed(ix) && ix.wallet == wallet && ix.gap == gap
    requires IndexDescribed(f, ix, hashes) && AllMonitored(ix, hashes)
    ensures index.Valid() && fresh(index) && fresh(index.repr)
    ensures index.state == Reloaded(ix) && index.hashes == hashes
  {
    hide AddressIndex.Valid, ListsBack, Reloaded, AllMonitored, ListDescribed, DerivedDescribed, Enumerates;
    var monitored := RebuildHashes(f.hashes, hashes);
    index := new AddressIndex.Restored(wallet, gap, monitored);
    ListsBackStart(ix);
    for t := 0 to KEY_TYPE_COUNT
      invariant index.Valid() && fresh(index) && fresh(index.repr) && index.wallet == wallet
      invariant index.state == ListsBack(ix, t, 0) && index.hashes == hashes
    {
      RestoreList(index, f.lists[t], t, ix);
    }
    RestoreDerivedAll(index, f.derived, ix);
  }

  /** Prepare finds nothing to add after a reload of an index with exact gaps. */
  lemma ReloadedScanIdle(ix: IndexState, t: nat)
    requires WellFormed(ix) && ExactGap(ix) && t < KEY_TYPE_COUNT
    ensures Scan(Reloaded(ix), t) == Reloaded(ix) && ExactGap(Reloaded(ix))
  {
    ReloadedGap(ix);
    ScanIdle(Reloaded(ix), t);
  }

  // ----- the ledger -----

  function UtxoRecordOf(u: UTXO): UtxoRecord
    reads u
  {
    UtxoRecord(u.point, u.output, u.keyType, u.keyIndex, u.keyHash, u.pending, u.reserved, u.deleted)
  }

  function BucketRecord(bucket: seq<UTXO>): (r: seq<UtxoRecord>)
    reads bucket
    ensures |r| == |bucket| && forall i :: 0 <= i < |r| ==> r[i] == UtxoRecordOf(bucket[i])
  {
    seq(|bucket|, i requires 0 <= i < |bucket| reads bucket => UtxoRecordOf(bucket[i]))
  }

  type BucketRecords = map<Tx, seq<UtxoRecord>>

  /** A bucket is stored without its key: its entries must name it, and there must be one. */
  ghost predicate BucketNamed(h: Tx, bucket: seq<UtxoRecord>) {
    && bucket != []
    && (forall i :: 0 <= i < |bucket| ==> bucket[i].point.tx == h)
    && (forall i, j :: 0 <= i < j < |bucket| ==> bucket[i].point != bucket[j].point)
  }

  ghost predicate AllNamed(records: BucketRecords) {
    forall h :: h in records ==> BucketNamed(h, records[h])
  }

  ghost predicate LedgerRecorded(ledger: Ledger, records: BucketRecords)
    reads ledger, ledger.repr
    requires ledger.Valid()
  {
    && ledger.utxos.Keys == records.Keys
    && forall h :: h in records ==> InRepr(ledger.utxos[h], ledger.repr) && BucketRecord(ledger.utxos[h]) == records[h]
  }

  predicate InRepr(bucket: seq<UTXO>, repr: set<UTXO>) {
    forall i :: 0 <= i < |bucket| ==> bucket[i] in repr
  }

  /** The buckets of a file, in any order. */
  ghost predicate BucketsDescribed(buckets: seq<seq<UtxoRecord>>, records: BucketRecords) {
    && (forall n :: 0 <= n < |buckets| ==>
          buckets[n] != [] && buckets[n][0].point.tx in records && records[buckets[n][0].point.tx] == buckets[n])
    && (forall m, n :: 0 <= m < n < |buckets| ==> buckets[m][0].point.tx != buckets[n][0].point.tx)
    && (forall h :: h in records ==> exists n :: 0 <= n < |buckets| && buckets[n] != [] && buckets[n][0].point.tx == h)
  }

  /** The entry a record stands for. */
  function EntryOf(u: UtxoRecord): Utxo {
    Utxo(u.output.value, AddressOf(u.output.script), u.keyType, u.keyIndex, u.keyHash, u.pending, u.reserved, u.deleted)
  }

  predicate HoldsEntry(records: BucketRecords, p: OutPoint, u: Utxo) {
    p.tx in records && exists i :: 0 <= i < |records[p.tx]| && records[p.tx][i].point == p && EntryOf(records[p.tx][i]) == u
  }

  /** Equal records, equal ledgers: the records determine the state. */
  lemma RecordsDecide(ledger: Ledger, records: BucketRecords)
    requires ledger.Valid() && LedgerRecorded(ledger, records)
    ensures forall p :: p in ledger.State() ==> HoldsEntry(records, p, ledger.State()[p])
    ensures forall p, u :: HoldsEntry(records, p, u) ==> p in ledger.State() && ledger.State()[p] == u
  {
    hide Bucketed, InRepr;
    forall p | p in ledger.State() ensures HoldsEntry(records, p, ledger.State()[p]) {
      SearchDecides(ledger.utxos, ledger.entries, p);
      var i :| 0 <= i < |ledger.utxos[p.tx]| && ledger.utxos[p.tx][i].point.index == p.index;
      assert records[p.tx][i] == UtxoRecordOf(ledger.utxos[p.tx][i]);
    }
    forall p, u | HoldsEntry(records, p, u) ensures p in ledger.State() && ledger.State()[p] == u {
      var i :| 0 <= i < |records[p.tx]| && records[p.tx][i].point == p && EntryOf(records[p.tx][i]) == u;
      assert records[p.tx][i] == UtxoRecordOf(ledger.utxos[p.tx][i]);
      SearchDecides(ledger.utxos, ledger.entries, p);
    }
  }

  lemma SameLedger(a: Ledger, b: Ledger, records: BucketRecords)
    requires a.Valid() && b.Valid() && LedgerRecorded(a, records) && LedgerRecorded(b, records)
    ensures a.State() == b.State()
  {
    hide Bucketed, Filed, LedgerRecorded, HoldsEntry, StateOf;
    RecordsDecide(a, records);
    RecordsDecide(b, records);
    assert forall p :: p in a.State() <==> p in b.State();
  }

  /** The buckets, in whatever order the map gives them. */
  method CollectBuckets(ledger: Ledger) returns (buckets: seq<seq<UtxoRecord>>, ghost records: BucketRecords)
    requires ledger.Valid()
    ensures LedgerRecorded(ledger, records) && AllNamed(records) && BucketsDescribed(buckets, records)
  {
    records := map h | h in ledger.utxos :: BucketRecord(ledger.utxos[h]);
    LedgerRecords(ledger, records);
    buckets := CollectRecords(ledger, records);
  }

  /** The first buckets collected, each under its own key, none still to come. */
  ghost predicate Collected(buckets: seq<seq<UtxoRecord>>, records: BucketRecords, rest: set<Tx>) {
    && (forall n :: 0 <= n < |buckets| ==>
          && buckets[n] != [] && buckets[n][0].point.tx in records && buckets[n][0].point.tx !in rest
          && records[buckets[n][0].point.tx] == buckets[n])
    && (forall m, n :: 0 <= m < n < |buckets| ==> buckets[m][0].point.tx != buckets[n][0].point.tx)
    && (forall h :: h in records ==> h in rest || exists n :: 0 <= n < |buckets| && buckets[n] != [] && buckets[n][0].point.tx == h)
  }

  method CollectRecords(ledger: Ledger, ghost records: BucketRecords) returns (buckets: seq<seq<UtxoRecord>>)
    requires ledger.Valid() && LedgerRecorded(ledger, records) && AllNamed(records)
    ensures BucketsDescribed(buckets, records)
  {
    hide Collected, Bucketed, Filed, AllNamed, BucketRecord;
    buckets := [];
    var rest := ledger.utxos.Keys;
    NothingCollected(records);
    while rest != {}
      invariant rest <= ledger.utxos.Keys && Collected(buckets, records, rest)
      decreases |rest|
    {
      var h :| h in rest;
      CollectOne(buckets, records, rest, h);
      buckets := buckets + [BucketRecord(ledger.utxos[h])];
      rest := rest - {h};
    }
    AllCollected(buckets, records);
  }

  lemma NothingCollected(records: BucketRecords)
    ensures Collected([], records, records.Keys)
  {
  }

  lemma AllCollected(buckets: seq<seq<UtxoRecord>>, records: BucketRecords)
    requires Collected(buckets, records, {})
    ensures BucketsDescribed(buckets, records)
  {
  }

  lemma CollectOne(buckets: seq<seq<UtxoRecord>>, records: BucketRecords, rest: set<Tx>, h: Tx)
    requires Collected(buckets, records, rest) && h in rest && h in records && AllNamed(records)
    ensures Collected(buckets + [records[h]], records, rest - {h})
  {
    var later: seq<seq<UtxoRecord>> := buckets + [records[h]];
    assert BucketNamed(h, records[h]);
    assert later[|buckets|][0].point.tx == h;
    forall k | k in records && k !in rest - {h}
      ensures exists n :: 0 <= n < |later| && later[n] != [] && later[n][0].point.tx == k
    {
      if k != h {
        var n :| 0 <= n < |buckets| && buckets[n] != [] && buckets[n][0].point.tx == k;
        assert later[n] == buckets[n];
      }
    }
  }

  lemma LedgerRecords(ledger: Ledger, records: BucketRecords)
    requires ledger.Valid() && records == map h | h in ledger.utxos :: BucketRecord(ledger.utxos[h])
    ensures LedgerRecorded(ledger, records) && AllNamed(records)
  {
    forall h | h in records ensures BucketNamed(h, records[h]) && InRepr(ledger.utxos[h], ledger.repr) {
      assert ledger.utxos[h] != [];
      forall i | 0 <= i < |ledger.utxos[h]| ensures ledger.utxos[h][i] in ledger.repr {
        assert ledger.entries[ledger.utxos[h][i].point] == ledger.utxos[h][i];
      }
    }
  }

  // ----- rebuilding the ledger -----

  method RestoreBucket(bucket: seq<UtxoRecord>) returns (objects: seq<UTXO>)
    ensures BucketRecord(objects) == bucket && forall i :: 0 <= i < |objects| ==> fresh(objects[i])
  {
    objects := [];
    for n := 0 to |bucket|
      invariant |objects| == n && forall i :: 0 <= i < n ==> fresh(objects[i]) && UtxoRecordOf(objects[i]) == bucket[i]
    {
      var r := bucket[n];
      var u := new UTXO(r.point, r.output, r.keyType, r.keyIndex, r.keyHash);
      assert u !in objects;
      u.pending, u.reserved, u.deleted := r.pending, r.reserved, r.deleted;
      objects := objects + [u];
    }
  }

  predicate DistinctPoints(objects: seq<UTXO>) {
    forall i, j :: 0 <= i < j < |objects| ==> objects[i].point != objects[j].point
  }

  /** The entries of one bucket. */
  ghost function EntriesOf(objects: seq<UTXO>): Entries
    requires DistinctPoints(objects)
  {
    map i | 0 <= i < |objects| :: objects[i].point := objects[i]
  }

  ghost predicate ObjectsNamed(h: Tx, objects: seq<UTXO>) {
    objects != [] && DistinctPoints(objects) && forall i :: 0 <= i < |objects| ==> objects[i].point.tx == h
  }

  /** A whole bucket put back under the transaction its entries name. */
  lemma FileBucket(utxos: Buckets, entries: Entries, h: Tx, objects: seq<UTXO>)
    requires Bucketed(utxos) && Filed(utxos, entries) && h !in utxos && ObjectsNamed(h, objects)
    ensures Bucketed(utxos[h := objects]) && Filed(utxos[h := objects], entries + EntriesOf(objects))
  {
    var later := entries + EntriesOf(objects);
    forall p | p in later ensures later[p].point == p && p.tx in utxos[h := objects] && InBucket(utxos[h := objects][p.tx], p) {
      if p in EntriesOf(objects) {
        var i :| 0 <= i < |objects| && objects[i].point == p;
      }
    }
    forall g, i | g in utxos && 0 <= i < |utxos[g]|
      ensures utxos[g][i].point in later && later[utxos[g][i].point] == utxos[g][i]
    {
      assert utxos[g][i].point.tx == g;
    }
  }

  method PutBucket(ledger: Ledger, bucket: seq<UtxoRecord>, ghost h: Tx, ghost records: BucketRecords)
    requires ledger.Valid() && BucketNamed(h, bucket) && h !in ledger.utxos && LedgerRecorded(ledger, records)
    modifies ledger
    ensures ledger.Valid() && LedgerRecorded(ledger, records[h := bucket]) && fresh(ledger.repr - old(ledger.repr))
    ensures ledger.utxos.Keys == old(ledger.utxos.Keys) + {h}
  {
    hide Bucketed, Filed, DistinctPoints, ObjectsNamed, EntriesOf, BucketNamed;
    var objects := RestoreBucket(bucket);
    NamedObjects(h, bucket, objects);
    FileBucket(ledger.utxos, ledger.entries, h, objects);
    EntriesRange(ledger.entries, objects);
    ledger.utxos := ledger.utxos[bucket[0].point.tx := objects];
    ledger.entries := ledger.entries + EntriesOf(objects);
    ledger.repr := ledger.repr + set o | o in objects;
  }

  lemma EntriesRange(entries: Entries, objects: seq<UTXO>)
    requires DistinctPoints(objects)
    ensures (entries + EntriesOf(objects)).Values <= entries.Values + set o | o in objects
  {
  }

  lemma NamedObjects(h: Tx, bucket: seq<UtxoRecord>, objects: seq<UTXO>)
    requires BucketNamed(h, bucket) && BucketRecord(objects) == bucket
    ensures ObjectsNamed(h, objects) && DistinctPoints(objects) && bucket[0].point.tx == h
  {
    forall i | 0 <= i < |objects| ensures objects[i].point == bucket[i].point {
      assert bucket[i] == UtxoRecordOf(objects[i]);
    }
  }

  /** The first `n` buckets of an enumeration, under their keys. */
  ghost predicate Restoring(buckets: seq<seq<UtxoRecord>>, n: nat, records: BucketRecords, part: BucketRecords)
    requires n <= |buckets|
  {
    && (forall h :: h in part ==> h in records && part[h] == records[h])
    && (forall h :: h in part <==> exists m :: 0 <= m < n && buckets[m] != [] && buckets[m][0].point.tx == h)
  }

  method RestoreLedger(buckets: seq<seq<UtxoRecord>>, ghost records: BucketRecords) returns (ledger: Ledger)
    requires AllNamed(records) && BucketsDescribed(buckets, records)
    ensures ledger.Valid() && fresh(ledger) && fresh(ledger.repr) && LedgerRecorded(ledger, records)
  {
    hide Bucketed, Filed, LedgerRecorded, BucketNamed, Restoring;
    ledger := new Ledger();
    ghost var part: BucketRecords := map[];
    EmptyRecorded(ledger, buckets, records);
    for n := 0 to |buckets|
      invariant ledger.Valid() && fresh(ledger) && fresh(ledger.repr) && LedgerRecorded(ledger, part)
      invariant Restoring(buckets, n, records, part) && ledger.utxos.Keys == part.Keys
    {
      ghost var h := buckets[n][0].point.tx;
      RestoringOne(buckets, n, records, part);
      PutBucket(ledger, buckets[n], h, part);
      part := part[h := buckets[n]];
    }
    RestoringAll(buckets, records, part);
  }

  lemma EmptyRecorded(ledger: Ledger, buckets: seq<seq<UtxoRecord>>, records: BucketRecords)
    requires ledger.Valid() && ledger.utxos == map[]
    ensures LedgerRecorded(ledger, map[]) && Restoring(buckets, 0, records, map[])
  {
  }

  lemma RestoringOne(buckets: seq<seq<UtxoRecord>>, n: nat, records: BucketRecords, part: BucketRecords)
    requires n < |buckets| && AllNamed(records) && BucketsDescribed(buckets, records) && Restoring(buckets, n, records, part)
    ensures var h := buckets[n][0].point.tx;
            h !in part && BucketNamed(h, buckets[n]) && Restoring(buckets, n + 1, records, part[h := buckets[n]])
  {
    hide BucketNamed;
    var h := buckets[n][0].point.tx;
    assert BucketNamed(h, records[h]);
    var later := part[h := buckets[n]];
    forall g | exists m :: 0 <= m < n + 1 && buckets[m] != [] && buckets[m][0].point.tx == g ensures g in later {
      var m :| 0 <= m < n + 1 && buckets[m] != [] && buckets[m][0].point.tx == g;
      if m < n {
        assert g in part;
      }
    }
    forall g | g in later ensures exists m :: 0 <= m < n + 1 && buckets[m] != [] && buckets[m][0].point.tx == g {
      if g != h {
        var m :| 0 <= m < n && buckets[m] != [] && buckets[m][0].point.tx == g;
        assert m < n + 1;
      }
    }
  }

  lemma RestoringAll(buckets: seq<seq<UtxoRecord>>, records: BucketRecords, part: BucketRecords)
    requires BucketsDescribed(buckets, records) && Restoring(buckets, |buckets|, records, part)
    ensures part == records
  {
  }

  // ----- the whole wallet -----

  /** The file is one of the ways to write this index and this ledger. */
  ghost predicate Describes(f: WalletFile, ix: IndexState, hashes: map<Hash20, RawAddress>, records: BucketRecords) {
    IndexDescribed(f, ix, hashes) && AllNamed(records) && BucketsDescribed(f.buckets, records)
  }

  method Serialize(c: Library, index: AddressIndex, ledger: Ledger)
    returns (data: Bytes, ghost f: WalletFile, ghost records: BucketRecords)
    requires index.Valid() && ledger.Valid()
    ensures data == FileBytes(c, f) && LedgerRecorded(ledger, records)
    ensures Describes(f, index.state, index.hashes, records) && AllMonitored(index.state, index.hashes)
  {
    hide AddressIndex.Valid, Ledger.Valid, ListDescribed, DerivedDescribed, Enumerates, AllNamed, BucketsDescribed,
         LedgerRecorded, AllMonitored, FileBytes;
    SavedMonitored(index);
    FourLists(index);
    var hashes := CollectHashes(index.hashes);
    var lists: seq<seq<AddressRecord>> := [];
    for t := 0 to KEY_TYPE_COUNT
      invariant |lists| == t && forall o :: 0 <= o < t ==> ListDescribed(lists[o], index.state, o)
    {
      var list := CollectList(index, t);
      lists := lists + [list];
    }
    var derived := CollectDerived(index);
    var buckets;
    buckets, records := CollectBuckets(ledger);
    var file := WalletFile(hashes, lists, derived, buckets);
    data, f := FileBytes(c, file), file;
  }

  lemma FourLists(index: AddressIndex)
    requires index.Valid()
    ensures |index.state.lists| == KEY_TYPE_COUNT
  {
  }

  /**
   Deserialize: bytes that do not parse are an error, and bytes that describe an index and a ledger,
   in any order of the maps and followed by anything, give back that index, up to the given flags and
   public keys, and that ledger.
   */
  method Deserialize(c: Library, data: Bytes, wallet: nat, gap: nat, ghost ix: IndexState,
                     ghost hashes: map<Hash20, RawAddress>, ghost records: BucketRecords)
    returns (index: AddressIndex?, ledger: Ledger?)
    requires WellFormed(ix) && ix.wallet == wallet && ix.gap == gap && AllMonitored(ix, hashes)
    requires TakeFile(c, data).Got? ==> Describes(TakeFile(c, data).value, ix, hashes, records)
    ensures index != null <==> TakeFile(c, data).Got?
    ensures ledger != null <==> TakeFile(c, data).Got?
    ensures index != null ==> fresh(index) && fresh(index.repr) && index.Valid()
    ensures index != null ==> index.state == Reloaded(ix) && index.hashes == hashes
    ensures ledger != null ==> fresh(ledger) && fresh(ledger.repr) && ledger.Valid() && LedgerRecorded(ledger, records)
  {
    hide AddressIndex.Valid, Ledger.Valid, LedgerRecorded, AllNamed, BucketsDescribed, IndexDescribed, AllMonitored,
         TakeFile, Reloaded, WellFormed;
    var parsed := TakeFile(c, data);
    if parsed.Malformed? {
      return null, null;
    }
    index := RestoreIndex(parsed.value, wallet, gap, ix, hashes);
    ledger := RestoreLedger(parsed.value.buckets, records);
  }

  // ----- what can be written -----

  /** The library reads back the terms of the index, and its counts and key indexes fit their widths. */
  ghost predicate WritableIndex(c: Library, ix: IndexState, hashes: map<Hash20, RawAddress>) {
    && |hashes| < Pow256(8) && |ix.derived| < Pow256(8)
    && (forall h :: h in hashes ==> ReadsHash20(c, h) && ReadsAddress(c, hashes[h]))
    && (forall t :: 0 <= t < |ix.lists| ==> |ix.lists[t]| < Pow256(8))
    && (forall t, i :: ValidRef(ix, Listed(t, i)) ==> StorableAddress(c, ListedRecord(ix, t, i)))
    && (forall k :: k in ix.derived ==> StorableAddress(c, DerivedRecord(ix, k)))
  }

  /** What of an entry never changes, which is all that decides whether it can be written. */
  function FixedRecord(u: UTXO): UtxoRecord {
    UtxoRecord(u.point, u.output, u.keyType, u.keyIndex, u.keyHash, false, false, false)
  }

  /** The same of the stored outputs. */
  ghost predicate WritableLedger(c: Library, utxos: Buckets) {
    && |utxos| < Pow256(8)
    && (forall h :: h in utxos ==> |utxos[h]| < Pow256(4))
    && (forall h, i :: h in utxos && 0 <= i < |utxos[h]| ==> StorableUtxo(c, FixedRecord(utxos[h][i])))
  }

  /** A sequence without repetition is no longer than the set it is drawn from. */
  lemma {:induction false} DistinctFit<T>(items: seq<T>, from: set<T>)
    requires forall n :: 0 <= n < |items| ==> items[n] in from
    requires forall m, n :: 0 <= m < n < |items| ==> items[m] != items[n]
    ensures |items| <= |from|
  {
    if items != [] {
      var last := |items| - 1;
      DistinctFit(items[..last], from - {items[last]});
    }
  }

  lemma EnumerationFits<K, V>(pairs: seq<(K, V)>, m: map<K, V>)
    requires Enumerates(pairs, m)
    ensures |pairs| <= |m|
  {
    var keys := seq(|pairs|, n requires 0 <= n < |pairs| => pairs[n].0);
    DistinctFit(keys, m.Keys);
  }

  lemma DerivedFit(records: seq<AddressRecord>, ix: IndexState)
    requires DerivedDescribed(records, ix)
    ensures |records| <= |ix.derived|
  {
    var keys := seq(|records|, n requires 0 <= n < |records| => KeyOf(records[n]));
    DistinctFit(keys, ix.derived.Keys);
  }

  lemma BucketsFit(buckets: seq<seq<UtxoRecord>>, records: BucketRecords)
    requires BucketsDescribed(buckets, records)
    ensures |buckets| <= |records|
  {
    var keys := seq(|buckets|, n requires 0 <= n < |buckets| => buckets[n][0].point.tx);
    DistinctFit(keys, records.Keys);
  }

  lemma IndexStorable(c: Library, f: WalletFile, ix: IndexState, hashes: map<Hash20, RawAddress>)
    requires IndexDescribed(f, ix, hashes) && WritableIndex(c, ix, hashes)
    ensures |f.hashes| < Pow256(8) && |f.lists| == KEY_TYPE_COUNT
    ensures forall i :: 0 <= i < |f.hashes| ==> ReadsHash20(c, f.hashes[i].0) && ReadsAddress(c, f.hashes[i].1)
    ensures forall t :: 0 <= t < |f.lists| ==> StorableList(c, f.lists[t])
    ensures StorableList(c, f.derived)
  {
    hide ReadsHash20, ReadsAddress, StorableAddress, Pow256;
    EnumerationFits(f.hashes, hashes);
    DerivedFit(f.derived, ix);
    forall t | 0 <= t < |f.lists| ensures StorableList(c, f.lists[t]) {
      forall i | 0 <= i < |f.lists[t]| ensures StorableAddress(c, f.lists[t][i]) {
        assert ValidRef(ix, Listed(t, i));
      }
    }
  }

  lemma BucketsStorable(c: Library, ledger: Ledger, buckets: seq<seq<UtxoRecord>>, records: BucketRecords)
    requires ledger.Valid() && LedgerRecorded(ledger, records) && BucketsDescribed(buckets, records)
    requires WritableLedger(c, ledger.utxos)
    ensures |buckets| < Pow256(8)
    ensures forall n :: 0 <= n < |buckets| ==> StorableBucket(c, buckets[n])
  {
    hide ReadsOutput, ReadsHash, Pow256, Bucketed, Filed;
    BucketsFit(buckets, records);
    assert |records.Keys| == |records| && |ledger.utxos.Keys| == |ledger.utxos|;
    forall n | 0 <= n < |buckets| ensures StorableBucket(c, buckets[n]) {
      var h := buckets[n][0].point.tx;
      var bucket := ledger.utxos[h];
      forall i | 0 <= i < |buckets[n]| ensures StorableUtxo(c, buckets[n][i]) {
        assert buckets[n][i] == UtxoRecordOf(bucket[i]);
        assert StorableUtxo(c, FixedRecord(bucket[i]));
      }
    }
  }

  /** Then every way to write the wallet reads back. */
  lemma WritableStorable(c: Library, f: WalletFile, index: AddressIndex, ledger: Ledger, records: BucketRecords)
    requires ledger.Valid() && LedgerRecorded(ledger, records) && Describes(f, index.state, index.hashes, records)
    requires WritableIndex(c, index.state, index.hashes) && WritableLedger(c, ledger.utxos)
    ensures StorableFile(c, f)
  {
    hide Ledger.Valid, LedgerRecorded, BucketsDescribed, AllNamed, IndexDescribed, WritableIndex, WritableLedger,
         StorableList, StorableBucket, ReadsHash20, ReadsAddress;
    IndexStorable(c, f, index.state, index.hashes);
    BucketsStorable(c, ledger, f.buckets, records);
  }

  /**
   Save, then load: whatever order the maps are written in, the same ledger comes back, and the same
   index and monitored hashes, all but the given flags and the public keys of the entries.
   */
  method Restart(c: Library, index: AddressIndex, ledger: Ledger) returns (index2: AddressIndex, ledger2: Ledger)
    requires index.Valid() && ledger.Valid()
    requires WritableIndex(c, index.state, index.hashes) && WritableLedger(c, ledger.utxos)
    ensures index2.Valid() && ledger2.Valid() && fresh(index2) && fresh(index2.repr) && fresh(ledger2) && fresh(ledger2.repr)
    ensures index2.state == Reloaded(index.state) && index2.hashes == index.hashes
    ensures ledger2.State() == ledger.State()
  {
    hide AddressIndex.Valid, Ledger.Valid, LedgerRecorded, AllNamed, BucketsDescribed, IndexDescribed, AllMonitored,
         Describes, StorableFile, TakeFile, FileBytes, Reloaded, WellFormed, WritableIndex, WritableLedger;
    IndexShape(index);
    var data;
    ghost var f, records;
    data, f, records := Serialize(c, index, ledger);
    WritableStorable(c, f, index, ledger, records);
    FileRoundTrip(c, f, []);
    assert data + [] == data;
    var i, l := Deserialize(c, data, index.wallet, index.gap, index.state, index.hashes, records);
    index2, ledger2 := i, l;
    SameLedger(ledger, ledger2, records);
  }

  lemma IndexShape(index: AddressIndex)
    requires index.Valid()
    ensures WellFormed(index.state) && index.state.wallet == index.wallet && index.state.gap == index.gap
  {
  }

  // ----- a new wallet can be written -----

  /** Only the entries of a new wallet are monitored, so its terms are few. */
  lemma PreparedWritable(c: Library, index: AddressIndex)
    requires index.Valid() && index.state == Prepared(index.wallet, index.gap) && index.gap < Pow256(4)
    requires index.OnlyEntries() && |index.hashes| <= KEY_TYPE_COUNT * index.gap
    requires forall t: nat, i: nat :: t < KEY_TYPE_COUNT && i < index.gap ==>
               && ReadsHash20(c, Hash160(ChildKey(index.wallet, t, i)))
               && ReadsAddress(c, StoredAddress(index.wallet, Listed(t, i)))
    ensures WritableIndex(c, index.state, index.hashes)
  {
    hide ReadsHash20, ReadsAddress, AddressIndex.Valid, Pow256, StorableAddress, Prepared;
    WidthsGrow();
    PreparedEntries(c, index.wallet, index.gap);
    forall h | h in index.hashes ensures ReadsHash20(c, h) && ReadsAddress(c, index.hashes[h]) {
      ListedHash(index, h);
    }
  }

  lemma PreparedEntries(c: Library, wallet: nat, gap: nat)
    requires gap < Pow256(4)
    requires forall t: nat, i: nat :: t < KEY_TYPE_COUNT && i < gap ==> ReadsAddress(c, StoredAddress(wallet, Listed(t, i)))
    ensures var ix := Prepared(wallet, gap);
            && ix.derived == map[] && ix.wallet == wallet
            && (forall t :: 0 <= t < |ix.lists| ==> |ix.lists[t]| < Pow256(8))
            && (forall t: nat, i: nat :: ValidRef(ix, Listed(t, i)) ==>
                  t < KEY_TYPE_COUNT && i < gap && StorableAddress(c, ListedRecord(ix, t, i)))
  {
    hide ReadsAddress;
    WidthsGrow();
  }

  lemma WidthsGrow()
    ensures Pow256(4) == 4294967296 && KEY_TYPE_COUNT * Pow256(4) < Pow256(8)
  {
    assert Pow256(4) == 256 * (256 * (256 * (256 * Pow256(0))));
    assert Pow256(8) == 256 * (256 * (256 * (256 * Pow256(4))));
  }

  lemma ListedHash(index: AddressIndex, h: Hash20)
    requires index.Valid() && index.state.derived == map[] && h in index.addressesMap && h in index.hashes
    ensures h.Hash160? && h.key.ChildKey? && h.key.wallet == index.wallet
    ensures ValidRef(index.state, Listed(h.key.keyType, h.key.keyIndex))
    ensures index.hashes[h] == StoredAddress(index.wallet, Listed(h.key.keyType, h.key.keyIndex))
  {
    assert index.addressesMap[h].Represents(index.state, OwnerOf(index.state, h.key).value);
    OwnerKey(index.state, h.key);
  }

  /** A library that writes the list keys of one wallet by type and index, and nothing else. */
  function PlainLibrary(wallet: nat): Library {
    Library(
      _ => [], s => Got(RawHash(0), s),
      _ => [], s => Got(NoKey, s),
      h => PlainHash(wallet, h), s => TakePlainHash(wallet, s),
      ra => PlainAddress(wallet, ra), s => TakePlainAddress(wallet, s),
      (p, o) => [], s => Malformed)
  }

  function PlainHash(wallet: nat, h: Hash20): Bytes {
    match h
    case Hash160(ChildKey(w, t, i)) => LE(t, 4) + LE(i, 4)
    case _ => []
  }

  function TakePlainHash(wallet: nat, s: Bytes): Parsed<Hash20> {
    var (t, s) :- TakeInt(s, 4);
    var (i, s) :- TakeInt(s, 4);
    Got(Hash160(ChildKey(wallet, t, i)), s)
  }

  function PlainAddress(wallet: nat, ra: RawAddress): Bytes {
    match ra
    case PayToKey(k) => PlainHash(wallet, Hash160(k))
    case PayToKeyHash(h) => PlainHash(wallet, h)
    case _ => []
  }

  function TakePlainAddress(wallet: nat, s: Bytes): Parsed<RawAddress> {
    var (t, s) :- TakeInt(s, 4);
    var (i, s) :- TakeInt(s, 4);
    Got(StoredAddress(wallet, Listed(t, i)), s)
  }

  lemma PlainReads(wallet: nat, t: nat, i: nat)
    requires t < Pow256(4) && i < Pow256(4)
    ensures ReadsHash20(PlainLibrary(wallet), Hash160(ChildKey(wallet, t, i)))
    ensures ReadsAddress(PlainLibrary(wallet), StoredAddress(wallet, Listed(t, i)))
  {
    var c, bytes := PlainLibrary(wallet), LE(t, 4) + LE(i, 4);
    assert c.hash20Bytes(Hash160(ChildKey(wallet, t, i))) == bytes;
    assert c.addressBytes(StoredAddress(wallet, Listed(t, i))) == bytes;
    forall rest: Bytes
      ensures TakePlainHash(wallet, bytes + rest) == Got(Hash160(ChildKey(wallet, t, i)), rest)
      ensures TakePlainAddress(wallet, bytes + rest) == Got(StoredAddress(wallet, Listed(t, i)), rest)
    {
      assert bytes + rest == LE(t, 4) + (LE(i, 4) + rest);
      TakeIntAppend(t, 4, LE(i, 4) + rest);
      TakeIntAppend(i, 4, rest);
    }
  }

  /** A new wallet, saved and loaded. */
  method RestartNew(wallet: nat, gap: nat) returns (index: AddressIndex, ledger: Ledger)
    requires gap < Pow256(4)
    ensures index.Valid() && ledger.Valid()
    ensures index.state == Reloaded(Prepared(wallet, gap)) && ledger.State() == map[]
  {
    hide AddressIndex.Valid, Reloaded, WritableIndex, Prepared, ReadsHash20, ReadsAddress;
    var index0 := new AddressIndex(wallet, gap);
    var ledger0 := new Ledger();
    forall t: nat, i: nat | t < KEY_TYPE_COUNT && i < gap
      ensures ReadsHash20(PlainLibrary(wallet), Hash160(ChildKey(wallet, t, i)))
      ensures ReadsAddress(PlainLibrary(wallet), StoredAddress(wallet, Listed(t, i)))
    {
      WidthsGrow();
      PlainReads(wallet, t, i);
    }
    IndexShape(index0);
    PreparedWritable(PlainLibrary(wallet), index0);
    index, ledger := Restart(PlainLibrary(wallet), index0, ledger0);
  }
}
