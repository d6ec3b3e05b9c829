/**
 The stored UTXOs of internal/wallet/utxos.go: buckets of entries by transaction, whose three flags
 are changed in place.
 */
module Ledgers {
  import opened Results
  import opened Bitcoin
  import opened AddressSpec
  import opened LedgerSpec

  /** What an entry spends and who can sign for it never changes; only its flags do. */
  class UTXO {
    const point: OutPoint
    const output: TxOut
    const keyType: nat
    const keyIndex: nat
    const keyHash: Option<Hash32>
    var pending: bool
    var reserved: bool
    var deleted: bool

    constructor (point: OutPoint, output: TxOut, keyType: nat, keyIndex: nat, keyHash: Option<Hash32>)
      ensures this.point == point && this.output == output
      ensures this.keyType == keyType && this.keyIndex == keyIndex && this.keyHash == keyHash
      ensures Entry() == Utxo(output.value, AddressOf(output.script), keyType, keyIndex, keyHash, true, false, false)
    {
      this.point, this.output := point, output;
      this.keyType, this.keyIndex, this.keyHash := keyType, keyIndex, keyHash;
      pending, reserved, deleted := true, false, false;
    }

    function Entry(): Utxo
      reads this
    {
      Utxo(output.value, AddressOf(output.script), keyType, keyIndex, keyHash, pending, reserved, deleted)
    }
  }

  type Buckets = map<Tx, seq<UTXO>>

  type Entries = map<OutPoint, UTXO>

  predicate InBucket(bucket: seq<UTXO>, p: OutPoint) {
    exists i :: 0 <= i < |bucket| && bucket[i].point == p
  }

  /** No bucket is empty, and its entries are distinct outputs of its own transaction. */
  ghost predicate Bucketed(utxos: Buckets) {
    forall h :: h in utxos ==>
      && utxos[h] != []
      && (forall i :: 0 <= i < |utxos[h]| ==> utxos[h][i].point.tx == h)
      && (forall i, j :: 0 <= i < j < |utxos[h]| ==> utxos[h][i].point != utxos[h][j].point)
  }

  lemma AppendKeepsBucket(bucket: seq<UTXO>, u: UTXO)
    ensures InBucket(bucket + [u], u.point)
    ensures forall p :: InBucket(bucket, p) ==> InBucket(bucket + [u], p)
  {
    assert (bucket + [u])[|bucket|] == u;
    forall p | InBucket(bucket, p) ensures InBucket(bucket + [u], p) {
      var i :| 0 <= i < |bucket| && bucket[i].point == p;
      assert (bucket + [u])[i].point == p;
    }
  }

  /** The buckets hold exactly these entries, each under its own outpoint. */
  ghost predicate Filed(utxos: Buckets, entries: Entries) {
    && (forall p :: p in entries ==> entries[p].point == p && p.tx in utxos && InBucket(utxos[p.tx], p))
    && (forall h, i :: h in utxos && 0 <= i < |utxos[h]| ==>
          utxos[h][i].point in entries && entries[utxos[h][i].point] == utxos[h][i])
  }

  /** A search of the bucket by output index decides whether an outpoint is stored. */
  lemma SearchDecides(utxos: Buckets, entries: Entries, p: OutPoint)
    requires Bucketed(utxos) && Filed(utxos, entries)
    ensures p in entries <==>
              p.tx in utxos && exists i :: 0 <= i < |utxos[p.tx]| && utxos[p.tx][i].point.index == p.index
    ensures p.tx in utxos ==> forall i :: 0 <= i < |utxos[p.tx]| && utxos[p.tx][i].point.index == p.index ==>
              p in entries && entries[p] == utxos[p.tx][i]
  {
    if p.tx in utxos {
      forall i | 0 <= i < |utxos[p.tx]| && utxos[p.tx][i].point.index == p.index
        ensures p in entries && entries[p] == utxos[p.tx][i]
      {
        assert utxos[p.tx][i].point == p;
      }
    }
  }

  /** Filing a new entry, in a new bucket or at the end of its bucket. */
  lemma FileEntry(utxos: Buckets, entries: Entries, u: UTXO)
    requires Bucketed(utxos) && Filed(utxos, entries)
    ensures u.point !in entries ==>
              var bucket := if u.point.tx in utxos then utxos[u.point.tx] else [];
              var later := utxos[u.point.tx := bucket + [u]];
              Bucketed(later) && Filed(later, entries[u.point := u])
    ensures u.point.tx !in utxos ==> [] + [u] == [u]
    ensures StateOf(entries[u.point := u]) == StateOf(entries)[u.point := u.Entry()]
    ensures StateOf(entries).Keys == entries.Keys
  {
    StateOfFiled(entries, u);
    hide *;
    if u.point !in entries {
      if u.point.tx in utxos {
        NoTwin(utxos, entries, u);
      }
      FileKeepsBuckets(utxos, u);
      FileKeepsFiled(utxos, entries, u);
    }
  }

  lemma NoTwin(utxos: Buckets, entries: Entries, u: UTXO)
    requires Filed(utxos, entries) && u.point !in entries && u.point.tx in utxos
    ensures forall i :: 0 <= i < |utxos[u.point.tx]| ==> utxos[u.point.tx][i].point != u.point
  {
  }

  lemma FileKeepsBuckets(utxos: Buckets, u: UTXO)
    requires Bucketed(utxos)
    requires u.point.tx in utxos ==> forall i :: 0 <= i < |utxos[u.point.tx]| ==> utxos[u.point.tx][i].point != u.point
    ensures var bucket := if u.point.tx in utxos then utxos[u.point.tx] else [];
            Bucketed(utxos[u.point.tx := bucket + [u]])
  {
  }

  lemma FileKeepsFiled(utxos: Buckets, entries: Entries, u: UTXO)
    requires Bucketed(utxos) && Filed(utxos, entries) && u.point !in entries
    ensures var bucket := if u.point.tx in utxos then utxos[u.point.tx] else [];
            Filed(utxos[u.point.tx := bucket + [u]], entries[u.point := u])
  {
    hide Bucketed, InBucket;
    var bucket := if u.point.tx in utxos then utxos[u.point.tx] else [];
    AppendKeepsBucket(bucket, u);
  }

  lemma StateOfFiled(entries: Entries, u: UTXO)
    ensures StateOf(entries[u.point := u]) == StateOf(entries)[u.point := u.Entry()]
    ensures StateOf(entries).Keys == entries.Keys
  {
  }

  ghost function StateOf(entries: Entries): LedgerState
    reads entries.Values
  {
    map p | p in entries :: entries[p].Entry()
  }

  /** Which entries a selector takes; none takes a pending, reserved or deleted one. */
  datatype Selector =
    | KeySelector(keyType: nat, keyIndex: nat)
    | KeyHashSelector(keyType: nat, keyIndex: nat, keyHash: Hash32)
    | BitcoinSelector

  predicate Selects(s: Selector, u: Utxo) {
    && !u.reserved && !u.deleted && !u.pending
    && match s
       case KeySelector(t, i) => u.keyHash == None && u.keyType == t && u.keyIndex == i
       case KeyHashSelector(t, i, h) => u.keyHash == Some(h) && u.keyType == t && u.keyIndex == i
       case BitcoinSelector => u.keyType == KEY_TYPE_EXTERNAL || u.keyType == KEY_TYPE_INTERNAL
  }

  datatype KeyError = HashNotFound | IndexNotFound

  class Ledger {
    var utxos: map<Tx, seq<UTXO>>
    ghost var entries: map<OutPoint, UTXO>
    ghost var repr: set<UTXO>

    ghost predicate Valid()
      reads this
    {
      Bucketed(utxos) && Filed(utxos, entries) && entries.Values <= repr
    }

    ghost function State(): LedgerState
      requires Valid()
      reads this, repr
    {
      StateOf(entries)
    }

    constructor ()
      ensures Valid() && State() == map[] && utxos == map[] && repr == {}
    {
      utxos, entries, repr := map[], map[], {};
    }

    /** The loop every lookup of one entry repeats. */
    method FindUTXO(p: OutPoint) returns (u: UTXO?)
      requires Valid()
      ensures u == null <==> p !in entries
      ensures u != null ==> p in entries && entries[p] == u
    {
      hide Bucketed, Filed;
      SearchDecides(utxos, entries, p);
      if p.tx !in utxos {
        return null;
      }
      var bucket := utxos[p.tx];
      for i := 0 to |bucket|
        invariant forall k :: 0 <= k < i ==> bucket[k].point.index != p.index
      {
        if bucket[i].point.index == p.index {
          return bucket[i];
        }
      }
      return null;
    }

    method CreateUTXO(utxo: UTXO)
      requires Valid()
      modifies this
      ensures Valid() && State() == Create(old(State()), utxo.point, old(utxo.Entry()))
      ensures entries == if utxo.point in old(entries) then old(entries) else old(entries)[utxo.point := utxo]
      ensures repr == old(repr) + {utxo}
    {
      hide Bucketed, Filed, StateOf, InBucket;
      var h := utxo.point.tx;
      FileEntry(utxos, entries, utxo);
      SearchDecides(utxos, entries, utxo.point);
      repr := repr + {utxo};
      if h !in utxos {
        utxos := utxos[h := [utxo]];
        entries := entries[utxo.point := utxo];
        return;
      }
      var bucket := utxos[h];
      for i := 0 to |bucket|
        invariant forall k :: 0 <= k < i ==> bucket[k].point.index != utxo.point.index
      {
        if bucket[i].point.index == utxo.point.index {
          return;
        }
      }
      utxos := utxos[h := bucket + [utxo]];
      entries := entries[utxo.point := utxo];
    }

    method FinalizeUTXO(p: OutPoint) returns (u: UTXO?)
      requires Valid()
      modifies repr
      ensures Valid() && State() == Finalize(old(State()), p)
      ensures u == null <==> p !in entries
      ensures u != null ==> entries[p] == u
    {
      hide Bucketed, InBucket;
      u := FindUTXO(p);
      if u != null {
        u.pending := false;
      }
    }

    method DeleteUTXO(p: OutPoint) returns (u: UTXO?)
      requires Valid()
      modifies repr
      ensures Valid() && State() == Delete(old(State()), p)
      ensures u == null <==> p !in entries
      ensures u != null ==> entries[p] == u
    {
      hide Bucketed, InBucket;
      u := FindUTXO(p);
      if u != null {
        u.deleted := true;
      }
    }

    method UndeleteUTXO(p: OutPoint) returns (u: UTXO?)
      requires Valid()
      modifies repr
      ensures Valid() && State() == Undelete(old(State()), p)
      ensures u == null <==> p !in entries
      ensures u != null ==> entries[p] == u
    {
      hide Bucketed, InBucket;
      u := FindUTXO(p);
      if u != null {
        u.deleted := false;
      }
    }

    method ReserveUTXO(p: OutPoint) returns (u: UTXO?)
      requires Valid()
      modifies repr
      ensures Valid() && State() == Reserve(old(State()), p)
      ensures u == null <==> p !in entries
      ensures u != null ==> entries[p] == u
    {
      hide Bucketed, InBucket;
      u := FindUTXO(p);
      if u != null {
        u.reserved := true;
      }
    }

    method UnreserveUTXO(p: OutPoint) returns (u: UTXO?)
      requires Valid()
      modifies repr
      ensures Valid() && State() == Unreserve(old(State()), p)
      ensures u == null <==> p !in entries
      ensures u != null ==> entries[p] == u
    {
      hide Bucketed, InBucket;
      u := FindUTXO(p);
      if u != null {
        u.reserved := false;
      }
    }

    /** A selection: exactly the selected entries of some buckets, each once. */
    ghost predicate Chosen(result: seq<UTXO>, s: Selector, from: set<Tx>)
      reads this, repr
      requires Valid()
    {
      && (forall k :: 0 <= k < |result| ==>
            && result[k].point in entries && entries[result[k].point] == result[k]
            && result[k].point.tx in from && Selects(s, result[k].Entry()))
      && (forall p :: p in entries && p.tx in from && Selects(s, entries[p].Entry()) ==> entries[p] in result)
      && (forall j, k :: 0 <= j < k < |result| ==> result[j].point != result[k].point)
    }

    /** The loops of the three selectors: every bucket, in whatever order the map gives them. */
    method Select(s: Selector) returns (result: seq<UTXO>)
      requires Valid()
      ensures Chosen(result, s, utxos.Keys)
    {
      hide Bucketed, Filed, Selects;
      result := [];
      var rest := utxos.Keys;
      while rest != {}
        invariant rest <= utxos.Keys && Chosen(result, s, utxos.Keys - rest)
        decreases |rest|
      {
        var h :| h in rest;
        var found := SelectFrom(s, h);
        ChosenMore(result, found, s, utxos.Keys - rest, h);
        assert utxos.Keys - rest + {h} == utxos.Keys - (rest - {h});
        result, rest := result + found, rest - {h};
      }
      assert utxos.Keys - rest == utxos.Keys;
    }

    method SelectFrom(s: Selector, h: Tx) returns (found: seq<UTXO>)
      requires Valid() && h in utxos
      ensures Chosen(found, s, {h})
    {
      var bucket := utxos[h];
      found := [];
      for i := 0 to |bucket|
        invariant forall k :: 0 <= k < |found| ==>
                    exists m :: 0 <= m < i && found[k] == bucket[m] && Selects(s, found[k].Entry())
        invariant forall m :: 0 <= m < i && Selects(s, bucket[m].Entry()) ==> bucket[m] in found
        invariant forall j, k :: 0 <= j < k < |found| ==> found[j].point != found[k].point
      {
        if Selects(s, bucket[i].Entry()) {
          found := found + [bucket[i]];
        }
      }
    }

    lemma ChosenMore(a: seq<UTXO>, b: seq<UTXO>, s: Selector, from: set<Tx>, h: Tx)
      requires Valid() && Chosen(a, s, from) && Chosen(b, s, {h}) && h !in from
      ensures Chosen(a + b, s, from + {h})
    {
    }

    method GetKeyUTXOs(keyType: nat, keyIndex: nat) returns (result: seq<UTXO>)
      requires Valid()
      ensures Chosen(result, KeySelector(keyType, keyIndex), utxos.Keys)
    {
      result := Select(KeySelector(keyType, keyIndex));
    }

    method GetKeyHashUTXOs(keyType: nat, keyIndex: nat, keyHash: Hash32) returns (result: seq<UTXO>)
      requires Valid()
      ensures Chosen(result, KeyHashSelector(keyType, keyIndex, keyHash), utxos.Keys)
    {
      result := Select(KeyHashSelector(keyType, keyIndex, keyHash));
    }

    method GetBitcoinUTXOs() returns (result: seq<UTXO>)
      requires Valid()
      ensures Chosen(result, BitcoinSelector, utxos.Keys)
    {
      result := Select(BitcoinSelector);
    }

    /**
     GetInputKeys: one signing key per input, in order, or the error of the first input that is not
     stored. The search of a bucket has no break, yet takes one key because its indexes are distinct.
     */
    method GetInputKeys(wallet: nat, inputs: seq<TxIn>) returns (keys: Result<seq<PrivateKey>, KeyError>)
      requires Valid()
      ensures keys.Ok? <==> forall n :: 0 <= n < |inputs| ==> inputs[n].point in entries
      ensures keys.Ok? ==>
                && |keys.value| == |inputs|
                && forall n :: 0 <= n < |inputs| ==>
                     keys.value[n] == SigningKey(wallet, entries[inputs[n].point].Entry())
      ensures keys.Err? ==>
                exists n :: 0 <= n < |inputs| && inputs[n].point !in entries
                  && (forall k :: 0 <= k < n ==> inputs[k].point in entries)
                  && (keys.error == HashNotFound <==> inputs[n].point.tx !in utxos)
    {
      var result := [];
      for n := 0 to |inputs|
        invariant |result| == n
        invariant forall k :: 0 <= k < n ==>
                    && inputs[k].point in entries
                    && result[k] == SigningKey(wallet, entries[inputs[k].point].Entry())
      {
        var p := inputs[n].point;
        if p.tx !in utxos {
          assert p !in entries;
          return Err(HashNotFound);
        }
        var matching := KeysInBucket(wallet, p);
        if matching == [] {
          return Err(IndexNotFound);
        }
        result := result + matching;
      }
      return Ok(result);
    }

    /** The inner loop of GetInputKeys. */
    method KeysInBucket(wallet: nat, p: OutPoint) returns (keys: seq<PrivateKey>)
      requires Valid() && p.tx in utxos
      ensures keys == if p in entries then [SigningKey(wallet, entries[p].Entry())] else []
    {
      var bucket := utxos[p.tx];
      keys := [];
      for i := 0 to |bucket|
        invariant InBucket(bucket[..i], p) ==> p in entries && keys == [SigningKey(wallet, entries[p].Entry())]
        invariant !InBucket(bucket[..i], p) ==> keys == []
      {
        var u := bucket[i];
        assert bucket[..i + 1] == bucket[..i] + [u];
        if u.point.index == p.index {
          assert u.point == p;
          var key := PrivateChild(wallet, u.keyType, u.keyIndex);
          if u.keyHash.Some? {
            key := NextKey(key, u.keyHash.value);
          }
          keys := keys + [key];
        }
      }
      assert bucket[..|bucket|] == bucket;
    }
  }
}
