/**
 The address index of the wallet: the lists of addresses.go, the map that shares their entries, the
 independent keys of keys.go and the hashes the node listens for.
 */
module AddressIndexes {
  import opened Results
  import opened Bitcoin
  import opened AddressSpec

  /** What an address is never changes; only its flags do. */
  class Address {
    const address: RawAddress
    const publicKey: PublicKey
    const keyType: nat
    const keyIndex: nat
    const keyHash: Option<Hash32>
    var used: bool
    var given: bool

    constructor (info: AddressInfo)
      ensures address == info.address && publicKey == info.publicKey
      ensures keyType == info.keyType && keyIndex == info.keyIndex && keyHash == info.keyHash
      ensures !used && !given
    {
      address, publicKey := info.address, info.publicKey;
      keyType, keyIndex, keyHash := info.keyType, info.keyIndex, info.keyHash;
      used, given := false, false;
    }

    /** This object is the entry `ref` of the index. */
    ghost predicate Represents(ix: IndexState, ref: AddressRef)
      reads this
    {
      && ValidRef(ix, ref)
      && InfoOf(ix, ref) == AddressInfo(address, publicKey, keyType, keyIndex, keyHash)
      && SlotOf(ix, ref) == Slot(publicKey != NoKey, used, given)
    }
  }

  /** An object stands for one entry only. */
  lemma RepresentsOne(a: Address, ix: IndexState, r1: AddressRef, r2: AddressRef)
    requires WellFormed(ix) && a.Represents(ix, r1) && a.Represents(ix, r2)
    ensures r1 == r2
  {
  }

  /** The three comparisons FindAddress makes of a filed entry with the address looked for. */
  predicate Answers(result: Address, ra: RawAddress) {
    || result.address == ra
    || (ra.PayToKey? && ra.key == result.publicKey)
    || (ra.PayToKeyHash? && ra.hash == Hash160(result.publicKey))
  }

  lemma EntryAnswers(a: Address, ix: IndexState, ref: AddressRef, ra: RawAddress, key: PublicKey)
    requires OwnerOf(ix, key) == Some(ref) && key != NoKey && a.Represents(ix, ref)
    requires HashesOf(ra).Some? && Hash160(key) in HashesOf(ra).value
    ensures Answers(a, ra) <==> Lookup(ix, ra).Present?
    ensures Lookup(ix, ra).Present? ==> Lookup(ix, ra) == Present(ref)
  {
  }

  type AddressMap = map<Hash20, Address>

  /** Each list slot and the map entry of its key are one and the same object. */
  ghost predicate ListsShared(lists: seq<seq<Address>>, filed: AddressMap, ix: IndexState) {
    && |lists| == |ix.lists| == KEY_TYPE_COUNT
    && (forall t :: 0 <= t < KEY_TYPE_COUNT ==> |lists[t]| == |ix.lists[t]|)
    && (forall t, i :: 0 <= t < KEY_TYPE_COUNT && 0 <= i < |lists[t]| ==>
          var h := Hash160(ChildKey(ix.wallet, t, i));
          h in filed && filed[h] == lists[t][i])
  }

  /** Every map entry is filed under the hash of its own key and represents that key's entry. */
  ghost predicate MapFiled(filed: AddressMap, ix: IndexState)
    reads filed.Values
  {
    && (forall h :: h in filed ==>
          && h.Hash160? && OwnerOf(ix, h.key).Some?
          && filed[h].Represents(ix, OwnerOf(ix, h.key).value))
    && (forall k :: k in ix.derived ==> Hash160(k) in filed)
  }

  /** The same, except that `a`, the object behind `ref`, may hold any flags. */
  ghost predicate FiledExcept(filed: AddressMap, ix: IndexState, ref: AddressRef, a: Address)
    reads filed.Values - {a}
  {
    && (forall h :: h in filed && filed[h] != a ==>
          && h.Hash160? && OwnerOf(ix, h.key).Some?
          && filed[h].Represents(ix, OwnerOf(ix, h.key).value))
    && (forall h :: h in filed && filed[h] == a ==> h.Hash160? && OwnerOf(ix, h.key) == Some(ref))
    && (forall k :: k in ix.derived ==> Hash160(k) in filed)
  }

  /** Every entry stays where it was. */
  ghost predicate Keeps(before: AddressMap, later: AddressMap) {
    forall h :: h in before ==> h in later && later[h] == before[h]
  }

  lemma KeepsSame(filed: AddressMap)
    ensures Keeps(filed, filed)
  {
  }

  lemma KeepsOn(a: AddressMap, b: AddressMap, c: AddressMap)
    requires Keeps(a, b) && Keeps(b, c)
    ensures Keeps(a, c)
  {
  }

  /** The node listens for the hash of every entry. */
  ghost predicate Monitored(filed: AddressMap, hashes: map<Hash20, RawAddress>) {
    forall h :: h in filed ==> h in hashes && hashes[h] == filed[h].address
  }

  class AddressIndex {
    const wallet: nat
    const gap: nat
    var addressesMap: map<Hash20, Address>
    var addressesList: seq<seq<Address>>
    var hashes: map<Hash20, RawAddress>
    ghost var state: IndexState
    ghost var repr: set<Address>

    ghost predicate Valid()
      reads this, repr
    {
      && addressesMap.Values <= repr
      && WellFormed(state) && state.wallet == wallet && state.gap == gap
      && ListsShared(addressesList, addressesMap, state)
      && MapFiled(addressesMap, state)
      && Monitored(addressesMap, hashes)
    }

    /** The node listens for entries only. */
    ghost predicate OnlyEntries()
      reads this
    {
      hashes.Keys == addressesMap.Keys
    }

    /** The entry object behind a reference. */
    ghost predicate Holds(a: Address, ref: AddressRef)
      reads this, repr
      requires Valid()
    {
      var h := Hash160(KeyBehind(wallet, ref));
      ValidRef(state, ref) && h in addressesMap && addressesMap[h] == a
    }

    lemma HoldsRepresents(a: Address, ref: AddressRef)
      requires Valid() && Holds(a, ref)
      ensures a.Represents(state, ref) && a in repr
    {
      assert OwnerOf(state, KeyBehind(wallet, ref)) == Some(ref);
    }

    constructor (wallet: nat, gap: nat)
      ensures Valid() && fresh(repr)
      ensures state == Prepared(wallet, gap)
      ensures this.wallet == wallet && this.gap == gap && OnlyEntries() && |hashes| <= KEY_TYPE_COUNT * gap
    {
      this.wallet, this.gap := wallet, gap;
      addressesMap, hashes := map[], map[];
      addressesList := seq(KEY_TYPE_COUNT, _ => []);
      state, repr := PreparedUpTo(wallet, gap, 0), {};
      new;
      PreparedEnds(wallet, gap);
      assert Valid() && OnlyEntries();
      hide *;
      for t := 0 to KEY_TYPE_COUNT
        invariant Valid() && fresh(repr) && state == PreparedUpTo(wallet, gap, t)
        invariant OnlyEntries() && |hashes| <= t * gap
      {
        assert (t + 1) * gap == t * gap + gap;
        PreparedOnce(wallet, gap, t);
        ForwardScan(t);
      }
    }

    /** The index that Deserialize starts from: the monitored hashes are read first. */
    constructor Restored(wallet: nat, gap: nat, hashes: map<Hash20, RawAddress>)
      ensures Valid() && fresh(repr) && this.hashes == hashes
      ensures state == IndexState(wallet, gap, seq(KEY_TYPE_COUNT, _ => []), map[])
    {
      this.wallet, this.gap, this.hashes := wallet, gap, hashes;
      addressesMap := map[];
      addressesList := seq(KEY_TYPE_COUNT, _ => []);
      state, repr := IndexState(wallet, gap, seq(KEY_TYPE_COUNT, _ => []), map[]), {};
    }

    /** Put back a list entry: its public key and whether it was given are not stored. */
    method RestoreListed(t: nat, ra: RawAddress, used: bool)
      requires Valid() && t < KEY_TYPE_COUNT
      requires var ref := Listed(t, |state.lists[t]|);
               var h := Hash160(KeyBehind(wallet, ref));
               ra == StoredAddress(wallet, ref) && h in hashes && hashes[h] == ra
      modifies this
      ensures Valid() && state == WithSlot(old(state), t, Slot(false, used, false))
      ensures hashes == old(hashes) && fresh(repr - old(repr))
    {
      hide ListsShared, MapFiled, Monitored, Address.Represents, WithSlot, WellFormed;
      ListedLength(t);
      ghost var slot := Slot(false, used, false);
      var hash := HashesOf(ra).value[0];
      var address := new Address(AddressInfo(ra, NoKey, t, |addressesList[t]|, None));
      address.used := used;
      SlotRepresents(state, t, address, slot);
      FileListed(addressesMap, state, t, address, slot);
      ShareListed(addressesList, addressesMap, state, t, address, slot);
      AlreadyMonitored(addressesMap, hashes, hash, address);
      addressesMap := addressesMap[hash := address];
      addressesList := addressesList[t := addressesList[t] + [address]];
      state, repr := WithSlot(state, t, slot), repr + {address};
    }

    /** Put back a derived entry. */
    method RestoreDerived(ra: RawAddress, keyType: nat, keyIndex: nat, keyHash: Hash32, used: bool, ghost pk: PublicKey)
      requires Valid() && pk.NextPublicKey? && ra == PayToKeyHash(Hash160(pk))
      requires ValidRef(state, Listed(keyType, keyIndex)) && Hash160(pk) in hashes && hashes[Hash160(pk)] == ra
      modifies this
      ensures Valid() && state == WithDerived(old(state), pk, keyType, keyIndex, keyHash, Slot(false, used, false))
      ensures hashes == old(hashes) && fresh(repr - old(repr))
    {
      hide ListsShared, MapFiled, Monitored, Address.Represents, WithDerived, WellFormed;
      ghost var slot := Slot(false, used, false);
      var hash := HashesOf(ra).value[0];
      var ad := new Address(AddressInfo(ra, NoKey, keyType, keyIndex, Some(keyHash)));
      ad.used := used;
      WithDerivedShape(state, pk, keyType, keyIndex, keyHash, slot);
      FileDerived(addressesMap, state, pk, ad, slot);
      ShareDerived(addressesList, addressesMap, state, pk, ad, keyType, keyIndex, keyHash, slot);
      AlreadyMonitored(addressesMap, hashes, hash, ad);
      addressesMap := addressesMap[hash := ad];
      state, repr := WithDerived(state, pk, keyType, keyIndex, keyHash, slot), repr + {ad};
    }

    method GetAddress(t: nat, i: nat) returns (a: Address?)
      requires Valid()
      ensures a == null <==> !ValidRef(state, Listed(t, i))
      ensures a != null ==> Holds(a, Listed(t, i))
    {
      if t >= KEY_TYPE_COUNT {
        return null;
      }
      if i >= |addressesList[t]| {
        return null;
      }
      return addressesList[t][i];
    }

    /** A filed candidate answers exactly when the lookup finds it. */
    lemma CandidateDecides(ra: RawAddress, h: Hash20)
      requires Valid() && HashesOf(ra).Some? && h in HashesOf(ra).value && h in addressesMap
      ensures Answers(addressesMap[h], ra) <==> Lookup(state, ra).Present?
      ensures Lookup(state, ra).Present? ==> Holds(addressesMap[h], Lookup(state, ra).ref)
    {
      var ref := OwnerOf(state, h.key).value;
      assert addressesMap[h].Represents(state, ref);
      OwnerKey(state, h.key);
      assert Holds(addressesMap[h], ref) && h.key != NoKey;
      hide Valid, Holds;
      EntryAnswers(addressesMap[h], state, ref, ra, h.key);
    }

    /** FindAddress finds exactly what the key ownership says, whatever the form of the address. */
    method FindAddress(ra: RawAddress) returns (found: Address?, known: bool)
      requires Valid()
      ensures known <==> Lookup(state, ra) != UnknownTemplate
      ensures found != null <==> Lookup(state, ra).Present?
      ensures found != null ==> Holds(found, Lookup(state, ra).ref)
    {
      var candidates := HashesOf(ra);
      if candidates.None? {
        return null, false;
      }
      hide Answers, MapFiled, ListsShared, Monitored;
      var n := 0;
      while n < |candidates.value|
        invariant 0 <= n <= |candidates.value|
        invariant n > 0 ==> !Lookup(state, ra).Present?
      {
        var hash := candidates.value[n];
        if hash in addressesMap {
          CandidateDecides(ra, hash);
          if Answers(addressesMap[hash], ra) {
            return addressesMap[hash], true;
          }
        } else {
          Unfiled(ra, hash);
        }
        n := n + 1;
      }
      if |candidates.value| == 0 {
        NoCandidate(ra);
      }
      return null, true;
    }

    /** An address without hashes, as an empty multiple key hash address, is never found. */
    lemma NoCandidate(ra: RawAddress)
      requires HashesOf(ra) == Some([])
      ensures !Lookup(state, ra).Present?
    {
    }

    /** A candidate that is not filed rules the address out. */
    lemma Unfiled(ra: RawAddress, h: Hash20)
      requires Valid() && HashesOf(ra).Some? && h in HashesOf(ra).value && h !in addressesMap
      ensures !Lookup(state, ra).Present?
    {
    }

    /** The backward count of forwardScan: unused addresses at the end of a list, up to the gap. */
    method CountUnused(t: nat) returns (unused: nat)
      requires Valid() && t < KEY_TYPE_COUNT
      ensures unused >= gap <==> UsedBound(state.lists[t]) + gap <= |state.lists[t]|
      ensures unused < gap ==> unused == |state.lists[t]| - UsedBound(state.lists[t])
    {
      hide *;
      ListedLength(t);
      ListedRepresent(t);
      var list := addressesList[t];
      unused := 0;
      var i := |list|;
      while i > 0 && !list[i - 1].used && unused < gap
        invariant 0 <= i <= |list| && unused == |list| - i <= gap
        invariant forall k :: i <= k < |list| ==> !list[k].used
      {
        unused := unused + 1;
        i := i - 1;
      }
      TailCount(state.lists[t], gap, unused);
    }

    /** forwardScan: count the unused tail, then append what the gap still lacks. */
    method ForwardScan(t: nat)
      requires Valid() && t < KEY_TYPE_COUNT
      modifies this
      ensures Valid() && state == Scan(old(state), t)
      ensures Keeps(old(addressesMap), addressesMap) && fresh(repr - old(repr))
      ensures |hashes| <= |old(hashes)| + gap
      ensures old(OnlyEntries()) ==> OnlyEntries()
    {
      var unused := CountUnused(t);
      ScanIdle(state, t);
      KeepsSame(addressesMap);
      if unused < gap {
        LengthenIsScan(state, t, gap - unused);
        AppendAddresses(t, unused);
      }
    }

    method AppendAddresses(t: nat, unused: nat)
      requires Valid() && t < KEY_TYPE_COUNT && unused < gap
      modifies this
      ensures Valid() && state == Lengthen(old(state), t, gap - unused)
      ensures Keeps(old(addressesMap), addressesMap) && fresh(repr - old(repr))
      ensures |hashes| <= |old(hashes)| + (gap - unused)
      ensures old(OnlyEntries()) ==> OnlyEntries()
    {
      ghost var before, filed, count, only := state, addressesMap, |hashes|, OnlyEntries();
      KeepsSame(filed);
      LengthenStart(state, t);
      hide *;
      for i := unused to gap
        invariant Valid() && state == Lengthen(before, t, i - unused)
        invariant Keeps(filed, addressesMap) && fresh(repr - old(repr))
        invariant |hashes| <= count + (i - unused) && (only ==> OnlyEntries())
      {
        ghost var sofar := addressesMap;
        AppendAddress(t);
        KeepsOn(filed, sofar, addressesMap);
        LengthenOnce(before, t, i - unused);
      }
    }

    lemma ListedRepresent(t: nat)
      requires Valid() && t < KEY_TYPE_COUNT
      ensures |addressesList[t]| == |state.lists[t]|
      ensures forall k :: 0 <= k < |addressesList[t]| ==>
                && addressesList[t][k].used == state.lists[t][k].used
                && addressesList[t][k].given == state.lists[t][k].given
    {
      forall k | 0 <= k < |addressesList[t]|
        ensures addressesList[t][k].used == state.lists[t][k].used
        ensures addressesList[t][k].given == state.lists[t][k].given
      {
        HoldsRepresents(addressesList[t][k], Listed(t, k));
      }
    }

    /** One turn of the loop in forwardScan: derive the next key of the list and file it. */
    method AppendAddress(t: nat)
      requires Valid() && t < KEY_TYPE_COUNT
      modifies this
      ensures Valid() && state == WithSlot(old(state), t, FreshSlot)
      ensures Keeps(old(addressesMap), addressesMap) && fresh(repr - old(repr))
      ensures |hashes| <= |old(hashes)| + 1
      ensures old(OnlyEntries()) ==> OnlyEntries()
    {
      hide ListsShared, MapFiled, Monitored, Address.Represents, WithSlot, WellFormed;
      ListedLength(t);
      var nextIndex := |addressesList[t]|;
      var key := PublicOf(PrivateChild(wallet, t, nextIndex));
      var ra := if t == KEY_TYPE_RELATE_IN then PayToKey(key) else PayToKeyHash(Hash160(key));
      var hash := Hash160(key);
      var address := new Address(AddressInfo(ra, key, t, nextIndex, None));
      SlotRepresents(state, t, address, FreshSlot);
      FileListed(addressesMap, state, t, address, FreshSlot);
      ShareListed(addressesList, addressesMap, state, t, address, FreshSlot);
      KeepMonitored(addressesMap, hashes, hash, address);
      hashes := hashes[hash := ra];
      addressesMap := addressesMap[hash := address];
      addressesList := addressesList[t := addressesList[t] + [address]];
      state, repr := WithSlot(state, t, FreshSlot), repr + {address};
    }

    lemma ListedLength(t: nat)
      requires Valid() && t < KEY_TYPE_COUNT
      ensures |addressesList| == |state.lists| == KEY_TYPE_COUNT && |addressesList[t]| == |state.lists[t]|
    {
    }

    /** Change the flags of one entry; the ghost state follows. */
    method SetFlags(a: Address, ghost ref: AddressRef, used: bool, given: bool)
      requires Valid() && Holds(a, ref)
      modifies a, this`state
      ensures Valid() && Holds(a, ref)
      ensures a.used == used && a.given == given
      ensures state == SetSlot(old(state), ref, Slot(a.publicKey != NoKey, used, given))
    {
      hide ListsShared, MapFiled, FiledExcept, Monitored, SetSlot, WellFormed;
      HoldsRepresents(a, ref);
      ghost var slot := Slot(a.publicKey != NoKey, used, given);
      ghost var later := SetSlot(state, ref, slot);
      SetSlotShape(state, ref, slot);
      ShareSlots(addressesList, addressesMap, state, ref, slot);
      SetSlotFiled(addressesMap, state, ref, slot, a);
      a.used, a.given := used, given;
      state := later;
      FiledAgain(addressesMap, later, ref, a);
    }

    /** What MarkAddress reads of the address is what the index says of the entry. */
    lemma MarkReady(add: Address, ref: AddressRef)
      requires Valid() && Holds(add, ref)
      ensures ValidRef(state, ref) && WellFormed(state) && InfoOf(state, ref).keyType == add.keyType
      ensures SlotOf(state, ref) == Slot(add.publicKey != NoKey, add.used, add.given)
      ensures add.keyType < KEY_TYPE_COUNT == |addressesList| == |state.lists|
      ensures add.keyIndex + gap >= |addressesList[add.keyType]| <==> Triggers(state, ref)
    {
      HoldsRepresents(add, ref);
      ListedRepresent(add.keyType);
    }

    method MarkAddress(add: Address, ghost ref: AddressRef)
      requires Valid() && Holds(add, ref)
      modifies this, add
      ensures Valid() && state == Mark(old(state), ref)
      ensures Keeps(old(addressesMap), addressesMap) && fresh(repr - old(repr))
    {
      hide *;
      MarkReady(add, ref);
      MarkUnfold(state, ref);
      KeepsSame(addressesMap);
      if add.used {
        return;
      }
      var reach := add.keyIndex + gap >= |addressesList[add.keyType]|;
      SetFlags(add, ref, true, add.given);
      if reach {
        ForwardScan(add.keyType);
      }
    }

    /** AddIndependentKey: an entry for a key derived outside the wallet's own lists. */
    method AddIndependentKey(pk: PublicKey, keyType: nat, keyIndex: nat, hash: Hash32)
      requires Valid() && pk.NextPublicKey?
      requires ValidRef(state, Listed(keyType, keyIndex))
      modifies this
      ensures Valid() && state == AddKey(old(state), pk, keyType, keyIndex, hash)
      ensures fresh(repr - old(repr))
    {
      hide ListsShared, MapFiled, Monitored, Address.Represents, AddKey, WithDerived, WellFormed;
      var ra := PayToKeyHash(Hash160(pk));
      var ad := new Address(AddressInfo(ra, pk, keyType, keyIndex, Some(hash)));
      WithDerivedShape(state, pk, keyType, keyIndex, hash, FreshSlot);
      AddKeyIs(state, pk, keyType, keyIndex, hash);
      FileDerived(addressesMap, state, pk, ad, FreshSlot);
      ShareDerived(addressesList, addressesMap, state, pk, ad, keyType, keyIndex, hash, FreshSlot);
      KeepMonitored(addressesMap, hashes, Hash160(pk), ad);
      hashes := hashes[Hash160(pk) := ra];
      addressesMap := addressesMap[Hash160(pk) := ad];
      state, repr := AddKey(state, pk, keyType, keyIndex, hash), repr + {ad};
    }

    /** The first free address of a list, now given out. */
    method GetUnusedAddress(keyType: nat) returns (a: Address?)
      requires Valid() && keyType < KEY_TYPE_COUNT
      modifies this`state, repr
      ensures Valid()
      ensures a == null <==> FirstFree(old(state).lists[keyType]).None?
      ensures a == null ==> state == old(state)
      ensures a != null ==>
                var ref := Listed(keyType, FirstFree(old(state).lists[keyType]).value);
                Holds(a, ref) && state == Give(old(state), ref)
    {
      var n := FindFree(keyType);
      if n.None? {
        return null;
      }
      a := addressesList[keyType][n.value];
      assert Holds(a, Listed(keyType, n.value));
      HoldsRepresents(a, Listed(keyType, n.value));
      hide ListsShared, MapFiled, Monitored, SetSlot;
      SetFlags(a, Listed(keyType, n.value), false, true);
    }

    /** The search loop of the GetUnused methods. */
    method FindFree(keyType: nat) returns (free: Option<nat>)
      requires Valid() && keyType < KEY_TYPE_COUNT
      ensures free == FirstFree(state.lists[keyType])
    {
      hide *;
      ListedLength(keyType);
      ListedRepresent(keyType);
      var list := addressesList[keyType];
      var n := 0;
      while n < |list|
        invariant 0 <= n <= |list|
        invariant forall k :: 0 <= k < n ==> list[k].used || list[k].given
      {
        if !list[n].used && !list[n].given {
          return Some(n);
        }
        n := n + 1;
      }
      return None;
    }

    /** GetUnusedRawAddress: the same, with the type checked and only the address returned. */
    method GetUnusedRawAddress(keyType: nat) returns (ra: Option<RawAddress>)
      requires Valid()
      modifies this`state, repr
      ensures Valid()
      ensures ra.None? ==> state == old(state)
      ensures ra.None? <==> keyType >= KEY_TYPE_COUNT || FirstFree(old(state).lists[keyType]).None?
      ensures ra.Some? ==>
                var ref := Listed(keyType, FirstFree(old(state).lists[keyType]).value);
                ra.value == StoredAddress(wallet, ref) && state == Give(old(state), ref)
    {
      if keyType >= KEY_TYPE_COUNT {
        return None;
      }
      var a := GetUnusedAddress(keyType);
      if a == null {
        return None;
      }
      HoldsRepresents(a, Listed(keyType, FirstFree(old(state).lists[keyType]).value));
      return Some(a.address);
    }

    /** GetKey: the private key of a list entry. */
    function GetKey(keyType: nat, keyIndex: nat): PrivateKey {
      PrivateChild(wallet, keyType, keyIndex)
    }

    /** GetUnusedKey: the private key and index of the first free address of a list. */
    method GetUnusedKey(keyType: nat) returns (key: Option<(PrivateKey, nat)>)
      requires Valid() && keyType < KEY_TYPE_COUNT
      modifies this`state, repr
      ensures Valid()
      ensures key.None? ==> state == old(state)
      ensures key.Some? <==> FirstFree(old(state).lists[keyType]).Some?
      ensures key.Some? ==>
                && Some(key.value.1) == FirstFree(old(state).lists[keyType])
                && PublicOf(key.value.0) == KeyBehind(wallet, Listed(keyType, key.value.1))
                && state == Give(old(state), Listed(keyType, key.value.1))
    {
      var a := GetUnusedAddress(keyType);
      if a == null {
        return None;
      }
      HoldsRepresents(a, Listed(keyType, FirstFree(old(state).lists[keyType]).value));
      return Some((GetKey(keyType, a.keyIndex), a.keyIndex));
    }

    /** Is any of these hashes one the node listens for? */
    method AreHashesMonitored(candidates: seq<Hash20>) returns (monitored: bool, ra: RawAddress)
      requires Valid()
      ensures monitored <==> exists n :: 0 <= n < |candidates| && candidates[n] in hashes
      ensures monitored ==>
                exists n :: 0 <= n < |candidates| && candidates[n] in hashes && ra == hashes[candidates[n]]
                  && (forall m :: 0 <= m < n ==> candidates[m] !in hashes)
      ensures !monitored ==> ra == NoAddress
    {
      var n := 0;
      while n < |candidates|
        invariant 0 <= n <= |candidates|
        invariant forall k :: 0 <= k < n ==> candidates[k] !in hashes
      {
        if candidates[n] in hashes {
          return true, hashes[candidates[n]];
        }
        n := n + 1;
      }
      return false, NoAddress;
    }
  }

  // ----- one entry at a time -----

  /** An object keeps standing for an entry whose slot and identity did not change. */
  lemma RepresentsKept(a: Address, ix: IndexState, later: IndexState, ref: AddressRef)
    requires a.Represents(ix, ref)
    requires ValidRef(later, ref) && SlotOf(later, ref) == SlotOf(ix, ref) && InfoOf(later, ref) == InfoOf(ix, ref)
    ensures a.Represents(later, ref)
  {
  }

  lemma OwnerKey(ix: IndexState, key: PublicKey)
    requires OwnerOf(ix, key).Some?
    ensures KeyBehind(ix.wallet, OwnerOf(ix, key).value) == key && ValidRef(ix, OwnerOf(ix, key).value)
  {
  }

  /** Registering `pk` leaves the entry of every other key alone. */
  lemma DerivedKept(a: Address, ix: IndexState, pk: PublicKey, t: nat, i: nat, hash: Hash32, key: PublicKey, slot: Slot)
    requires key != pk && OwnerOf(ix, key).Some? && a.Represents(ix, OwnerOf(ix, key).value)
    ensures var later := WithDerived(ix, pk, t, i, hash, slot);
            OwnerOf(later, key) == OwnerOf(ix, key) && a.Represents(later, OwnerOf(ix, key).value)
  {
    OwnerKey(ix, key);
    RepresentsKept(a, ix, WithDerived(ix, pk, t, i, hash, slot), OwnerOf(ix, key).value);
  }

  /** A list that grows leaves every entry alone. */
  lemma ListedKept(a: Address, ix: IndexState, t: nat, key: PublicKey, slot: Slot)
    requires WellFormed(ix) && t < KEY_TYPE_COUNT
    requires OwnerOf(ix, key).Some? && a.Represents(ix, OwnerOf(ix, key).value)
    ensures var later := WithSlot(ix, t, slot);
            OwnerOf(later, key) == OwnerOf(ix, key) && a.Represents(later, OwnerOf(ix, key).value)
  {
    OwnerKey(ix, key);
    RepresentsKept(a, ix, WithSlot(ix, t, slot), OwnerOf(ix, key).value);
  }

  /** Changing the flags of `ref` leaves the owner of every key and all other entries alone. */
  lemma FlagsKept(a: Address, ix: IndexState, ref: AddressRef, slot: Slot, key: PublicKey)
    requires ValidRef(ix, ref) && OwnerOf(ix, key).Some? && a.Represents(ix, OwnerOf(ix, key).value)
    ensures var later := SetSlot(ix, ref, slot);
            && OwnerOf(later, key) == OwnerOf(ix, key)
            && (OwnerOf(ix, key) != Some(ref) ==> a.Represents(later, OwnerOf(ix, key).value))
  {
    OwnerKey(ix, key);
    if OwnerOf(ix, key) != Some(ref) {
      RepresentsKept(a, ix, SetSlot(ix, ref, slot), OwnerOf(ix, key).value);
    }
  }

  // ----- filing an entry -----

  lemma AlreadyMonitored(filed: AddressMap, hashes: map<Hash20, RawAddress>, h: Hash20, a: Address)
    requires Monitored(filed, hashes) && h in hashes && hashes[h] == a.address
    ensures Monitored(filed[h := a], hashes)
  {
  }

  lemma KeepMonitored(filed: AddressMap, hashes: map<Hash20, RawAddress>, h: Hash20, a: Address)
    requires Monitored(filed, hashes)
    ensures Monitored(filed[h := a], hashes[h := a.address])
  {
  }

  lemma WithDerivedShape(ix: IndexState, pk: PublicKey, t: nat, i: nat, hash: Hash32, slot: Slot)
    requires WellFormed(ix) && pk.NextPublicKey? && ValidRef(ix, Listed(t, i))
    ensures var later := WithDerived(ix, pk, t, i, hash, slot);
            WellFormed(later) && later.wallet == ix.wallet && later.gap == ix.gap
  {
  }

  lemma SlotRepresents(ix: IndexState, t: nat, a: Address, slot: Slot)
    requires WellFormed(ix) && t < KEY_TYPE_COUNT
    requires var i := |ix.lists[t]|;
             && a.address == StoredAddress(ix.wallet, Listed(t, i))
             && a.publicKey == (if slot.keyed then ChildKey(ix.wallet, t, i) else NoKey)
             && a.keyType == t && a.keyIndex == i && a.keyHash == None && a.used == slot.used && a.given == slot.given
    ensures a.Represents(WithSlot(ix, t, slot), Listed(t, |ix.lists[t]|))
    ensures WellFormed(WithSlot(ix, t, slot)) && WithSlot(ix, t, slot).wallet == ix.wallet && WithSlot(ix, t, slot).gap == ix.gap
  {
    WithSlotShape(ix, t, slot);
  }

  lemma FileListed(filed: AddressMap, ix: IndexState, t: nat, a: Address, slot: Slot)
    requires WellFormed(ix) && t < KEY_TYPE_COUNT && MapFiled(filed, ix)
    requires a.Represents(WithSlot(ix, t, slot), Listed(t, |ix.lists[t]|))
    ensures var h := Hash160(ChildKey(ix.wallet, t, |ix.lists[t]|));
            h !in filed && MapFiled(filed[h := a], WithSlot(ix, t, slot))
  {
    var key, later := ChildKey(ix.wallet, t, |ix.lists[t]|), WithSlot(ix, t, slot);
    WithSlotShape(ix, t, slot);
    assert OwnerOf(ix, key).None?;
    forall h | h in filed
      ensures OwnerOf(later, h.key) == OwnerOf(ix, h.key) && filed[h].Represents(later, OwnerOf(ix, h.key).value)
    {
      ListedKept(filed[h], ix, t, h.key, slot);
    }
    hide WithSlot, OwnerOf, WellFormed, Address.Represents;
  }

  lemma ShareListed(lists: seq<seq<Address>>, filed: AddressMap, ix: IndexState, t: nat, a: Address, slot: Slot)
    requires t < KEY_TYPE_COUNT && ListsShared(lists, filed, ix)
    requires Hash160(ChildKey(ix.wallet, t, |ix.lists[t]|)) !in filed
    ensures |lists[t]| == |ix.lists[t]|
    ensures var h := Hash160(ChildKey(ix.wallet, t, |ix.lists[t]|));
            ListsShared(lists[t := lists[t] + [a]], filed[h := a], WithSlot(ix, t, slot))
  {
  }

  /** Filing an independent key replaces at most its own entry. */
  lemma FileDerived(filed: AddressMap, ix: IndexState, pk: PublicKey, a: Address, slot: Slot)
    requires pk.NextPublicKey? && MapFiled(filed, ix)
    requires a.address == PayToKeyHash(Hash160(pk)) && a.publicKey == (if slot.keyed then pk else NoKey)
    requires a.keyHash.Some? && a.used == slot.used && a.given == slot.given
    ensures MapFiled(filed[Hash160(pk) := a], WithDerived(ix, pk, a.keyType, a.keyIndex, a.keyHash.value, slot))
  {
    var later := WithDerived(ix, pk, a.keyType, a.keyIndex, a.keyHash.value, slot);
    assert OwnerOf(later, pk) == Some(Registered(pk)) && a.Represents(later, Registered(pk));
    assert later.derived.Keys == ix.derived.Keys + {pk};
    forall h | h in filed && h.key != pk
      ensures OwnerOf(later, h.key) == OwnerOf(ix, h.key) && filed[h].Represents(later, OwnerOf(ix, h.key).value)
    {
      DerivedKept(filed[h], ix, pk, a.keyType, a.keyIndex, a.keyHash.value, h.key, slot);
    }
    hide WithDerived, OwnerOf, Address.Represents;
  }

  lemma ShareDerived(lists: seq<seq<Address>>, filed: AddressMap, ix: IndexState, pk: PublicKey, a: Address, t: nat, i: nat, hash: Hash32, slot: Slot)
    requires pk.NextPublicKey? && ListsShared(lists, filed, ix)
    ensures ListsShared(lists, filed[Hash160(pk) := a], WithDerived(ix, pk, t, i, hash, slot))
  {
  }

  // ----- changing flags -----

  lemma MarkUnfold(ix: IndexState, ref: AddressRef)
    requires WellFormed(ix) && ValidRef(ix, ref)
    ensures SlotOf(ix, ref).used ==> Mark(ix, ref) == ix
    ensures !SlotOf(ix, ref).used ==>
              var marked := SetSlot(ix, ref, SlotOf(ix, ref).(used := true));
              && WellFormed(marked)
              && Mark(ix, ref) == if Triggers(ix, ref) then Scan(marked, InfoOf(ix, ref).keyType) else marked
  {
    SetUsedExtends(ix, ref);
  }

  lemma SetSlotShape(ix: IndexState, ref: AddressRef, slot: Slot)
    requires WellFormed(ix) && ValidRef(ix, ref)
    ensures var later := SetSlot(ix, ref, slot);
            && WellFormed(later) && later.wallet == ix.wallet && later.gap == ix.gap
            && later.derived.Keys == ix.derived.Keys && |later.lists| == KEY_TYPE_COUNT
            && (forall t :: 0 <= t < KEY_TYPE_COUNT ==> |later.lists[t]| == |ix.lists[t]|)
            && (slot.keyed == SlotOf(ix, ref).keyed ==> InfoOf(later, ref) == InfoOf(ix, ref))
  {
    var later := SetSlot(ix, ref, slot);
    assert forall t :: 0 <= t < KEY_TYPE_COUNT ==> |later.lists[t]| == |ix.lists[t]|;
  }

  /** Before the flags of `a` change, every other entry already fits the new state. */
  lemma SetSlotFiled(filed: AddressMap, ix: IndexState, ref: AddressRef, slot: Slot, a: Address)
    requires WellFormed(ix) && MapFiled(filed, ix) && ValidRef(ix, ref)
    requires var h := Hash160(KeyBehind(ix.wallet, ref)); h in filed && filed[h] == a
    ensures FiledExcept(filed, SetSlot(ix, ref, slot), ref, a)
  {
    hide SetSlot, WellFormed, OwnerOf, Address.Represents;
    var later := SetSlot(ix, ref, slot);
    SetSlotShape(ix, ref, slot);
    OwnerBehind(ix, ref);
    forall h | h in filed
      ensures OwnerOf(later, h.key) == OwnerOf(ix, h.key)
      ensures filed[h] == a ==> OwnerOf(ix, h.key) == Some(ref)
      ensures filed[h] != a ==> filed[h].Represents(later, OwnerOf(ix, h.key).value)
    {
      FlagsKept(filed[h], ix, ref, slot, h.key);
      OwnerKey(ix, h.key);
      if filed[h] == a {
        RepresentsOne(a, ix, OwnerOf(ix, h.key).value, ref);
      }
    }
  }

  lemma OwnerBehind(ix: IndexState, ref: AddressRef)
    requires WellFormed(ix) && ValidRef(ix, ref)
    ensures OwnerOf(ix, KeyBehind(ix.wallet, ref)) == Some(ref)
  {
  }

  /** With its new flags, `a` fits as well. */
  lemma FiledAgain(filed: AddressMap, later: IndexState, ref: AddressRef, a: Address)
    requires FiledExcept(filed, later, ref, a) && a.Represents(later, ref)
    ensures MapFiled(filed, later)
  {
    hide OwnerOf, Address.Represents;
  }

  lemma ShareSlots(lists: seq<seq<Address>>, filed: AddressMap, ix: IndexState, ref: AddressRef, slot: Slot)
    requires WellFormed(ix) && ValidRef(ix, ref) && ListsShared(lists, filed, ix)
    ensures ListsShared(lists, filed, SetSlot(ix, ref, slot))
  {
    SetSlotShape(ix, ref, slot);
    hide SetSlot, WellFormed;
  }

  function WithSlot(ix: IndexState, t: nat, slot: Slot): IndexState
    requires t < |ix.lists|
  {
    ix.(lists := ix.lists[t := ix.lists[t] + [slot]])
  }

  function WithDerived(ix: IndexState, key: PublicKey, t: nat, i: nat, hash: Hash32, slot: Slot): IndexState {
    ix.(derived := ix.derived[key := DerivedSlot(t, i, hash, slot)])
  }

  lemma AddKeyIs(ix: IndexState, key: PublicKey, t: nat, i: nat, hash: Hash32)
    ensures AddKey(ix, key, t, i, hash) == WithDerived(ix, key, t, i, hash, FreshSlot)
  {
  }

  lemma WithSlotShape(ix: IndexState, t: nat, slot: Slot)
    requires WellFormed(ix) && t < KEY_TYPE_COUNT
    ensures var r := WithSlot(ix, t, slot);
            && WellFormed(r) && r.wallet == ix.wallet && r.gap == ix.gap && r.derived == ix.derived
            && (forall o :: 0 <= o < KEY_TYPE_COUNT ==>
                  |r.lists[o]| == if o == t then |ix.lists[o]| + 1 else |ix.lists[o]|)
    ensures OwnerOf(WithSlot(ix, t, slot), ChildKey(ix.wallet, t, |ix.lists[t]|)) == Some(Listed(t, |ix.lists[t]|))
  {
  }

  /** The index while Prepare runs: the first `t` lists have their gap. */
  function PreparedUpTo(wallet: nat, gap: nat, t: nat): IndexState {
    IndexState(wallet, gap, seq(KEY_TYPE_COUNT, o => if o < t then FreshSlots(gap) else []), map[])
  }

  lemma PreparedEnds(wallet: nat, gap: nat)
    ensures PreparedUpTo(wallet, gap, KEY_TYPE_COUNT) == Prepared(wallet, gap)
  {
  }

  lemma PreparedOnce(wallet: nat, gap: nat, t: nat)
    requires t < KEY_TYPE_COUNT
    ensures Scan(PreparedUpTo(wallet, gap, t), t) == PreparedUpTo(wallet, gap, t + 1)
  {
    assert UsedBound([]) == 0;
    assert ScanList([], gap) == FreshSlots(gap);
  }

  lemma ScanIdle(ix: IndexState, t: nat)
    requires t < |ix.lists|
    ensures UsedBound(ix.lists[t]) + ix.gap <= |ix.lists[t]| ==> Scan(ix, t) == ix
  {
    assert ix.lists[t := ix.lists[t]] == ix.lists;
  }

  /** `n` turns of the loop in forwardScan. */
  ghost function Lengthen(ix: IndexState, t: nat, n: nat): (r: IndexState)
    requires t < |ix.lists|
    ensures |r.lists| == |ix.lists|
  {
    if n == 0 then ix else WithSlot(Lengthen(ix, t, n - 1), t, FreshSlot)
  }

  lemma LengthenStart(ix: IndexState, t: nat)
    requires t < |ix.lists|
    ensures Lengthen(ix, t, 0) == ix
  {
  }

  lemma LengthenOnce(ix: IndexState, t: nat, n: nat)
    requires t < |ix.lists|
    ensures Lengthen(ix, t, n + 1) == WithSlot(Lengthen(ix, t, n), t, FreshSlot)
  {
  }

  lemma {:induction false} LengthenIs(ix: IndexState, t: nat, n: nat)
    requires t < |ix.lists|
    ensures Lengthen(ix, t, n) == ix.(lists := ix.lists[t := ix.lists[t] + FreshSlots(n)])
  {
    if n == 0 {
      assert ix.lists[t] + FreshSlots(0) == ix.lists[t];
      assert ix.lists[t := ix.lists[t]] == ix.lists;
    } else {
      LengthenIs(ix, t, n - 1);
      assert ix.lists[t] + FreshSlots(n - 1) + [FreshSlot] == ix.lists[t] + FreshSlots(n);
    }
  }

  lemma LengthenIsScan(ix: IndexState, t: nat, n: nat)
    requires t < |ix.lists| && |ix.lists[t]| + n == UsedBound(ix.lists[t]) + ix.gap && n > 0
    ensures Lengthen(ix, t, n) == Scan(ix, t)
  {
    LengthenIs(ix, t, n);
  }

  /** What the backward count of forwardScan finds. */
  lemma TailCount(slots: seq<Slot>, gap: nat, unused: nat)
    requires unused <= |slots| && unused <= gap
    requires forall k :: |slots| - unused <= k < |slots| ==> !slots[k].used
    requires unused < gap && unused < |slots| ==> slots[|slots| - unused - 1].used
    ensures unused >= gap <==> UsedBound(slots) + gap <= |slots|
    ensures unused < gap ==> unused == |slots| - UsedBound(slots)
  {
    if unused < gap {
      UsedBoundUnique(slots, |slots| - unused);
    }
  }
}
