/**
 The relationships of internal/relationships as objects: chains that advance in place, the search for
 the relationship of a transaction, and the messages that are sent and processed.
 */
module RelationshipManager {
  import opened Results
  import opened Bitcoin
  import opened AddressSpec
  import opened AddressIndexes
  import opened LedgerSpec
  import opened Wallets
  import opened Ratchet
  import opened RatchetLaws

  class Member {
    ghost const home: object
    const baseKey: PublicKey
    var nextHash: Hash32
    var nextIndex: nat
    var accepted: bool
    var nextKey: PublicKey

    constructor (ghost home: object, key: PublicKey, hash: Hash32)
      ensures this.home == home
      ensures State() == MemberState(key, hash, 1, false, NextPublicKey(key, hash))
    {
      this.home, baseKey := home, key;
      nextHash, nextIndex, accepted, nextKey := hash, 1, false, NextPublicKey(key, hash);
    }

    function State(): MemberState
      reads this
    {
      MemberState(baseKey, nextHash, nextIndex, accepted, nextKey)
    }

    method IncrementHash()
      modifies this
      ensures State() == AdvanceMember(old(State()))
    {
      nextHash := NextHash(nextHash);
      nextIndex := nextIndex + 1;
      nextKey := NextPublicKey(baseKey, nextHash);
    }

    /** The smallest chain position in the window whose derived key is the one looked for. */
    method FindKey(publicKey: PublicKey, seed: Bytes) returns (found: Option<(Hash32, nat)>)
      ensures found == WithHash(seed, FindMemberKey(State(), seed, publicKey))
    {
      found := SearchWindow(baseKey, seed, publicKey, nextIndex + WINDOW);
    }
  }

  function WithHash(seed: Bytes, position: Option<nat>): Option<(Hash32, nat)>
    requires position.Some? ==> position.value >= 1
  {
    match position
    case Some(i) => Some((Chain(seed, i), i))
    case None => None
  }

  /** The loop of both FindKey functions: walk the chain from the hash of the seed. */
  method SearchWindow(base: PublicKey, seed: Bytes, publicKey: PublicKey, limit: nat) returns (found: Option<(Hash32, nat)>)
    ensures found == WithHash(seed, SearchChain(base, seed, publicKey, 1, limit))
  {
    var h := Sha256(seed);
    var i := 1;
    while i < limit
      invariant i >= 1 && h == Chain(seed, i)
      invariant SearchChain(base, seed, publicKey, i, limit) == SearchChain(base, seed, publicKey, 1, limit)
    {
      if NextPublicKey(base, h) == publicKey {
        return Some((h, i));
      }
      h := NextHash(h);
      i := i + 1;
    }
    return None;
  }

  class Relationship {
    var txId: Hash32
    var keyType: nat
    var keyIndex: nat
    var nextHash: Hash32
    var nextIndex: nat
    var seed: Bytes
    var flag: Bytes
    var encryptionType: nat
    var encryptionKey: Hash32
    var accepted: bool
    var members: seq<Member>
    var nextKey: PublicKey

    /** At position 1 of the chain of a seed, without members or a key of our own yet. */
    constructor (txId: Hash32, seed: Bytes, flag: Bytes, encryptionType: nat, encryptionKey: Hash32, accepted: bool)
      ensures Valid() && members == []
      ensures State() == RelationshipState(txId, 0, 0, Sha256(seed), 1, seed, flag, encryptionType, encryptionKey,
                                           accepted, [], NoKey)
    {
      this.txId, keyType, keyIndex, nextHash, nextIndex := txId, 0, 0, Sha256(seed), 1;
      this.seed, this.flag, this.encryptionType := seed, flag, encryptionType;
      this.encryptionKey, this.accepted, members, nextKey := encryptionKey, accepted, [], NoKey;
    }

    /** No member object is shared, neither within a relationship nor between two. */
    ghost predicate Valid()
      reads this`members
    {
      && (forall i :: 0 <= i < |members| ==> members[i].home == this)
      && (forall i, k :: 0 <= i < k < |members| ==> members[i] != members[k])
    }

    /** Everything but the members. */
    ghost function Core(): RelationshipState
      reads this
    {
      RelationshipState(txId, keyType, keyIndex, nextHash, nextIndex, seed, flag, encryptionType, encryptionKey,
                        accepted, [], nextKey)
    }

    ghost function State(): RelationshipState
      reads this, members
    {
      Core().(members := StatesOf(members))
    }

    method IncrementHash(index: AddressIndex)
      requires index.Valid() && ValidRef(index.state, Listed(keyType, keyIndex))
      modifies this`nextHash, this`nextIndex, this`nextKey, index
      ensures index.Valid() && fresh(index.repr - old(index.repr))
      ensures State() == AdvanceRelationship(old(State()), index.wallet)
      ensures var r := State(); index.state == AddKey(old(index.state), r.nextKey, r.keyType, r.keyIndex, r.nextHash)
    {
      hide AddressIndex.Valid, AddKey, StatesOf;
      nextHash := NextHash(nextHash);
      nextIndex := nextIndex + 1;
      nextKey := NextPublicKey(PublicOf(index.GetKey(keyType, keyIndex)), nextHash);
      index.AddIndependentKey(nextKey, keyType, keyIndex, nextHash);
    }

    /** The smallest position of our own chain in the window whose derived key is the one looked for. */
    method FindKey(baseKey: PublicKey, publicKey: PublicKey) returns (found: Option<(Hash32, nat)>)
      ensures found == WithHash(seed, SearchChain(baseKey, seed, publicKey, 1, nextIndex + WINDOW))
    {
      found := SearchWindow(baseKey, seed, publicKey, nextIndex + WINDOW);
    }

    /** Advance the first member that expects this key, if there is one. */
    method AdvanceKey(key: PublicKey) returns (found: Option<nat>)
      requires Valid()
      modifies members
      ensures found == FirstByNextKey(old(State()).members, key)
      ensures State() == old(State()).(members := AdvanceFirst(old(State()).members, key))
    {
      hide AdvanceMember, FirstByNextKey;
      ghost var before := StatesOf(members);
      for k := 0 to |members|
        invariant StatesOf(members) == before
        invariant forall i :: 0 <= i < k ==> before[i].nextKey != key
      {
        if key == members[k].nextKey {
          FirstIs(before, key, k);
          members[k].IncrementHash();
          assert StatesOf(members) == before[k := AdvanceMember(before[k])];
          return Some(k);
        }
      }
      assert FirstByNextKey(before, key).None?;
      return None;
    }

    method AcceptMember(m: nat)
      requires Valid() && m < |members|
      modifies members
      ensures State() == var ms := old(State()).members; old(State()).(members := ms[m := ms[m].(accepted := true)])
    {
      ghost var before := StatesOf(members);
      members[m].accepted := true;
      assert StatesOf(members) == before[m := before[m].(accepted := true)];
    }

    /** The loop after a direct send: every member advances. */
    method AdvanceAll()
      requires Valid()
      modifies members
      ensures State() == old(State()).(members := AdvanceMembers(old(State()).members))
    {
      for k := 0 to |members|
        invariant forall i :: 0 <= i < |members| ==>
                    members[i].State() == if i < k then AdvanceMember(old(members[i].State())) else old(members[i].State())
      {
        members[k].IncrementHash();
      }
    }
  }

  lemma FirstIs(ms: seq<MemberState>, key: PublicKey, k: nat)
    requires k < |ms| && ms[k].nextKey == key && forall i :: 0 <= i < k ==> ms[i].nextKey != key
    ensures FirstByNextKey(ms, key) == Some(k)
  {
    assert FirstByNextKey(ms, key).Some?;
  }

  ghost function StatesOf(members: seq<Member>): (r: seq<MemberState>)
    reads members
    ensures |r| == |members|
    ensures forall i :: 0 <= i < |r| ==> r[i] == members[i].State()
  {
    seq(|members|, i requires 0 <= i < |members| reads members => members[i].State())
  }

  ghost function MemberSet(r: Relationship): set<Member>
    reads r`members
  {
    set m | m in r.members
  }

  // ----- the stored relationships -----

  /** Distinct relationship objects, whose members are all in `own`. */
  ghost predicate Separate(list: seq<Relationship>, own: set<Member>)
    reads list`members
  {
    && (forall i, k :: 0 <= i < k < |list| ==> list[i] != list[k])
    && (forall i :: 0 <= i < |list| ==> list[i].Valid())
    && (forall i, m :: 0 <= i < |list| && m in list[i].members ==> m in own)
  }

  ghost predicate AllListed(list: seq<Relationship>, ix: IndexState)
    reads list`keyType, list`keyIndex
  {
    forall i :: 0 <= i < |list| ==> ValidRef(ix, Listed(list[i].keyType, list[i].keyIndex))
  }

  /** The relationship objects hold these states. */
  ghost predicate Shows(list: seq<Relationship>, own: set<Member>, states: seq<RelationshipState>)
    requires Separate(list, own)
    reads list, own
  {
    && |states| == |list|
    && forall i :: 0 <= i < |list| ==> list[i].State() == states[i]
  }

  lemma AddKeyListed(list: seq<Relationship>, ix: IndexState)
    requires AllListed(list, ix)
    ensures forall key, t, i, hash :: AllListed(list, AddKey(ix, key, t, i, hash))
  {
  }

  /** The relationship at a position of the list, or none. */
  ghost predicate Tracks(list: seq<Relationship>, r: Relationship?, at: Option<nat>) {
    if at.None? then r == null else at.value < |list| && list[at.value] == r
  }

  ghost function ResultOf(e: Option<Failure>, p: Party, at: Option<nat>, areSender: bool): ScanResult {
    if e.None? then Scanned(Scan(p, at, areSender)) else ScanFailed(p, e.value)
  }

  /** The answer of a search; a panic ends the program, so it says nothing of the state. */
  ghost predicate Reports(m: MatchResult, p: Party, at: Option<nat>, areSender: bool, memberIndex: nat, e: Option<Failure>) {
    match m
    case Matched(q, j, s, i) => e.None? && p == q && at == Some(j) && areSender == s && memberIndex == i
    case Unmatched(q, f) => e == Some(f) && (f != OutputPanic ==> p == q)
  }

  class Relationships {
    const index: AddressIndex
    var list: seq<Relationship>
    ghost var own: set<Member>
    ghost var states: seq<RelationshipState>

    ghost predicate Valid()
      reads this, list, own, index, index.repr
    {
      && index.Valid()
      && Separate(list, own) && Shows(list, own, states)
      && AllListed(list, index.state)
    }

    ghost function Parties(): Party
      reads this, index
    {
      Party(index.state, states)
    }

    constructor (index: AddressIndex)
      requires index.Valid()
      ensures Valid() && this.index == index && Parties() == Party(index.state, [])
    {
      this.index, list, own, states := index, [], {}, [];
    }

    method GetRelationship(keyType: nat, keyIndex: nat) returns (r: Relationship?, ghost at: Option<nat>)
      requires Valid()
      ensures Tracks(list, r, at) && at == FirstByKey(Parties().relationships, keyType, keyIndex)
      ensures r != null ==> r in list && r.keyType == keyType && r.keyIndex == keyIndex
      ensures r == null ==> forall k :: 0 <= k < |list| ==> !(list[k].keyType == keyType && list[k].keyIndex == keyIndex)
    {
      hide FirstByKey, AddressIndex.Valid;
      ghost var rs := Parties().relationships;
      for k := 0 to |list|
        invariant forall i :: 0 <= i < k ==> !(rs[i].keyType == keyType && rs[i].keyIndex == keyIndex)
        invariant forall i :: 0 <= i < k ==> !(list[i].keyType == keyType && list[i].keyIndex == keyIndex)
      {
        assert rs[k] == list[k].State();
        if list[k].keyType == keyType && list[k].keyIndex == keyIndex {
          FirstByKeyIs(rs, keyType, keyIndex, k);
          return list[k], Some(k);
        }
      }
      assert FirstByKey(rs, keyType, keyIndex).None?;
      return null, None;
    }

    method FindRelationshipForFlag(flag: Bytes) returns (r: Relationship?, ghost at: Option<nat>)
      requires Valid()
      ensures Tracks(list, r, at) && at == FirstByFlag(Parties().relationships, flag)
      ensures r != null ==> r in list && r.flag == flag
      ensures r == null ==> forall k :: 0 <= k < |list| ==> list[k].flag != flag
    {
      hide FirstByFlag, AddressIndex.Valid;
      ghost var rs := Parties().relationships;
      for k := 0 to |list|
        invariant forall i :: 0 <= i < k ==> rs[i].flag != flag && list[i].flag != flag
      {
        assert rs[k] == list[k].State();
        if list[k].flag == flag {
          FirstByFlagIs(rs, flag, k);
          return list[k], Some(k);
        }
      }
      assert FirstByFlag(rs, flag).None?;
      return null, None;
    }

    /** The entry of an address, if it is one of our relationship keys. */
    method RelateAddress(ra: RawAddress) returns (info: Option<AddressInfo>)
      requires Valid()
      ensures info == RelateEntry(index.state, ra)
    {
      var ad, known := index.FindAddress(ra);
      if ad == null {
        return None;
      }
      index.HoldsRepresents(ad, Lookup(index.state, ra).ref);
      hide AddressIndex.Valid, Separate, AllListed, Lookup;
      if ad.keyType == KEY_TYPE_RELATE_IN || ad.keyType == KEY_TYPE_RELATE_OUT {
        return Some(AddressInfo(ad.address, ad.publicKey, ad.keyType, ad.keyIndex, ad.keyHash));
      }
      return None;
    }

    /** Advance our own chain of the relationship at `j`. */
    method AdvanceOwnChain(r: Relationship, ghost j: nat)
      requires Valid() && j < |list| && list[j] == r
      modifies this`states, r, index
      ensures Valid() && Parties() == AdvanceOwn(old(Parties()), j)
      ensures fresh(index.repr - old(index.repr))
    {
      hide AddressIndex.Valid, Separate, AllListed, AddKey, WellFormed, StatesOf, Relationship.State;
      Ready(r, j);
      r.IncrementHash(index);
      states := states[j := r.State()];
    }

    /** What holds before the chain of `r` advances. */
    lemma Ready(r: Relationship, j: nat)
      requires Valid() && j < |list| && list[j] == r
      ensures index.state.wallet == index.wallet && ValidRef(index.state, Listed(r.keyType, r.keyIndex))
      ensures forall i :: 0 <= i < |list| && i != j ==> list[i] != list[j]
      ensures forall key, t, i, hash :: AllListed(list, AddKey(index.state, key, t, i, hash))
    {
      AddKeyListed(list, index.state);
    }

    // ----- GetRelationshipForTx -----

    /** The relationship an owned key belongs to: the one found so far, or the first with that key. */
    method ResolveKey(info: AddressInfo, r0: Relationship?, ghost at0: Option<nat>, ghost areSender: bool)
      returns (r: Relationship?, ghost at: Option<nat>, e: Option<Failure>)
      requires Valid() && Tracks(list, r0, at0)
      ensures Tracks(list, r, at) && (e.None? ==> at.Some?)
      ensures Resolve(Scan(Parties(), at0, areSender), info) == if e.None? then Ok(at.value) else Err(e.value)
    {
      hide AddressIndex.Valid, Separate, AllListed, WellFormed, StatesOf, FirstByKey;
      r, at, e := r0, at0, None;
      if r != null {
        if info.keyType != r.keyType || info.keyIndex != r.keyIndex {
          e := Some(WrongKey);
        }
      } else {
        r, at := GetRelationship(info.keyType, info.keyIndex);
        if r == null {
          e := Some(NotFound);
        }
      }
    }

    /** Advance our own chain when the key seen is the one expected next. */
    method AdvanceIfExpected(info: AddressInfo, r: Relationship, ghost j: nat)
      requires Valid() && Tracks(list, r, Some(j))
      modifies this`states, r, index
      ensures Valid() && Parties() == AdvanceIfNext(old(Parties()), j, info)
      ensures fresh(index.repr - old(index.repr))
    {
      hide AddressIndex.Valid, Separate, AllListed, WellFormed, StatesOf, AdvanceOwn;
      if info.publicKey == r.nextKey {
        AdvanceOwnChain(r, j);
      }
    }

    /** One sender index: an owned relationship key makes us the sender. */
    method SenderTurn(tx: Tx, i: nat, r0: Relationship?, ghost at0: Option<nat>, sender0: bool)
      returns (r: Relationship?, ghost at: Option<nat>, areSender: bool, e: Option<Failure>)
      requires Valid() && Tracks(list, r0, at0)
      modifies this`states, list, index
      ensures Valid() && list == old(list) && own == old(own) && fresh(index.repr - old(index.repr))
      ensures Tracks(list, r, at)
      ensures ResultOf(e, Parties(), at, areSender) == Ratchet.SenderTurn(Scan(old(Parties()), at0, sender0), tx, i)
    {
      hide AddressIndex.Valid, Separate, AllListed, WellFormed, StatesOf, AdvanceIfNext, Resolve, RelateEntry, Valid, Shows;
      Tracked(r0, at0);
      r, at, areSender, e := r0, at0, sender0, None;
      if i >= |tx.inputs| {
        e := Some(SenderOutOfRange);
        return;
      }
      var key := UnlockingKey(tx.inputs[i]);
      if key.None? {
        e := Some(NoSenderKey);
        return;
      }
      var info := RelateAddress(PayToKeyHash(Hash160(key.value)));
      if info.Some? {
        r, at, e := ResolveKey(info.value, r0, at0, sender0);
        if e.None? {
          areSender := true;
          AdvanceIfExpected(info.value, r, at.value);
        }
      }
    }

    lemma Tracked(r: Relationship?, at: Option<nat>)
      requires Valid() && Tracks(list, r, at)
      ensures |states| == |list| && (r != null ==> r in list)
    {
    }

    /** One receiver index: an owned relationship key advances us only when it finds the relationship. */
    method ReceiverTurn(tx: Tx, i: nat, r0: Relationship?, ghost at0: Option<nat>, ghost areSender: bool)
      returns (r: Relationship?, ghost at: Option<nat>, e: Option<Failure>)
      requires Valid() && Tracks(list, r0, at0)
      modifies this`states, list, index
      ensures Valid() && list == old(list) && own == old(own) && fresh(index.repr - old(index.repr))
      ensures Tracks(list, r, at)
      ensures ResultOf(e, Parties(), at, areSender) == Ratchet.ReceiverTurn(Scan(old(Parties()), at0, areSender), tx, i)
    {
      hide AddressIndex.Valid, Separate, AllListed, WellFormed, StatesOf, AdvanceIfNext, Resolve, RelateEntry, Valid, Shows;
      Tracked(r0, at0);
      r, at, e := r0, at0, None;
      if i >= |tx.outputs| {
        e := Some(ReceiverOutOfRange);
        return;
      }
      var info := RelateAddress(AddressOf(tx.outputs[i].script));
      if info.Some? {
        r, at, e := ResolveKey(info.value, r0, at0, areSender);
        if e.None? && r0 == null {
          AdvanceIfExpected(info.value, r, at.value);
        }
        ResolveFound(Scan(old(Parties()), at0, areSender), info.value);
      }
    }

    /** The sender loop. */
    method LoopSenders(tx: Tx, senders: seq<nat>, r0: Relationship?, ghost at0: Option<nat>)
      returns (r: Relationship?, ghost at: Option<nat>, areSender: bool, e: Option<Failure>)
      requires Valid() && Tracks(list, r0, at0)
      modifies this`states, list, index
      ensures Valid() && list == old(list) && own == old(own) && fresh(index.repr - old(index.repr))
      ensures Tracks(list, r, at)
      ensures ResultOf(e, Parties(), at, areSender) == ScanSenders(Scan(old(Parties()), at0, false), tx, senders)
    {
      hide AddressIndex.Valid, Separate, AllListed, WellFormed, StatesOf, Valid, Shows, Ratchet.SenderTurn;
      r, at, areSender, e := r0, at0, false, None;
      Tracked(r, at);
      for k := 0 to |senders|
        invariant Valid() && list == old(list) && own == old(own) && fresh(index.repr - old(index.repr))
        invariant Tracks(list, r, at) && |states| == |list| && e.None?
        invariant ScanSenders(Scan(Parties(), at, areSender), tx, senders[k..]) ==
                  ScanSenders(Scan(old(Parties()), at0, false), tx, senders)
      {
        assert senders[k..][1..] == senders[k + 1..];
        r, at, areSender, e := SenderTurn(tx, senders[k], r, at, areSender);
        if e.Some? {
          return;
        }
        Tracked(r, at);
      }
    }

    /** The receiver loop, which runs when we are not the sender. */
    method LoopReceivers(tx: Tx, receivers: seq<nat>, r0: Relationship?, ghost at0: Option<nat>)
      returns (r: Relationship?, ghost at: Option<nat>, e: Option<Failure>)
      requires Valid() && Tracks(list, r0, at0)
      modifies this`states, list, index
      ensures Valid() && list == old(list) && own == old(own) && fresh(index.repr - old(index.repr))
      ensures Tracks(list, r, at)
      ensures ResultOf(e, Parties(), at, false) == ScanReceivers(Scan(old(Parties()), at0, false), tx, receivers)
    {
      hide AddressIndex.Valid, Separate, AllListed, WellFormed, StatesOf, Valid, Shows, Ratchet.ReceiverTurn;
      r, at, e := r0, at0, None;
      Tracked(r, at);
      for k := 0 to |receivers|
        invariant Valid() && list == old(list) && own == old(own) && fresh(index.repr - old(index.repr))
        invariant Tracks(list, r, at) && |states| == |list| && e.None?
        invariant ScanReceivers(Scan(Parties(), at, false), tx, receivers[k..]) ==
                  ScanReceivers(Scan(old(Parties()), at0, false), tx, receivers)
      {
        assert receivers[k..][1..] == receivers[k + 1..];
        r, at, e := ReceiverTurn(tx, receivers[k], r, at, false);
        if e.Some? {
          return;
        }
        Tracked(r, at);
      }
    }

    /** Advance the member of `r` that expects this key. */
    method AdvanceMemberKey(r: Relationship, ghost j: nat, key: PublicKey) returns (found: Option<nat>)
      requires Valid() && Tracks(list, r, Some(j))
      modifies this`states, r.members
      ensures Valid()
      ensures found == FirstByNextKey(old(states)[j].members, key)
      ensures j < |old(states)|
      ensures Parties() == WithMembers(old(Parties()), j, AdvanceFirst(old(states)[j].members, key))
    {
      hide AddressIndex.Valid, Relationship.State, AdvanceFirst, FirstByNextKey;
      MembersApart(j);
      found := r.AdvanceKey(key);
      states := states[j := r.State()];
    }

    lemma MembersApart(j: nat)
      requires Valid() && j < |list|
      ensures |states| == |list| && list[j].Valid() && list[j].State() == states[j]
      ensures forall i, m :: 0 <= i < |list| && i != j && m in list[i].members ==> m !in list[j].members
      ensures forall m :: m in list[j].members ==> m in own
    {
      forall i, m | 0 <= i < |list| && i != j && m in list[i].members ensures m !in list[j].members {
        assert list[i].Valid() && list[j].Valid();
      }
    }

    /** The members that sent the transaction advance; the last one found is its sender. */
    method SeeSenderKeys(r: Relationship, ghost j: nat, tx: Tx, senders: seq<nat>, areSender: bool)
      returns (memberIndex: nat)
      requires Valid() && Tracks(list, r, Some(j))
      requires forall k :: 0 <= k < |senders| ==> senders[k] < |tx.inputs| && UnlockingKey(tx.inputs[senders[k]]).Some?
      modifies this`states, own
      ensures Valid() && j < |old(states)|
      ensures var seen := SeeSenders(old(states)[j].members, 0, areSender, tx, senders);
              Parties() == WithMembers(old(Parties()), j, seen.0) && memberIndex == seen.1
    {
      hide AddressIndex.Valid, Separate, AllListed, WellFormed, StatesOf, AdvanceFirst, FirstByNextKey, Valid, Shows;
      MembersApart(j);
      WithSameMembers(Parties(), j);
      memberIndex := 0;
      ghost var p := Parties();
      for k := 0 to |senders|
        invariant Valid() && |states| == |list| == |p.relationships|
        invariant Parties() == WithMembers(p, j, states[j].members)
        invariant SeeSenders(states[j].members, memberIndex, areSender, tx, senders[k..]) ==
                  SeeSenders(p.relationships[j].members, 0, areSender, tx, senders)
      {
        assert senders[k..][1..] == senders[k + 1..];
        MembersApart(j);
        var found := AdvanceMemberKey(r, j, UnlockingKey(tx.inputs[senders[k]]).value);
        if found.Some? && !areSender {
          memberIndex := found.value;
        }
      }
    }

    /** The members whose expected keys are paid advance; an output index out of range is a panic. */
    method SeeReceiverKeys(r: Relationship, ghost j: nat, tx: Tx, receivers: seq<nat>) returns (inRange: bool)
      requires Valid() && Tracks(list, r, Some(j))
      modifies this`states, own
      ensures Valid() && j < |old(states)|
      ensures var seen := SeeReceivers(old(states)[j].members, tx, receivers);
              inRange == seen.Some? && (seen.Some? ==> Parties() == WithMembers(old(Parties()), j, seen.value))
    {
      hide AddressIndex.Valid, Separate, AllListed, WellFormed, StatesOf, AdvanceFirst, FirstByNextKey, Valid, Shows;
      MembersApart(j);
      WithSameMembers(Parties(), j);
      ghost var p := Parties();
      for k := 0 to |receivers|
        invariant Valid() && |states| == |list| == |p.relationships|
        invariant Parties() == WithMembers(p, j, states[j].members)
        invariant SeeReceivers(states[j].members, tx, receivers[k..]) ==
                  SeeReceivers(p.relationships[j].members, tx, receivers)
      {
        assert receivers[k..][1..] == receivers[k + 1..];
        if receivers[k] >= |tx.outputs| {
          return false;
        }
        var ra := AddressOf(tx.outputs[receivers[k]].script);
        if ra.PayToKey? {
          MembersApart(j);
          var found := AdvanceMemberKey(r, j, ra.key);
        }
      }
      return true;
    }

    /** The part of GetRelationshipForTx after the relationship is found. */
    method AdvanceSeen(r: Relationship, ghost j: nat, tx: Tx, senders: seq<nat>, receivers: seq<nat>, areSender: bool)
      returns (memberIndex: nat, e: Option<Failure>)
      requires Valid() && Tracks(list, r, Some(j))
      requires forall k :: 0 <= k < |senders| ==> senders[k] < |tx.inputs| && UnlockingKey(tx.inputs[senders[k]]).Some?
      modifies this`states, own
      ensures Valid() && j < |old(states)|
      ensures Reports(AdvanceMatched(Scan(old(Parties()), Some(j), areSender), tx, senders, receivers), Parties(),
                      Some(j), areSender, memberIndex, e)
    {
      hide AddressIndex.Valid, SeeSenders, SeeReceivers, Valid;
      MembersApart(j);
      ghost var p := Parties();
      memberIndex := SeeSenderKeys(r, j, tx, senders, areSender);
      ghost var q := Parties();
      var inRange := SeeReceiverKeys(r, j, tx, receivers);
      e := if inRange then None else Some(OutputPanic);
      MembersTwice(p, j, q.relationships[j].members);
    }

    /** GetRelationshipForTx does what the specification says, on the objects themselves. */
    method GetRelationshipForTx(tx: Tx, senderIndexes: seq<nat>, receiverIndexes: seq<nat>, flag: Bytes)
      returns (r: Relationship?, areSender: bool, memberIndex: nat, e: Option<Failure>, ghost at: Option<nat>)
      requires Valid()
      modifies this`states, list, own, index
      ensures Valid() && list == old(list) && own == old(own) && fresh(index.repr - old(index.repr))
      ensures Tracks(list, r, at)
      ensures Reports(MatchTx(old(Parties()), tx, senderIndexes, receiverIndexes, flag), Parties(), at, areSender, memberIndex, e)
    {
      hide AddressIndex.Valid, Valid, ScanSenders, ScanReceivers, SeeSenders, SeeReceivers, FirstByFlag, WithMembers;
      r, at, memberIndex := null, None, 0;
      if |flag| > 0 {
        r, at := FindRelationshipForFlag(flag);
      }
      var senders := if senderIndexes == [] then [0] else senderIndexes;
      var receivers := if receiverIndexes == [] then [0] else receiverIndexes;
      r, at, areSender, e := LoopSenders(tx, senders, r, at);
      if e.Some? {
        return;
      }
      if !areSender {
        r, at, e := LoopReceivers(tx, receivers, r, at);
        if e.Some? {
          return;
        }
      }
      if r == null {
        e := Some(NotFound);
        return;
      }
      memberIndex, e := AdvanceSeen(r, at.value, tx, senders, receivers, areSender);
    }
  }

  ghost function Objects(rs: Relationships): set<Relationship>
    reads rs
  {
    set r | r in rs.list
  }

  lemma MembersTwice(p: Party, j: nat, ms: seq<MemberState>)
    requires j < |p.relationships|
    ensures forall seen :: WithMembers(WithMembers(p, j, ms), j, seen) == WithMembers(p, j, seen)
    ensures WithMembers(p, j, ms).relationships[j].members == ms
  {
  }

  /** A relationship found before stays the one found. */
  lemma ResolveFound(s: Scan, info: AddressInfo)
    requires ValidScan(s)
    ensures Resolve(s, info).Ok? && s.found.Some? ==> s.found == Some(Resolve(s, info).value)
  {
  }
}
