/**
 Initiating a relationship and joining one, on the stored objects: the loops of initiate.go that build
 the members and register our key. The values they leave are those of Initiate.dfy.
 */
module Initiating {
  import opened Results
  import opened Bitcoin
  import opened AddressSpec
  import opened LedgerSpec
  import opened LedgerRun
  import opened AddressIndexes
  import opened Ledgers
  import opened Wallets
  import opened Signing
  import opened FundingSpec
  import opened Funding
  import opened Ratchet
  import opened RatchetLaws
  import opened RelationshipManager
  import opened Messages
  import opened Initiate
  import opened UniqueKeys
  import S = MessageSending

  // ----- ProcessInitiateRelationship -----

  /** The relationship under construction: our key, if found, and the members so far. */
  function Building(base: RelationshipState, b: Joining): RelationshipState {
    var r := base.(members := b.members, nextKey := b.nextKey);
    if b.own.Some? then r.(keyType := b.own.value.keyType, keyIndex := b.own.value.keyIndex) else r
  }

  ghost predicate Builds(rs: Relationships, r: Relationship, base: RelationshipState, b: Joining)
    reads rs, rs.list, rs.own, rs.index, rs.index.repr, r, r.members
  {
    && rs.Valid() && r.Valid() && r !in rs.list
    && rs.index.state == b.index && r.State() == Building(base, b)
    && (b.own.Some? ==> ValidRef(b.index, Listed(b.own.value.keyType, b.own.value.keyIndex)))
  }

  method AddMember(r: Relationship, key: PublicKey, seed: Bytes)
    requires r.Valid()
    modifies r`members
    ensures r.Valid() && r.State() == var s := old(r.State()); s.(members := s.members + [FreshMember(key, seed)])
    ensures fresh(MemberSet(r) - old(MemberSet(r)))
  {
    ghost var before := StatesOf(r.members);
    var member := new Member(r, key, Sha256(seed));
    assert forall m :: m in r.members ==> m != member;
    r.members := r.members + [member];
    assert StatesOf(r.members) == before + [member.State()];
  }

  /** The entry of an address, if the wallet owns it. */
  method OwnedInfo(rs: Relationships, ra: RawAddress) returns (info: Option<AddressInfo>)
    requires rs.Valid()
    ensures info == FoundInfo(rs.index.state, ra)
    ensures info.Some? ==> ValidRef(rs.index.state, Listed(info.value.keyType, info.value.keyIndex))
  {
    hide Relationships.Valid, AddressIndex.Valid, Lookup, Address.Represents, WellFormed;
    S.ValidIndex(rs);
    var ad, known := rs.index.FindAddress(ra);
    if ad == null {
      return None;
    }
    HeldInfo(rs.index, ad, Lookup(rs.index.state, ra).ref);
    return Some(AddressInfo(ad.address, ad.publicKey, ad.keyType, ad.keyIndex, ad.keyHash));
  }

  lemma HeldInfo(index: AddressIndex, a: Address, ref: AddressRef)
    requires index.Valid() && index.Holds(a, ref)
    ensures ValidRef(index.state, ref)
    ensures InfoOf(index.state, ref) == AddressInfo(a.address, a.publicKey, a.keyType, a.keyIndex, a.keyHash)
    ensures ValidRef(index.state, Listed(a.keyType, a.keyIndex))
  {
    index.HoldsRepresents(a, ref);
  }

  /** Our own key: the relationship is under it, and its first chain key is registered. */
  method TakeOwnKey(rs: Relationships, r: Relationship, info: AddressInfo, from: PublicKey,
                    ghost base: RelationshipState, ghost b: Joining, seed: Bytes)
    requires Builds(rs, r, base, b) && b.own.None? && base.nextHash == Sha256(seed)
    requires ValidRef(rs.index.state, Listed(info.keyType, info.keyIndex))
    modifies r`keyType, r`keyIndex, r`nextKey, rs.index
    ensures Builds(rs, r, base, Initiate.Taken(b, info, NextPublicKey(from, Sha256(seed)), seed))
    ensures fresh(rs.index.repr - old(rs.index.repr)) && r.members == old(r.members)
  {
    hide *;
    BuildsIndex(rs, r, base, b);
    BuildsState(rs, r, base, b);
    S.ValidParts(rs);
    S.ValidIndex(rs);
    AddKeyListed(rs.list, rs.index.state);
    AddKeyValid(rs.index.state, Listed(info.keyType, info.keyIndex));
    TxIdState(r);
    r.keyType, r.keyIndex := info.keyType, info.keyIndex;
    r.nextKey := NextPublicKey(from, r.nextHash);
    rs.index.AddIndependentKey(r.nextKey, r.keyType, r.keyIndex, r.nextHash);
    Relisted(rs);
    TxIdState(r);
    BuildsTaken(rs, r, base, b, info, r.nextKey, seed);
  }

  lemma BuildsState(rs: Relationships, r: Relationship, base: RelationshipState, b: Joining)
    requires Builds(rs, r, base, b)
    ensures r.Valid() && r !in rs.list && r.State() == Building(base, b) && r.nextHash == base.nextHash
  {
  }

  lemma BuildsTaken(rs: Relationships, r: Relationship, base: RelationshipState, b: Joining, info: AddressInfo,
                    next: PublicKey, seed: Bytes)
    requires rs.Valid() && r.Valid() && r !in rs.list && b.own.None?
    requires rs.index.state == AddKey(b.index, next, info.keyType, info.keyIndex, Sha256(seed))
    requires ValidRef(rs.index.state, Listed(info.keyType, info.keyIndex))
    requires r.State() == Building(base, b).(keyType := info.keyType, keyIndex := info.keyIndex, nextKey := next)
    ensures Builds(rs, r, base, Initiate.Taken(b, info, next, seed))
  {
    hide AddKey, ValidRef, Relationship.State, Relationships.Valid;
  }

  lemma AddKeyValid(ix: IndexState, ref: AddressRef)
    requires ValidRef(ix, ref)
    ensures forall key, t, i, hash :: ValidRef(AddKey(ix, key, t, i, hash), ref)
  {
  }

  lemma Relisted(rs: Relationships)
    requires rs.index.Valid() && Separate(rs.list, rs.own) && Shows(rs.list, rs.own, rs.states)
    requires AllListed(rs.list, rs.index.state)
    ensures rs.Valid()
  {
  }

  /** One participant key: ours if none was found yet and the wallet owns it, a member's otherwise. */
  method JoinKey(rs: Relationships, r: Relationship, key: PublicKey, ra: RawAddress, wanted: nat, isSender: bool,
                 seed: Bytes, keyFound: bool, ghost base: RelationshipState, ghost b: Joining)
    returns (found: bool, e: Option<JoinError>, ghost c: JoinResult)
    requires Builds(rs, r, base, b) && keyFound == b.own.Some? && base.nextHash == Sha256(seed)
    modifies r`keyType, r`keyIndex, r`nextKey, r`members, rs.index
    ensures c == JoinTurn(b, key, ra, wanted, isSender, seed)
    ensures e.None? ==> c.Joined? && Builds(rs, r, base, c.state) && found == c.state.own.Some?
    ensures e.Some? ==> c == JoinFailed(rs.index.state, e.value) && rs.Valid()
    ensures fresh(rs.index.repr - old(rs.index.repr))
    ensures fresh(MemberSet(r) - old(MemberSet(r)))
  {
    hide Relationships.Valid, AddressIndex.Valid, WellFormed, AddKey, StatesOf, FoundInfo, FreshMember;
    c := JoinTurn(b, key, ra, wanted, isSender, seed);
    found, e := keyFound, None;
    if !keyFound {
      var info := OwnedInfo(rs, ra);
      if info.Some? {
        if info.value.keyType != wanted {
          return false, Some(WrongKeyType), c;
        }
        TakeOwnKey(rs, r, info.value, if isSender then info.value.publicKey else key, base, b, seed);
        return true, None, c;
      }
    }
    AddMember(r, key, seed);
  }

  method JoinSenderKey(rs: Relationships, r: Relationship, tx: Tx, i: nat, seed: Bytes, ghost base: RelationshipState, ghost b: Joining)
    returns (found: bool, e: Option<JoinError>, ghost c: JoinResult)
    requires Builds(rs, r, base, b) && b.own.None? && base.nextHash == Sha256(seed)
    modifies r`keyType, r`keyIndex, r`nextKey, r`members, rs.index
    ensures c == JoinSender(b, tx, i, seed)
    ensures e.None? ==> c.Joined? && Builds(rs, r, base, c.state) && found == c.state.own.Some?
    ensures e.Some? ==> c == JoinFailed(rs.index.state, e.value) && rs.Valid()
    ensures fresh(rs.index.repr - old(rs.index.repr)) && fresh(MemberSet(r) - old(MemberSet(r)))
  {
    hide Relationships.Valid, AddressIndex.Valid, WellFormed, JoinTurn, Relationship.State, StatesOf;
    c := JoinSender(b, tx, i, seed);
    if i >= |tx.inputs| {
      return false, Some(SenderMissing), c;
    }
    var key := UnlockingKey(tx.inputs[i]);
    if key.None? {
      return false, Some(SenderUnreadable), c;
    }
    found, e, c := JoinKey(rs, r, key.value, PayToKeyHash(Hash160(key.value)), KEY_TYPE_RELATE_OUT, true, seed, false, base, b);
  }

  method JoinReceiverKeys(rs: Relationships, r: Relationship, tx: Tx, receivers: seq<nat>, seed: Bytes, keyFound: bool,
                          ghost base: RelationshipState, ghost b: Joining)
    returns (found: bool, e: Option<JoinError>, ghost c: JoinResult)
    requires Builds(rs, r, base, b) && keyFound == b.own.Some? && base.nextHash == Sha256(seed)
    modifies r`keyType, r`keyIndex, r`nextKey, r`members, rs.index
    ensures c == JoinReceivers(b, tx, receivers, seed)
    ensures e.None? ==> c.Joined? && Builds(rs, r, base, c.state) && found == c.state.own.Some?
    ensures e.Some? ==> c == JoinFailed(rs.index.state, e.value) && rs.Valid()
    ensures fresh(rs.index.repr - old(rs.index.repr)) && fresh(MemberSet(r) - old(MemberSet(r)))
  {
    hide Relationships.Valid, AddressIndex.Valid, WellFormed, JoinTurn, Builds;
    BuildsIndex(rs, r, base, b);
    found, e, c := keyFound, None, Joined(b);
    for k := 0 to |receivers|
      invariant e.None? && c.Joined? && Builds(rs, r, base, c.state) && found == c.state.own.Some?
      invariant JoinReceivers(c.state, tx, receivers[k..], seed) == JoinReceivers(b, tx, receivers, seed)
      invariant fresh(rs.index.repr - old(rs.index.repr)) && fresh(MemberSet(r) - old(MemberSet(r)))
    {
      assert receivers[k..][0] == receivers[k] && receivers[k..][1..] == receivers[k + 1..];
      BuildsIndex(rs, r, base, c.state);
      if receivers[k] >= |tx.outputs| {
        return false, Some(ReceiverMissing), JoinFailed(rs.index.state, ReceiverMissing);
      }
      var ra := AddressOf(tx.outputs[receivers[k]].script);
      if !ra.PayToKey? {
        return false, Some(ReceiverNotKey), JoinFailed(rs.index.state, ReceiverNotKey);
      }
      found, e, c := JoinKey(rs, r, ra.key, ra, KEY_TYPE_RELATE_IN, false, seed, found, base, c.state);
      if e.Some? {
        return;
      }
    }
  }

  lemma BuildsIndex(rs: Relationships, r: Relationship, base: RelationshipState, b: Joining)
    requires Builds(rs, r, base, b)
    ensures rs.Valid() && rs.index.state == b.index
  {
  }

  /** Add a finished relationship to the list. */
  method StoreRelationship(rs: Relationships, r: Relationship)
    requires rs.Valid() && r.Valid() && r !in rs.list
    requires ValidRef(rs.index.state, Listed(r.keyType, r.keyIndex))
    modifies rs
    ensures rs.Valid() && rs.Parties() == Party(old(rs.index.state), old(rs.states) + [old(r.State())])
    ensures rs.list == old(rs.list) + [r] && rs.own == old(rs.own) + old(MemberSet(r))
  {
    hide AddressIndex.Valid, StatesOf, Relationship.State, WellFormed;
    rs.list := rs.list + [r];
    rs.own := rs.own + set m | m in r.members;
    rs.states := rs.states + [r.State()];
  }

  /** Is the transaction one a stored relationship came from? */
  method KnownTx(rs: Relationships, tx: Tx) returns (known: bool)
    requires rs.Valid()
    ensures known <==> exists i :: 0 <= i < |rs.states| && rs.states[i].txId == TxId(tx)
  {
    hide AddressIndex.Valid, StatesOf;
    for k := 0 to |rs.list|
      invariant forall i :: 0 <= i < k ==> rs.states[i].txId != TxId(tx)
    {
      assert rs.states[k] == rs.list[k].State();
      if rs.list[k].txId == TxId(tx) {
        return true;
      }
    }
    return false;
  }

  /** Both loops, one after the other. */
  function JoinBoth(b: Joining, tx: Tx, senders: seq<nat>, receivers: seq<nat>, seed: Bytes): JoinResult {
    match JoinSender(b, tx, OrFirst(senders)[0], seed)
    case Joined(next) => JoinReceivers(next, tx, OrFirst(receivers), seed)
    case failed => failed
  }

  lemma InitiateIs(p: Party, tx: Tx, senders: seq<nat>, receivers: seq<nat>, terms: Terms, key: Hash32)
    ensures var r := ProcessInitiate(p, TxId(tx), tx, senders, receivers, terms, key);
            if exists i :: 0 <= i < |p.relationships| && p.relationships[i].txId == TxId(tx) then r == (p, None)
            else if |senders| > 1 then r == (p, Some(JoinError.TooManySenders))
            else
              match JoinBoth(Joining(p.index, None, NoKey, []), tx, senders, receivers, terms.seed)
              case JoinFailed(ix, e) => r == (Party(ix, p.relationships), Some(e))
              case Joined(done) =>
                if done.own.None? then r == (Party(done.index, p.relationships), Some(NotAMember))
                else r == (Party(done.index, p.relationships + [Recovered(done, TxId(tx), terms, key)]), None)
  {
    hide JoinSender, JoinReceivers;
  }

  method JoinAll(rs: Relationships, r: Relationship, tx: Tx, senders: seq<nat>, receivers: seq<nat>, seed: Bytes,
                 ghost base: RelationshipState, ghost b: Joining)
    returns (found: bool, e: Option<JoinError>, ghost c: JoinResult)
    requires Builds(rs, r, base, b) && b.own.None? && base.nextHash == Sha256(seed)
    modifies r`keyType, r`keyIndex, r`nextKey, r`members, rs.index
    ensures c == JoinBoth(b, tx, senders, receivers, seed)
    ensures e.None? ==> c.Joined? && Builds(rs, r, base, c.state) && found == c.state.own.Some?
    ensures e.Some? ==> c == JoinFailed(rs.index.state, e.value) && rs.Valid()
    ensures fresh(rs.index.repr - old(rs.index.repr)) && fresh(MemberSet(r) - old(MemberSet(r)))
  {
    hide Relationships.Valid, Builds, JoinSender, JoinReceivers, AddressIndex.Valid;
    found, e, c := JoinSenderKey(rs, r, tx, if senders == [] then 0 else senders[0], seed, base, b);
    if e.None? {
      found, e, c := JoinReceiverKeys(rs, r, tx, if receivers == [] then [0] else receivers, seed, found, base, c.state);
    }
  }

  /** ProcessInitiateRelationship does to the objects what the value version does. */
  method ProcessInitiateRelationship(rs: Relationships, tx: Tx, senders: seq<nat>, receivers: seq<nat>, terms: Terms, key: Hash32)
    returns (e: Option<JoinError>)
    requires rs.Valid()
    modifies rs, rs.index
    ensures rs.Valid() && fresh(rs.index.repr - old(rs.index.repr)) && fresh(rs.own - old(rs.own))
    ensures forall r :: r in rs.list ==> r in old(rs.list) || fresh(r)
    ensures (rs.Parties(), e) == ProcessInitiate(old(rs.Parties()), TxId(tx), tx, senders, receivers, terms, key)
  {
    hide *;
    S.PartiesAre(rs);
    InitiateIs(rs.Parties(), tx, senders, receivers, terms, key);
    var known := KnownTx(rs, tx);
    if known {
      return None;
    }
    if |senders| > 1 {
      return Some(JoinError.TooManySenders);
    }
    var r := new Relationship(TxId(tx), terms.seed, terms.flag, terms.encryptionType,
                              if terms.encryptionType != 0 then key else RawHash(0), false);
    ghost var base, start := r.State(), Joining(rs.index.state, None, NoKey, []);
    NewBuilds(rs, r, base);
    NoMembers(r);
    var found;
    ghost var c;
    found, e, c := JoinAll(rs, r, tx, senders, receivers, terms.seed, base, start);
    S.PartiesAre(rs);
    if e.Some? {
      return;
    }
    BuildsDone(rs, r, base, c.state, tx, terms, key);
    if !found {
      return Some(NotAMember);
    }
    StoreRelationship(rs, r);
  }

  lemma NoMembers(r: Relationship)
    requires r.members == []
    ensures MemberSet(r) == {}
  {
  }

  lemma BuildsDone(rs: Relationships, r: Relationship, base: RelationshipState, b: Joining, tx: Tx, terms: Terms, key: Hash32)
    requires Builds(rs, r, base, b)
    requires base == RelationshipState(TxId(tx), 0, 0, Sha256(terms.seed), 1, terms.seed, terms.flag, terms.encryptionType,
                                       if terms.encryptionType != 0 then key else RawHash(0), false, [], NoKey)
    ensures rs.Valid() && r.Valid() && r !in rs.list && rs.index.state == b.index
    ensures b.own.Some? ==>
              && r.State() == Recovered(b, TxId(tx), terms, key)
              && ValidRef(rs.index.state, Listed(r.keyType, r.keyIndex))
  {
    hide ValidRef;
    S.StateFields(r);
  }

  lemma NewBuilds(rs: Relationships, r: Relationship, base: RelationshipState)
    requires rs.Valid() && r.Valid() && r !in rs.list && r.State() == base && base.members == [] && base.nextKey == NoKey
    ensures Builds(rs, r, base, Joining(rs.index.state, None, NoKey, []))
  {
  }

  // ----- InitiateRelationship -----

  datatype InitiateError = NoReceivers | NoKeyLeft | NoChange | NotFunded(error: FundingError)

  /** Take the first free relationship key; nothing else of the wallet changes. */
  method TakeRelateKey(w: Wallet, rs: Relationships, ghost s: RunState) returns (picked: Option<nat>, ghost t: RunState)
    requires Follows(w, s) && rs.index == w.index && rs.Valid()
    modifies w.index`state, w.index.repr
    ensures Follows(w, t) && rs.Valid() && WellFormed(s.wallet.index)
    ensures picked == PickedKey(s.wallet.index)
    ensures picked.None? ==> t == s
    ensures picked.Some? ==>
              && ValidRef(t.wallet.index, Listed(KEY_TYPE_RELATE_OUT, picked.value))
              && ValidGrowth(s, t.wallet.index) && t == Step(s, Grow(t.wallet.index))
              && t.wallet.index.derived == s.wallet.index.derived
              && (ExactGap(s.wallet.index) ==> ExactGap(t.wallet.index))
              && !MarkedAt(t.wallet.index, KEY_TYPE_RELATE_OUT, picked.value)
  {
    hide *;
    S.FollowsParts(w, s);
    S.FollowsIndex(w, s);
    S.ValidParts(rs);
    PickedFirst(s.wallet.index);
    t := s;
    var key := w.index.GetUnusedKey(KEY_TYPE_RELATE_OUT);
    picked := if key.Some? then Some(key.value.1) else None;
    if key.Some? {
      GiveGrows(s, Listed(KEY_TYPE_RELATE_OUT, key.value.1));
      GiveUnmarked(s.wallet.index, key.value.1);
      t := Step(s, Grow(w.index.state));
      S.FollowsGrown(w, s);
    } else {
      S.FollowsAgain(w, s);
    }
    S.FollowsIndex(w, t);
    S.RunOneExtends(s, t);
    S.StillValid(rs, s.wallet.index);
  }

  lemma PickedFirst(ix: IndexState)
    requires WellFormed(ix)
    ensures KEY_TYPE_RELATE_OUT < KEY_TYPE_COUNT == |ix.lists| && PickedKey(ix) == FirstFree(ix.lists[KEY_TYPE_RELATE_OUT])
    ensures PickedKey(ix).Some? ==> ValidRef(ix, Listed(KEY_TYPE_RELATE_OUT, PickedKey(ix).value))
  {
  }

  /** The key given out was not used, and giving it out does not use it. */
  lemma GiveUnmarked(ix: IndexState, picked: nat)
    requires WellFormed(ix) && PickedKey(ix) == Some(picked)
    ensures !MarkedAt(Give(ix, Listed(KEY_TYPE_RELATE_OUT, picked)), KEY_TYPE_RELATE_OUT, picked)
  {
  }

  lemma ChangeUnmarked(s: RunState, picked: nat)
    requires WellFormed(s.wallet.index) && ChangeRef(s.wallet.index).Some?
    ensures MarkedAt(Changed(s).wallet.index, KEY_TYPE_RELATE_OUT, picked) ==> MarkedAt(s.wallet.index, KEY_TYPE_RELATE_OUT, picked)
  {
    GiveGrows(s, ChangeRef(s.wallet.index).value);
  }

  /** Funding from the key of a list entry leaves the stored relationships as they are. */
  method FundFromIndex(w: Wallet, rs: Relationships, keyType: nat, keyIndex: nat, tx: TxBuilder, out: Outside, ghost s: RunState)
    returns (e: Option<FundingError>, ghost events: seq<Event>)
    requires Follows(w, s) && rs.index == w.index && rs.Valid() && tx.inputs == []
    modifies tx, w`txs, w.index, w.index.repr, w.ledger, w.ledger.repr
    ensures WellFormed(s.wallet.index) && Follows(w, Run(s, events)) && rs.Valid() && tx.outputs == old(tx.outputs)
    ensures fresh(w.index.repr - old(w.index.repr)) && fresh(w.ledger.repr - old(w.ledger.repr))
    ensures FundResult(s, KeySelector(keyType, keyIndex), FundingAmount(out.estimate, w.dustLimit, tx.outputs) > 0,
                       tx.MsgTx(), e, events)
  {
    hide *;
    S.FollowsIndex(w, s);
    S.ValidParts(rs);
    e, events := AddKeyIndexFunding(w, keyType, keyIndex, tx, out, s);
    S.FollowsIndex(w, Run(s, events));
    RunExtends(s, events);
    S.StillValid(rs, s.wallet.index);
  }

  /** One dust output per receiver, then the envelope. */
  function InitiateOutputs(receivers: seq<PublicKey>, dust: nat): seq<TxOut> {
    seq(|receivers|, i requires 0 <= i < |receivers| => TxOut(dust, Pay(PayToKey(receivers[i])))) + [TxOut(0, Envelope)]
  }

  method BuildInitiateOutputs(receivers: seq<PublicKey>, dust: nat) returns (outputs: seq<TxOut>)
    ensures outputs == InitiateOutputs(receivers, dust)
  {
    outputs := [];
    for k := 0 to |receivers|
      invariant |outputs| == k
      invariant forall i :: 0 <= i < k ==> outputs[i] == TxOut(dust, Pay(PayToKey(receivers[i])))
    {
      outputs := outputs + [TxOut(dust, Pay(PayToKey(receivers[k])))];
    }
    outputs := outputs + [TxOut(0, Envelope)];
  }

  /** The relationship the initiator keeps while the transaction is funded. */
  method BuildInitiated(receivers: seq<PublicKey>, wallet: nat, keyIndex: nat, seed: Bytes, flag: Bytes, key: Hash32)
    returns (r: Relationship)
    ensures fresh(r) && r.Valid() && fresh(MemberSet(r))
    ensures r.State() == Initiated(RawHash(0), wallet, keyIndex, seed, flag, key, receivers)
  {
    var many := |receivers| > 1;
    r := new Relationship(RawHash(0), seed, if many then flag else [], if many then 1 else 0,
                          if many then key else RawHash(0), true);
    r.keyType, r.keyIndex := KEY_TYPE_RELATE_OUT, keyIndex;
    r.nextKey := NextPublicKey(PublicOf(PrivateChild(wallet, KEY_TYPE_RELATE_OUT, keyIndex)), Sha256(seed));
    AddMembers(r, receivers, seed);
  }

  method AddMembers(r: Relationship, receivers: seq<PublicKey>, seed: Bytes)
    requires r.Valid() && r.members == []
    modifies r`members
    ensures r.Valid() && fresh(MemberSet(r))
    ensures r.State() == old(r.State()).(members := FreshMembers(receivers, seed))
  {
    hide Relationship.State, Relationship.Valid, FreshMember;
    NoMembers(r);
    S.StateFields(r);
    ghost var base := r.State();
    NoMemberStates(r, seed);
    for k := 0 to |receivers|
      invariant r.Valid() && fresh(MemberSet(r))
      invariant r.State() == base.(members := FreshMembers(receivers[..k], seed))
    {
      FreshMembersAppend(receivers[..k], receivers[k], seed);
      assert receivers[..k + 1] == receivers[..k] + [receivers[k]];
      AddMember(r, receivers[k], seed);
    }
    assert receivers[..|receivers|] == receivers;
  }

  lemma NoMemberStates(r: Relationship, seed: Bytes)
    requires r.members == []
    ensures r.State().members == FreshMembers([], seed)
  {
  }

  // ----- what a successful initiation guarantees -----

  lemma FundedInitiateShape(msg: Tx, sender: PublicKey, receivers: seq<PublicKey>, dust: nat)
    requires msg.inputs != [] && Unlocked(msg.inputs) && SpendsKey(msg.inputs[0], sender) && receivers != []
    requires InitiateOutputs(receivers, dust) <= msg.outputs
    ensures InitiateShape(msg, sender, receivers)
  {
    FirstInputKey(msg.inputs, sender);
    forall i | 0 <= i < |receivers| ensures AddressOf(msg.outputs[i].script) == PayToKey(receivers[i]) {
      assert msg.outputs[i] == InitiateOutputs(receivers, dust)[i];
    }
  }

  /** A key whose output was spent has a stored entry, so it is marked. */
  lemma SpentKeyMarked(w: WalletState, inputs: seq<TxIn>, t: nat, i: nat)
    requires LedgerSigns(w) && EntriesMarked(w) && FundingSpec.Stored(w.ledger, inputs) && inputs != []
    requires SpendsKey(inputs[0], ChildKey(w.index.wallet, t, i))
    ensures MarkedAt(w.index, t, i)
  {
    EntryPays(w, inputs[0].point);
  }

  /** A key that was never marked has no entry, so no reserved one. */
  lemma UnmarkedNoneReserved(w: WalletState, t: nat, i: nat)
    requires LedgerSigns(w) && EntriesMarked(w) && !MarkedAt(w.index, t, i)
    ensures NoneReserved(w.ledger, ChildKey(w.index.wallet, t, i))
  {
    hide LedgerSigns, SigningKey;
    forall p | p in w.ledger ensures !PaysTo(p, ChildKey(w.index.wallet, t, i)) {
      EntryPays(w, p);
    }
  }

  /**
   What initiating amounts to, from state `s`, up to the storing of the relationship: as the picked key
   was never used the broadcasts select safely, the transaction is the initiate transaction of the picked
   key, that key is marked, and nothing is reserved but bitcoin entries and what pays it.
   */
  ghost predicate InitiateGuarantee(s: RunState, receivers: seq<PublicKey>, picked: nat, msg: Tx, e: Option<InitiateError>, events: seq<Event>)
    requires WellFormed(s.wallet.index)
  {
    var r := Run(s, events);
    var sender := ChildKey(s.wallet.index.wallet, KEY_TYPE_RELATE_OUT, picked);
    && SafeExactly(s, msg, e.None?, events)
    && (Signed(s.wallet) && EntriesMarked(s.wallet) && !MarkedAt(s.wallet.index, KEY_TYPE_RELATE_OUT, picked) ==>
          SelectedAll(s, events))
    && (Signed(s.wallet) ==> ReservesOnly(s, events, e.None?, sender))
    && KeepsGap(s, events)
    && (e.None? ==> Distinct(PointsOf(msg.inputs)))
    && (Signed(s.wallet) ==> Signed(r.wallet))
    && (e.None? ==> events != [] && events[|events| - 1] == Broadcast(msg))
    && (e.None? && Signed(s.wallet) ==> InitiateShape(msg, sender, receivers))
    && (e.None? && Signed(s.wallet) && EntriesMarked(s.wallet) ==> MarkedAt(r.wallet.index, KEY_TYPE_RELATE_OUT, picked))
  }

  lemma GuaranteeFunded(s: RunState, receivers: seq<PublicKey>, picked: nat, dust: nat, positive: bool, msg: Tx,
                        failed: Option<FundingError>, events: seq<Event>)
    requires WellFormed(s.wallet.index) && receivers != []
    requires FundResult(s, KeySelector(KEY_TYPE_RELATE_OUT, picked), positive, msg, failed, events)
    requires InitiateOutputs(receivers, dust) <= msg.outputs
    ensures InitiateGuarantee(s, receivers, picked, msg, if failed.Some? then Some(NotFunded(failed.value)) else None, events)
  {
    hide Run, SelectedAll, Unclaimed, Distinct, WellFormed, InitiateShape, MarkedAt, EntriesMarked, Unlocked, SpendsKey,
         KeysCoherent, LedgerSigns, InitiateOutputs, NoneReserved, ReservesOnly, KeepsGap;
    if LedgerSigns(s.wallet) && EntriesMarked(s.wallet) && !MarkedAt(s.wallet.index, KEY_TYPE_RELATE_OUT, picked) {
      UnmarkedNoneReserved(s.wallet, KEY_TYPE_RELATE_OUT, picked);
    }
    if failed.None? && Signed(s.wallet) {
      var sender := ChildKey(s.wallet.index.wallet, KEY_TYPE_RELATE_OUT, picked);
      FundedInitiateShape(msg, sender, receivers, dust);
      if EntriesMarked(s.wallet) {
        RunMarked(s, events);
        RunKeepsWallet(s, events);
        SpentKeyMarked(Run(s, events).wallet, msg.inputs, KEY_TYPE_RELATE_OUT, picked);
      }
    }
  }

  lemma RunKeepsWallet(s: RunState, events: seq<Event>)
    requires WellFormed(s.wallet.index)
    ensures Run(s, events).wallet.index.wallet == s.wallet.index.wallet
  {
    RunExtends(s, events);
  }

  lemma GuaranteeAfterGrow(s: RunState, t: RunState, receivers: seq<PublicKey>, picked: nat, msg: Tx,
                           e: Option<InitiateError>, more: seq<Event>)
    requires WellFormed(s.wallet.index) && ValidGrowth(s, t.wallet.index) && t == Step(s, Grow(t.wallet.index))
    requires t.wallet.index.derived == s.wallet.index.derived && (ExactGap(s.wallet.index) ==> ExactGap(t.wallet.index))
    requires MarkedAt(t.wallet.index, KEY_TYPE_RELATE_OUT, picked) ==> MarkedAt(s.wallet.index, KEY_TYPE_RELATE_OUT, picked)
    requires InitiateGuarantee(t, receivers, picked, msg, e, more)
    ensures InitiateGuarantee(s, receivers, picked, msg, e, [Grow(t.wallet.index)] + more)
    ensures Run(s, [Grow(t.wallet.index)] + more) == Run(t, more)
  {
    hide Run, SelectedAll, Unclaimed, Distinct, WellFormed, InitiateShape, MarkedAt, Signed, ReservesOnly, KeepsGap, ExactGap,
         EntriesMarked;
    GrowThen(s, t, more);
    GrowThenReserves(s, t, more, e.None?, ChildKey(s.wallet.index.wallet, KEY_TYPE_RELATE_OUT, picked));
    if EntriesMarked(s.wallet) {
      StepMarked(s, Grow(t.wallet.index));
    }
  }

  lemma GuaranteeStopped(s: RunState, receivers: seq<PublicKey>, picked: nat, msg: Tx, e: InitiateError)
    requires WellFormed(s.wallet.index)
    ensures InitiateGuarantee(s, receivers, picked, msg, Some(e), []) && Run(s, []) == s
  {
    RunStart(s);
  }

  // ----- storing the initiated relationship -----

  /** Give the relationship its transaction and store it. */
  method AppendNamed(rs: Relationships, r: Relationship, msg: Tx)
    requires rs.Valid() && r.Valid() && r !in rs.list
    requires ValidRef(rs.index.state, Listed(r.keyType, r.keyIndex))
    modifies r`txId, rs
    ensures rs.Valid()
    ensures rs.Parties() == Party(old(rs.index.state), old(rs.states) + [old(r.State()).(txId := TxId(msg))])
  {
    hide *;
    TxIdState(r);
    r.txId := TxId(msg);
    TxIdState(r);
    StoreRelationship(rs, r);
  }

  /** Give the relationship its transaction, store it, and register its first chain key. */
  method StoreInitiated(w: Wallet, rs: Relationships, r: Relationship, msg: Tx, ghost u: RunState)
    requires Follows(w, u) && rs.index == w.index && rs.Valid() && r.Valid() && r !in rs.list
    requires ValidRef(w.index.state, Listed(r.keyType, r.keyIndex)) && r.nextKey.NextPublicKey?
    modifies r`txId, rs, w.index
    ensures rs.Valid() && fresh(w.index.repr - old(w.index.repr)) && WellFormed(u.wallet.index)
    ensures old(rs.Parties()).index == u.wallet.index
    ensures rs.Parties() == Enroll(old(rs.Parties()), old(r.State()).(txId := TxId(msg)))
    ensures KeysCoherent(u.wallet.index)
            && old(r.nextKey) == NextPublicKey(ChildKey(u.wallet.index.wallet, old(r.keyType), old(r.keyIndex)), old(r.nextHash)) ==>
              Follows(w, Step(u, Grow(rs.Parties().index)))
  {
    hide *;
    S.FollowsParts(w, u);
    S.FollowsIndex(w, u);
    S.PartiesAre(rs);
    TxIdState(r);
    ghost var stored := r.State().(txId := TxId(msg));
    AppendNamed(rs, r, msg);
    S.PartiesAre(rs);
    S.ValidParts(rs);
    S.ValidIndex(rs);
    AddKeyListed(rs.list, rs.index.state);
    EnrollIs(old(rs.Parties()), stored);
    w.index.AddIndependentKey(r.nextKey, r.keyType, r.keyIndex, r.nextHash);
    Relisted(rs);
    S.PartiesAre(rs);
    if KeysCoherent(u.wallet.index)
       && r.nextKey == NextPublicKey(ChildKey(u.wallet.index.wallet, r.keyType, r.keyIndex), r.nextHash) {
      RightKeyGrows(u.wallet.index, r.nextKey, r.keyType, r.keyIndex, r.nextHash);
      S.FollowsGrown(w, u);
    }
  }

  lemma TxIdState(r: Relationship)
    ensures r.State() == r.Core().(members := StatesOf(r.members))
    ensures r.Core() == RelationshipState(r.txId, r.keyType, r.keyIndex, r.nextHash, r.nextIndex, r.seed, r.flag,
                                          r.encryptionType, r.encryptionKey, r.accepted, [], r.nextKey)
  {
  }

  lemma EnrollIs(p: Party, r: RelationshipState)
    ensures Enroll(p, r) == Party(AddKey(p.index, r.nextKey, r.keyType, r.keyIndex, r.nextHash), p.relationships + [r])
  {
  }

  /**
   InitiateRelationship: the relationship is stored only after its transaction was funded from the
   picked key, sent and recorded; then it is the one every participant rebuilds, and its key is marked.
   */
  method InitiateRelationship(w: Wallet, rs: Relationships, receivers: seq<PublicKey>, seed: Bytes, flag: Bytes,
                              key: Hash32, out: Outside, ghost s: RunState)
    returns (e: Option<InitiateError>, msg: Tx, ghost picked: nat, ghost events: seq<Event>)
    requires Follows(w, s) && rs.index == w.index && rs.Valid()
    modifies rs, w`txs, w.index, w.index.repr, w.ledger, w.ledger.repr
    ensures WellFormed(s.wallet.index) && rs.Valid()
    ensures fresh(w.index.repr - old(w.index.repr)) && fresh(w.ledger.repr - old(w.ledger.repr))
    ensures InitiateGuarantee(s, receivers, picked, msg, e, events)
    ensures e.Some? ==> rs.states == old(rs.states) && Follows(w, Run(s, events))
    ensures e.None? ==>
              && receivers != [] && PickedKey(s.wallet.index) == Some(picked)
              && rs.Parties() == Enroll(Party(Run(s, events).wallet.index, old(rs.states)),
                                        Initiated(TxId(msg), s.wallet.index.wallet, picked, seed, flag, key, receivers))
    ensures events != [] ==> PickedKey(s.wallet.index) == Some(picked)
    ensures e.None? && Signed(s.wallet) ==> Follows(w, Step(Run(s, events), Grow(rs.Parties().index)))
  {
    hide *;
    S.FollowsIndex(w, s);
    msg, picked := Tx([], []), 0;
    if |receivers| == 0 {
      GuaranteeStopped(s, receivers, picked, msg, NoReceivers);
      return Some(NoReceivers), msg, picked, [];
    }
    var choice;
    ghost var t;
    choice, t := TakeRelateKey(w, rs, s);
    if choice.None? {
      GuaranteeStopped(s, receivers, picked, msg, NoKeyLeft);
      return Some(NoKeyLeft), msg, picked, [];
    }
    picked := choice.value;
    var r := BuildInitiated(receivers, w.index.wallet, choice.value, seed, flag, key);
    ghost var more;
    e, msg, more := FundInitiate(w, rs, choice.value, receivers, out, t);
    events := [Grow(t.wallet.index)] + more;
    GuaranteeAfterGrow(s, t, receivers, picked, msg, e, more);
    if e.None? {
      ghost var u := Run(s, events);
      S.PartiesAre(rs);
      InitiatedFields(r, s.wallet.index.wallet, picked, seed, flag, key, receivers);
      KeptKey(s, t, events, picked);
      S.FollowsIndex(w, u);
      StoreInitiated(w, rs, r, msg, u);
      if Signed(s.wallet) {
        GuaranteeCoherent(s, receivers, picked, msg, e, events);
      }
    }
  }

  /** Change address, outputs and funding of the initiate transaction. */
  method FundInitiate(w: Wallet, rs: Relationships, keyIndex: nat, receivers: seq<PublicKey>, out: Outside, ghost s: RunState)
    returns (e: Option<InitiateError>, msg: Tx, ghost events: seq<Event>)
    requires Follows(w, s) && rs.index == w.index && rs.Valid() && receivers != []
    modifies w`txs, w.index, w.index.repr, w.ledger, w.ledger.repr
    ensures WellFormed(s.wallet.index) && Follows(w, Run(s, events)) && rs.Valid()
    ensures fresh(w.index.repr - old(w.index.repr)) && fresh(w.ledger.repr - old(w.ledger.repr))
    ensures InitiateGuarantee(s, receivers, keyIndex, msg, e, events)
  {
    hide *;
    S.FollowsIndex(w, s);
    msg := Tx([], []);
    var change: Address?;
    ghost var t;
    change, t := S.TakeChange(w, rs, s);
    if change == null {
      GuaranteeStopped(s, receivers, keyIndex, msg, NoChange);
      return Some(NoChange), msg, [];
    }
    ChangeUnmarked(s, keyIndex);
    var outputs := BuildInitiateOutputs(receivers, w.dustLimit);
    var tx := new TxBuilder(outputs);
    StateParts(tx);
    ghost var positive := FundingAmount(out.estimate, w.dustLimit, tx.outputs) > 0;
    var failed;
    ghost var more;
    failed, more := FundFromIndex(w, rs, KEY_TYPE_RELATE_OUT, keyIndex, tx, out, t);
    StateParts(tx);
    msg := tx.MsgTx();
    S.FollowsIndex(w, Run(t, more));
    e := if failed.Some? then Some(NotFunded(failed.value)) else None;
    ChangeThenFunded(s, t, receivers, keyIndex, w.dustLimit, positive, msg, failed, more);
    events := [Grow(t.wallet.index)] + more;
  }

  lemma ChangeThenFunded(s: RunState, t: RunState, receivers: seq<PublicKey>, picked: nat, dust: nat, positive: bool,
                         msg: Tx, failed: Option<FundingError>, more: seq<Event>)
    requires WellFormed(s.wallet.index) && ValidGrowth(s, t.wallet.index) && t == Step(s, Grow(t.wallet.index))
    requires t.wallet.index.derived == s.wallet.index.derived && receivers != []
    requires (ExactGap(s.wallet.index) ==> ExactGap(t.wallet.index))
    requires MarkedAt(t.wallet.index, KEY_TYPE_RELATE_OUT, picked) ==> MarkedAt(s.wallet.index, KEY_TYPE_RELATE_OUT, picked)
    requires FundResult(t, KeySelector(KEY_TYPE_RELATE_OUT, picked), positive, msg, failed, more)
    requires InitiateOutputs(receivers, dust) <= msg.outputs
    ensures var events := [Grow(t.wallet.index)] + more;
            && InitiateGuarantee(s, receivers, picked, msg, if failed.Some? then Some(NotFunded(failed.value)) else None, events)
            && Run(s, events) == Run(t, more)
  {
    hide *;
    var e := if failed.Some? then Some(NotFunded(failed.value)) else None;
    StepWellFormed(s, t);
    GuaranteeFunded(t, receivers, picked, dust, positive, msg, failed, more);
    GuaranteeAfterGrow(s, t, receivers, picked, msg, e, more);
  }

  lemma StepWellFormed(s: RunState, t: RunState)
    requires WellFormed(s.wallet.index) && t == Step(s, Grow(t.wallet.index))
    ensures WellFormed(t.wallet.index)
  {
  }

  lemma InitiatedFields(r: Relationship, wallet: nat, keyIndex: nat, seed: Bytes, flag: Bytes, key: Hash32, receivers: seq<PublicKey>)
    requires r.State() == Initiated(RawHash(0), wallet, keyIndex, seed, flag, key, receivers)
    ensures r.keyType == KEY_TYPE_RELATE_OUT && r.keyIndex == keyIndex && r.nextKey.NextPublicKey?
    ensures r.nextKey == NextPublicKey(ChildKey(wallet, r.keyType, r.keyIndex), r.nextHash)
    ensures forall id :: r.State().(txId := id) == Initiated(id, wallet, keyIndex, seed, flag, key, receivers)
  {
  }

  lemma KeptKey(s: RunState, t: RunState, events: seq<Event>, picked: nat)
    requires WellFormed(s.wallet.index) && ValidGrowth(s, t.wallet.index) && t == Step(s, Grow(t.wallet.index))
    requires PickedKey(s.wallet.index) == Some(picked)
    ensures ValidRef(Run(s, events).wallet.index, Listed(KEY_TYPE_RELATE_OUT, picked))
    ensures Run(s, events).wallet.index.wallet == s.wallet.index.wallet
  {
    RunExtends(s, events);
    PickedFirst(s.wallet.index);
  }

  lemma GuaranteeCoherent(s: RunState, receivers: seq<PublicKey>, picked: nat, msg: Tx, e: Option<InitiateError>, events: seq<Event>)
    requires WellFormed(s.wallet.index) && InitiateGuarantee(s, receivers, picked, msg, e, events) && Signed(s.wallet)
    ensures KeysCoherent(Run(s, events).wallet.index)
  {
    hide Run;
  }
}
