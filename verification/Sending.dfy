/**
 Sending an accept or a private message: build the transaction, fund it from the expected key, and
 only then move the chains. The transaction is the one the protocol in Protocol.dfy sends.
 */
module MessageSending {
  import opened Results
  import opened Bitcoin
  import opened AddressSpec
  import opened LedgerSpec
  import opened LedgerRun
  import opened AddressIndexes
  import opened Ledgers
  import opened Wallets
  import opened Signing
  import opened FundingSpec
  import opened Funding
  import opened Ratchet
  import opened RatchetLaws
  import opened RelationshipManager
  import opened Messages
  import P = Protocol

  datatype SendError = NotAllowed | NoChange | NotFunded(error: FundingError)

  /** The outputs a message has before funding adds change. */
  function FixedOutputs(r: RelationshipState, dust: nat): seq<TxOut> {
    (if r.encryptionType == 0 then MemberOutputs(r.members, dust) else [])
    + (if |r.flag| > 0 then [TxOut(0, Flag(r.flag))] else [])
    + [TxOut(0, Envelope)]
  }

  /** The transaction is the message of the protocol, whatever funding added to it. */
  ghost predicate IsMessage(r: RelationshipState, dust: nat, msg: Tx) {
    && msg.inputs != []
    && |FixedOutputs(r, dust)| <= |msg.outputs|
    && msg == MessageTx(r, dust, msg.inputs[0].point, msg.inputs[1..], msg.outputs[|FixedOutputs(r, dust)|..])
  }

  lemma FundedIsMessage(r: RelationshipState, wallet: nat, dust: nat, msg: Tx)
    requires OnChain(r, wallet) && FixedOutputs(r, dust) <= msg.outputs
    requires msg.inputs != [] && msg.inputs[0] == TxIn(msg.inputs[0].point, Some([r.nextKey]))
    ensures IsMessage(r, dust, msg)
  {
    var rest := msg.outputs[|FixedOutputs(r, dust)|..];
    assert msg.outputs == FixedOutputs(r, dust) + rest;
    assert msg.inputs == [msg.inputs[0]] + msg.inputs[1..];
  }

  /** One dust output per member in direct mode, then the flag, then the envelope. */
  method BuildOutputs(r: Relationship, dust: nat) returns (outputs: seq<TxOut>, receivers: seq<nat>)
    requires r.Valid()
    ensures outputs == FixedOutputs(r.State(), dust) && receivers == MessageReceivers(r.State())
  {
    outputs, receivers := [], [];
    ghost var ms := r.State().members;
    if r.encryptionType == 0 {
      for k := 0 to |r.members|
        invariant |outputs| == |receivers| == k
        invariant forall i :: 0 <= i < k ==> outputs[i] == TxOut(dust, Pay(PayToKey(ms[i].nextKey))) && receivers[i] == i
      {
        assert ms[k] == r.members[k].State();
        receivers := receivers + [|outputs|];
        outputs := outputs + [TxOut(dust, Pay(PayToKey(r.members[k].nextKey)))];
      }
      assert outputs == MemberOutputs(ms, dust) && receivers == Upto(|ms|);
    }
    if |r.flag| > 0 {
      outputs := outputs + [TxOut(0, Flag(r.flag))];
    }
    outputs := outputs + [TxOut(0, Envelope)];
  }

  /** The key of an indirect message: the relationship's key and our next hash. */
  method Seal(r: Relationship) returns (key: Option<Hash32>)
    ensures key == P.SealKey(r.State())
  {
    return if r.encryptionType == 0 then None else Some(AddHashes(r.encryptionKey, r.nextHash));
  }

  // ----- the ratchet step -----

  method AdvanceAllMembers(rs: Relationships, r: Relationship, ghost j: nat)
    requires rs.Valid() && Tracks(rs.list, r, Some(j))
    modifies rs`states, rs.own
    ensures rs.Valid() && j < |old(rs.states)|
    ensures rs.Parties() == WithMembers(old(rs.Parties()), j, AdvanceMembers(old(rs.states)[j].members))
  {
    hide AddressIndex.Valid, Relationship.State;
    rs.MembersApart(j);
    TrackedState(rs, r, j);
    r.AdvanceAll();
    rs.states := rs.states[j := r.State()];
  }

  /** The step both sends end with. */
  method AdvanceSent(rs: Relationships, r: Relationship, ghost j: nat, kind: P.Kind)
    requires rs.Valid() && Tracks(rs.list, r, Some(j))
    modifies rs`states, r, rs.own, rs.index
    ensures rs.Valid() && fresh(rs.index.repr - old(rs.index.repr))
    ensures j < |old(rs.states)| && rs.Parties() == P.AfterSend(old(rs.Parties()), j, kind)
  {
    hide AddressIndex.Valid, Relationships.Valid, AdvanceOwn;
    TrackedState(rs, r, j);
    ghost var p := rs.Parties();
    rs.AdvanceOwnChain(r, j);
    TrackedState(rs, r, j);
    OwnKeepsMode(p, j);
    TrackedMode(rs, r, j);
    if r.encryptionType == 0 {
      AdvanceAllMembers(rs, r, j);
      TrackedState(rs, r, j);
    }
    if kind == P.Accept {
      MarkAccepted(rs, r, j);
    }
  }

  lemma OwnKeepsMode(p: Party, j: nat)
    requires j < |p.relationships|
    ensures |AdvanceOwn(p, j).relationships| == |p.relationships|
    ensures AdvanceOwn(p, j).relationships[j].encryptionType == p.relationships[j].encryptionType
  {
  }

  lemma TrackedMode(rs: Relationships, r: Relationship, j: nat)
    requires rs.Valid() && Tracks(rs.list, r, Some(j))
    ensures j < |rs.states| && rs.states[j].encryptionType == r.encryptionType
    ensures rs.states[j] == r.State() && r.Valid()
  {
  }

  // ----- the whole send -----

  /**
   What sending a message of relationship `r` amounts to before the chains move: everything it
   broadcasts selects safely as long as no reserved entry pays our next key, it reserves nothing but
   bitcoin entries and, once sent, what pays that key, and the last broadcast is the message of the
   protocol.
   */
  ghost predicate SendGuarantee(s: RunState, r: RelationshipState, dust: nat, msg: Tx, e: Option<SendError>, events: seq<Event>)
    requires WellFormed(s.wallet.index)
  {
    var key := NextPublicKey(ChildKey(s.wallet.index.wallet, r.keyType, r.keyIndex), r.nextHash);
    && SafeExactly(s, msg, e.None?, events)
    && (IsRelateType(r.keyType) && NoneReserved(s.wallet.ledger, key) ==> SelectedAll(s, events))
    && (Signed(s.wallet) ==> ReservesOnly(s, events, e.None?, key))
    && KeepsGap(s, events)
    && (IsRelateType(r.keyType) && e.None? ==> Distinct(PointsOf(msg.inputs)))
    && (Signed(s.wallet) ==> Signed(Run(s, events).wallet))
    && (e.None? ==> events != [] && events[|events| - 1] == Broadcast(msg))
    && (e.None? && Signed(s.wallet) && OnChain(r, s.wallet.index.wallet) ==> IsMessage(r, dust, msg))
  }

  lemma StoppedBeforeFunding(s: RunState, r: RelationshipState, dust: nat, msg: Tx, e: SendError)
    requires WellFormed(s.wallet.index)
    ensures SendGuarantee(s, r, dust, msg, Some(e), []) && Run(s, []) == s
  {
    RunStart(s);
  }

  lemma MessageFunded(s: RunState, t: RunState, r: RelationshipState, dust: nat, positive: bool, msg: Tx,
                      e: Option<FundingError>, more: seq<Event>)
    requires WellFormed(s.wallet.index) && ValidGrowth(s, t.wallet.index) && t == Step(s, Grow(t.wallet.index))
    requires t.wallet.index.derived == s.wallet.index.derived && (ExactGap(s.wallet.index) ==> ExactGap(t.wallet.index))
    requires FundResult(t, KeyHashSelector(r.keyType, r.keyIndex, r.nextHash), positive, msg, e, more)
    requires FixedOutputs(r, dust) <= msg.outputs
    ensures var events := [Grow(t.wallet.index)] + more;
            && SendGuarantee(s, r, dust, msg, if e.Some? then Some(NotFunded(e.value)) else None, events)
            && Run(s, events) == Run(t, more)
  {
    hide Run, Signed, SelectedAll, Unclaimed, Distinct, WellFormed, Extends, Unlocked, SpendsKey, IsMessage, FixedOutputs, Step,
         NoneReserved, ReservesOnly, KeepsGap, ExactGap;
    GrowThen(s, t, more);
    GrowThenReserves(s, t, more, e.None?, NextPublicKey(ChildKey(s.wallet.index.wallet, r.keyType, r.keyIndex), r.nextHash));
    if e.None? && Signed(s.wallet) && OnChain(r, s.wallet.index.wallet) {
      FirstInputKey(msg.inputs, NextPublicKey(ChildKey(s.wallet.index.wallet, r.keyType, r.keyIndex), r.nextHash));
      FundedIsMessage(r, s.wallet.index.wallet, dust, msg);
    }
  }

  /** The relationships stay what they are while the index grows. */
  lemma StillValid(rs: Relationships, before: IndexState)
    requires Separate(rs.list, rs.own) && Shows(rs.list, rs.own, rs.states) && AllListed(rs.list, before)
    requires Extends(before, rs.index.state) && rs.index.Valid()
    ensures rs.Valid()
  {
  }

  lemma ValidParts(rs: Relationships)
    requires rs.Valid()
    ensures Separate(rs.list, rs.own) && Shows(rs.list, rs.own, rs.states) && AllListed(rs.list, rs.index.state)
    ensures WellFormed(rs.index.state)
  {
  }

  lemma FollowsIndex(w: Wallet, s: RunState)
    requires Follows(w, s)
    ensures w.index.Valid() && w.index.state == s.wallet.index && WellFormed(s.wallet.index)
    ensures w.index.wallet == s.wallet.index.wallet
  {
  }

  /** Taking a change address leaves the relationships as they are. */
  method TakeChange(w: Wallet, rs: Relationships, ghost s: RunState) returns (change: Address?, ghost t: RunState)
    requires Follows(w, s) && rs.index == w.index && rs.Valid()
    modifies w.index`state, w.index.repr
    ensures Follows(w, t) && rs.Valid() && WellFormed(s.wallet.index)
    ensures change == null ==> t == s
    ensures change != null ==>
              && ChangeRef(s.wallet.index).Some? && t == Changed(s)
              && ValidGrowth(s, t.wallet.index) && t == Step(s, Grow(t.wallet.index))
              && t.wallet.index.derived == s.wallet.index.derived
              && (ExactGap(s.wallet.index) ==> ExactGap(t.wallet.index))
  {
    hide *;
    FollowsIndex(w, s);
    ValidParts(rs);
    change, t := TakeChangeAddress(w, s);
    if change != null {
      ChangeGrows(s);
    }
    FollowsIndex(w, t);
    RunOneExtends(s, t);
    StillValid(rs, s.wallet.index);
  }

  /** So does funding the transaction from a key. */
  method FundFromKey(w: Wallet, rs: Relationships, r: Relationship, tx: TxBuilder, out: Outside, ghost s: RunState)
    returns (e: Option<FundingError>, ghost events: seq<Event>)
    requires Follows(w, s) && rs.index == w.index && rs.Valid() && tx.inputs == []
    modifies tx, w`txs, w.index, w.index.repr, w.ledger, w.ledger.repr
    ensures WellFormed(s.wallet.index) && Follows(w, Run(s, events)) && rs.Valid() && tx.outputs == old(tx.outputs)
    ensures fresh(w.index.repr - old(w.index.repr)) && fresh(w.ledger.repr - old(w.ledger.repr))
    ensures FundResult(s, KeyHashSelector(r.keyType, r.keyIndex, r.nextHash),
                       FundingAmount(out.estimate, w.dustLimit, tx.outputs) > 0, tx.MsgTx(), e, events)
  {
    hide *;
    FollowsIndex(w, s);
    ValidParts(rs);
    e, events := AddKeyFunding(w, r.keyType, r.keyIndex, r.nextHash, tx, out, s);
    FollowsIndex(w, Run(s, events));
    RunExtends(s, events);
    StillValid(rs, s.wallet.index);
  }

  lemma StateFields(r: Relationship)
    ensures var s := r.State();
            && s.keyType == r.keyType && s.keyIndex == r.keyIndex && s.nextHash == r.nextHash
            && s.accepted == r.accepted && s.encryptionType == r.encryptionType
  {
  }

  /** Change address, outputs and funding of a message; the relationships do not move yet. */
  method FundMessage(w: Wallet, rs: Relationships, r: Relationship, ghost j: nat, out: Outside, ghost s: RunState)
    returns (e: Option<SendError>, msg: Tx, receivers: seq<nat>, sealedWith: Option<Hash32>, ghost events: seq<Event>)
    requires Follows(w, s) && rs.index == w.index && rs.Valid() && Tracks(rs.list, r, Some(j))
    modifies w`txs, w.index, w.index.repr, w.ledger, w.ledger.repr
    ensures WellFormed(s.wallet.index) && Follows(w, Run(s, events)) && rs.Valid()
    ensures fresh(w.index.repr - old(w.index.repr)) && fresh(w.ledger.repr - old(w.ledger.repr))
    ensures SendGuarantee(s, old(r.State()), w.dustLimit, msg, e, events)
    ensures e.None? ==> receivers == MessageReceivers(old(r.State())) && sealedWith == P.SealKey(old(r.State()))
    ensures e != Some(NotAllowed)
  {
    hide *;
    TrackedMode(rs, r, j);
    StateFields(r);
    ghost var state := r.State();
    var outputs;
    outputs, receivers := BuildOutputs(r, w.dustLimit);
    sealedWith := Seal(r);
    var change: Address?;
    ghost var t;
    change, t := TakeChange(w, rs, s);
    msg := Tx([], []);
    if change == null {
      StoppedBeforeFunding(s, state, w.dustLimit, msg, NoChange);
      return Some(NoChange), msg, receivers, sealedWith, [];
    }
    e, msg, events := FundOutputs(w, rs, r, outputs, out, state, s, t);
  }

  /** Fund a transaction with these outputs from our next key, after the change address was given. */
  method FundOutputs(w: Wallet, rs: Relationships, r: Relationship, outputs: seq<TxOut>, out: Outside,
                     ghost state: RelationshipState, ghost s: RunState, ghost t: RunState)
    returns (e: Option<SendError>, msg: Tx, ghost events: seq<Event>)
    requires Follows(w, t) && rs.index == w.index && rs.Valid()
    requires WellFormed(s.wallet.index) && ValidGrowth(s, t.wallet.index) && t == Step(s, Grow(t.wallet.index))
    requires t.wallet.index.derived == s.wallet.index.derived && (ExactGap(s.wallet.index) ==> ExactGap(t.wallet.index))
    requires state.keyType == r.keyType && state.keyIndex == r.keyIndex && state.nextHash == r.nextHash
    requires outputs == FixedOutputs(state, w.dustLimit)
    modifies w`txs, w.index, w.index.repr, w.ledger, w.ledger.repr
    ensures Follows(w, Run(s, events)) && rs.Valid()
    ensures fresh(w.index.repr - old(w.index.repr)) && fresh(w.ledger.repr - old(w.ledger.repr))
    ensures SendGuarantee(s, state, w.dustLimit, msg, e, events) && e != Some(NotAllowed)
  {
    hide *;
    var tx := new TxBuilder(outputs);
    StateParts(tx);
    ghost var positive := FundingAmount(out.estimate, w.dustLimit, tx.outputs) > 0;
    var failed;
    ghost var more;
    failed, more := FundFromKey(w, rs, r, tx, out, t);
    StateParts(tx);
    msg := tx.MsgTx();
    MessageFunded(s, t, state, w.dustLimit, positive, msg, failed, more);
    events := [Grow(t.wallet.index)] + more;
    e := if failed.Some? then Some(NotFunded(failed.value)) else None;
  }

  lemma RunOneExtends(s: RunState, t: RunState)
    requires WellFormed(s.wallet.index)
    requires t == s || (ValidGrowth(s, t.wallet.index) && t == Step(s, Grow(t.wallet.index)))
    ensures Extends(s.wallet.index, t.wallet.index)
  {
    ExtendsReflexive(s.wallet.index);
  }

  // ----- sending -----

  /** What Follows says apart from the index. */
  ghost predicate FollowsLedger(w: Wallet, s: RunState)
    reads w, w.txs.Values, w.ledger, w.ledger.repr
  {
    && w.ledger.Valid() && s.wallet.ledger == w.ledger.State()
    && s.handled == w.txs.Keys && s.finalized <= s.handled
    && (forall t :: t in w.txs ==> w.txs[t].tx == t && (w.txs[t].promoted <==> t in s.finalized))
  }

  lemma FollowsParts(w: Wallet, s: RunState)
    requires Follows(w, s)
    ensures FollowsLedger(w, s) && Indexed(w.ledger.entries, s.wallet.index)
    ensures w.index.state == s.wallet.index && WellFormed(s.wallet.index)
  {
  }

  /** After the index grew by a step of the run, the wallet follows that step. */
  lemma FollowsGrown(w: Wallet, s: RunState)
    requires FollowsLedger(w, s) && Indexed(w.ledger.entries, s.wallet.index) && WellFormed(s.wallet.index)
    requires w.index.Valid() && Extends(s.wallet.index, w.index.state)
    ensures Follows(w, Step(s, Grow(w.index.state)))
  {
    IndexedExtends(w.ledger.entries, s.wallet.index, w.index.state);
  }

  lemma FollowsAgain(w: Wallet, s: RunState)
    requires FollowsLedger(w, s) && Indexed(w.ledger.entries, s.wallet.index) && WellFormed(s.wallet.index)
    requires w.index.Valid() && w.index.state == s.wallet.index
    ensures Follows(w, s)
  {
  }

  /** The index after a send: the next key of our chain is registered. */
  lemma AfterSendIndex(p: Party, j: nat, kind: P.Kind)
    requires j < |p.relationships| && KeysCoherent(p.index)
    ensures Extends(p.index, P.AfterSend(p, j, kind).index)
  {
    var r := AdvanceRelationship(p.relationships[j], p.index.wallet);
    assert P.AfterSend(p, j, kind).index == AddKey(p.index, r.nextKey, r.keyType, r.keyIndex, r.nextHash);
    RightKeyGrows(p.index, r.nextKey, r.keyType, r.keyIndex, r.nextHash);
  }

  lemma RefusedSend(s: RunState, r: RelationshipState, dust: nat)
    requires WellFormed(s.wallet.index)
    ensures SendGuarantee(s, r, dust, Tx([], []), Some(NotAllowed), []) && Run(s, []) == s
  {
    StoppedBeforeFunding(s, r, dust, Tx([], []), NotAllowed);
  }

  lemma GuaranteeKeepsSigned(s: RunState, r: RelationshipState, dust: nat, msg: Tx, e: Option<SendError>, events: seq<Event>)
    requires WellFormed(s.wallet.index) && SendGuarantee(s, r, dust, msg, e, events) && Signed(s.wallet)
    ensures KeysCoherent(Run(s, events).wallet.index)
  {
    hide Run;
  }

  /**
   AcceptRelationship and SendMessage: refused unless the relationship is in the right state; nothing
   of the relationships moves unless the transaction was funded, sent and recorded; then our chain and,
   in direct mode, every member's advance by one.
   */
  method SendMessage(w: Wallet, rs: Relationships, r: Relationship, ghost j: nat, kind: P.Kind, out: Outside, ghost s: RunState)
    returns (e: Option<SendError>, msg: Tx, receivers: seq<nat>, sealedWith: Option<Hash32>,
             ghost events: seq<Event>, ghost funded: Party)
    requires Follows(w, s) && rs.index == w.index && rs.Valid() && Tracks(rs.list, r, Some(j))
    modifies w`txs, w.index, w.index.repr, w.ledger, w.ledger.repr, rs`states, r, rs.own
    ensures WellFormed(s.wallet.index) && rs.Valid() && rs.list == old(rs.list) && j < |rs.states|
    ensures fresh(w.index.repr - old(w.index.repr)) && fresh(w.ledger.repr - old(w.ledger.repr))
    ensures P.MaySend(old(rs.states)[j], kind) <==> e != Some(NotAllowed)
    ensures SendGuarantee(s, old(rs.states)[j], w.dustLimit, msg, e, events)
    ensures e.Some? ==> rs.states == old(rs.states) && Follows(w, Run(s, events))
    ensures e.None? ==>
              && funded.relationships == old(rs.states) && funded.index == Run(s, events).wallet.index
              && rs.Parties() == P.AfterSend(funded, j, kind)
              && receivers == MessageReceivers(old(rs.states)[j]) && sealedWith == P.SealKey(old(rs.states)[j])
    ensures e.None? && Signed(s.wallet) ==> Follows(w, Step(Run(s, events), Grow(rs.Parties().index)))
  {
    hide *;
    TrackedMode(rs, r, j);
    StateFields(r);
    FollowsIndex(w, s);
    ghost var state := r.State();
    msg, receivers, sealedWith, events, funded := Tx([], []), [], None, [], rs.Parties();
    MayDecide(state, kind);
    if (kind == P.Accept && r.accepted) || (kind == P.Private && !r.accepted) {
      RefusedSend(s, state, w.dustLimit);
      return Some(NotAllowed), msg, receivers, sealedWith, events, funded;
    }
    e, msg, receivers, sealedWith, events := FundMessage(w, rs, r, j, out, s);
    if e.Some? {
      return;
    }
    ghost var u := Run(s, events);
    funded := rs.Parties();
    PartiesAre(rs);
    AdvanceFollowed(w, rs, r, j, kind, u);
    TrackedMode(rs, r, j);
    if Signed(s.wallet) {
      GuaranteeKeepsSigned(s, state, w.dustLimit, msg, e, events);
    }
  }

  lemma MayDecide(r: RelationshipState, kind: P.Kind)
    ensures P.MaySend(r, kind) <==> !((kind == P.Accept && r.accepted) || (kind == P.Private && !r.accepted))
  {
  }

  method AdvanceFollowed(w: Wallet, rs: Relationships, r: Relationship, ghost j: nat, kind: P.Kind, ghost u: RunState)
    requires Follows(w, u) && rs.index == w.index && rs.Valid() && Tracks(rs.list, r, Some(j))
    modifies rs`states, r, rs.own, w.index
    ensures WellFormed(u.wallet.index) && rs.Valid() && fresh(w.index.repr - old(w.index.repr))
    ensures j < |old(rs.states)| && rs.Parties() == P.AfterSend(old(rs.Parties()), j, kind)
    ensures old(rs.Parties().index) == u.wallet.index
    ensures KeysCoherent(u.wallet.index) ==> Follows(w, Step(u, Grow(rs.Parties().index)))
  {
    hide *;
    FollowsParts(w, u);
    PartiesAre(rs);
    ghost var p := rs.Parties();
    AdvanceSent(rs, r, j, kind);
    ValidIndex(rs);
    PartiesAre(rs);
    if KeysCoherent(u.wallet.index) {
      AfterSendIndex(p, j, kind);
      FollowsGrown(w, u);
    }
  }

  lemma PartiesAre(rs: Relationships)
    ensures rs.Parties() == Party(rs.index.state, rs.states)
  {
  }

  lemma ValidIndex(rs: Relationships)
    requires rs.Valid()
    ensures rs.index.Valid()
  {
  }
}
