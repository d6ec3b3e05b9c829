/**
 Accept and private messages: what accept.go and message.go do when one is processed and when one is
 sent. The steps are those of the protocol in Protocol.dfy.
 */
module Messages {
  import opened Results
  import opened Bitcoin
  import opened AddressSpec
  import opened LedgerSpec
  import opened AddressIndexes
  import opened Ratchet
  import opened RatchetLaws
  import opened RelationshipManager
  import P = Protocol

  datatype ProcessFailure = SearchFailed(failure: Failure) | TooManySenders | NoSuchMember

  method MarkAccepted(rs: Relationships, r: Relationship, ghost j: nat)
    requires rs.Valid() && Tracks(rs.list, r, Some(j))
    modifies rs`states, r`accepted
    ensures rs.Valid() && j < |old(rs.states)| && rs.Parties() == P.SetAccepted(old(rs.Parties()), j)
  {
    hide AddressIndex.Valid;
    rs.MembersApart(j);
    AcceptState(r);
    r.accepted := true;
    rs.states := rs.states[j := r.State()];
    AcceptState(r);
  }

  lemma AcceptState(r: Relationship)
    ensures r.State() == r.Core().(members := StatesOf(r.members))
  {
  }

  method MarkMemberAccepted(rs: Relationships, r: Relationship, ghost j: nat, m: nat)
    requires rs.Valid() && Tracks(rs.list, r, Some(j)) && m < |r.members|
    modifies rs`states, r.members
    ensures rs.Valid() && j < |old(rs.states)| && rs.Parties() == P.SetMemberAccepted(old(rs.Parties()), j, m)
  {
    hide AddressIndex.Valid, Relationship.State;
    rs.MembersApart(j);
    TrackedState(rs, r, j);
    r.AcceptMember(m);
    rs.states := rs.states[j := r.State()];
  }

  /** The state after processing an accept message that was matched. */
  function Accepted(m: MatchResult): Party
    requires m.Matched? && m.relationship < |m.party.relationships|
  {
    if m.areSender then P.SetAccepted(m.party, m.relationship)
    else P.SetMemberAccepted(m.party, m.relationship, m.memberIndex)
  }

  /** ProcessAcceptRelationship: the chains move even when the message is then refused. */
  method ProcessAcceptRelationship(rs: Relationships, tx: Tx, senders: seq<nat>, receivers: seq<nat>, flag: Bytes)
    returns (refeed: bool, e: Option<ProcessFailure>)
    requires rs.Valid()
    modifies rs`states, rs.list, rs.own, rs.index
    ensures rs.Valid() && rs.list == old(rs.list) && fresh(rs.index.repr - old(rs.index.repr))
    ensures var m := MatchTx(old(rs.Parties()), tx, senders, receivers, flag);
            match m
            case Unmatched(q, f) => !refeed && e == Some(SearchFailed(f)) && (f != OutputPanic ==> rs.Parties() == q)
            case Matched(q, j, areSender, at) =>
              && j < |q.relationships|
              && (|senders| > 1 ==> e == Some(TooManySenders) && rs.Parties() == q)
              && (|senders| <= 1 ==>
                    var missing := !areSender && at >= |q.relationships[j].members|;
                    && e == (if missing then Some(NoSuchMember) else None)
                    && rs.Parties() == Accepted(m))
              && (refeed <==> e.None? && areSender && q.relationships[j].encryptionType == 1)
  {
    hide AddressIndex.Valid, MatchTx, Relationships.Valid;
    refeed := false;
    var r, areSender, memberIndex, failure;
    ghost var at;
    r, areSender, memberIndex, failure, at := rs.GetRelationshipForTx(tx, senders, receivers, flag);
    if failure.Some? {
      return false, Some(SearchFailed(failure.value));
    }
    TrackedState(rs, r, at.value);
    if |senders| > 1 {
      return false, Some(TooManySenders);
    }
    if areSender {
      MarkAccepted(rs, r, at.value);
    } else if memberIndex < |r.members| {
      MarkMemberAccepted(rs, r, at.value, memberIndex);
    } else {
      return false, Some(NoSuchMember);
    }
    return areSender && r.encryptionType == 1, None;
  }

  lemma TrackedState(rs: Relationships, r: Relationship, j: nat)
    requires rs.Valid() && Tracks(rs.list, r, Some(j))
    ensures j < |rs.states| && |rs.states[j].members| == |r.members| && r in rs.list
    ensures rs.states[j].encryptionType == r.encryptionType
    ensures forall m :: m in r.members ==> m in rs.own
  {
    rs.MembersApart(j);
    AcceptState(r);
  }

  /** ProcessPrivateMessage: only the chains move. */
  method ProcessPrivateMessage(rs: Relationships, tx: Tx, senders: seq<nat>, receivers: seq<nat>, flag: Bytes)
    returns (refeed: bool, e: Option<ProcessFailure>)
    requires rs.Valid()
    modifies rs`states, rs.list, rs.own, rs.index
    ensures rs.Valid() && rs.list == old(rs.list) && fresh(rs.index.repr - old(rs.index.repr))
    ensures var m := MatchTx(old(rs.Parties()), tx, senders, receivers, flag);
            match m
            case Unmatched(q, f) => !refeed && e == Some(SearchFailed(f)) && (f != OutputPanic ==> rs.Parties() == q)
            case Matched(q, j, areSender, at) =>
              && rs.Parties() == q && j < |q.relationships|
              && e == (if |senders| > 1 then Some(TooManySenders)
                       else if !areSender && at >= |q.relationships[j].members| then Some(NoSuchMember)
                       else None)
              && (refeed <==> e.None? && areSender && q.relationships[j].encryptionType == 1)
  {
    hide AddressIndex.Valid, MatchTx, Relationships.Valid;
    var r, areSender, memberIndex, failure;
    ghost var at;
    r, areSender, memberIndex, failure, at := rs.GetRelationshipForTx(tx, senders, receivers, flag);
    if failure.Some? {
      return false, Some(SearchFailed(failure.value));
    }
    TrackedState(rs, r, at.value);
    if |senders| > 1 {
      return false, Some(TooManySenders);
    }
    if !areSender && memberIndex >= |r.members| {
      return false, Some(NoSuchMember);
    }
    return areSender && r.encryptionType == 1, None;
  }

  /** Processing a message with one sender is the delivery step of the protocol. */
  lemma ProcessIsReceive(p: Party, e: P.Entry, m: MatchResult)
    requires m == MatchTx(p, e.tx, [0], e.receivers, FlagOf(e.tx.outputs))
    requires m.Matched? ==> m.relationship < |m.party.relationships|
    ensures P.Receive(p, e) == if m.Matched? && e.kind == P.Accept then Accepted(m) else m.party
  {
  }
}
