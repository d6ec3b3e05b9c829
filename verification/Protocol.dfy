/**
 Runs of several participants of one relationship. Each participant's transactions reach every other
 participant in the order they were sent; otherwise sends and deliveries interleave freely. A
 participant also sees its own transactions, like everyone else's, through the network.
 */
module Protocol {
  import opened Results
  import opened Bitcoin
  import opened AddressSpec
  import opened Ratchet
  import opened RatchetLaws

  datatype Kind = Accept | Private

  /**
   A sent transaction, with the public message that comes with it and, in indirect mode, the key its
   private part is encrypted with.
   */
  datatype Entry = Entry(tx: Tx, receivers: seq<nat>, kind: Kind, position: nat, sealedWith: Option<Hash32>)

  /**
   `at[i]` is where participant i stores the relationship, `sent[i]` what it sent, `seen[i][k]` how
   many of participant k's transactions it has processed.
   */
  datatype System = System(
    parties: seq<Party>,
    at: seq<nat>,
    sent: seq<seq<Entry>>,
    seen: seq<seq<nat>>)

  datatype Event =
    | Send(from: nat, kind: Kind, dust: nat, point: OutPoint, funding: seq<TxIn>, change: seq<TxOut>)
    | Deliver(to: nat, from: nat)
    | Unrelated(who: nat, next: Party)

  predicate Shaped(s: System) {
    && |s.at| == |s.sent| == |s.seen| == |s.parties|
    && (forall i :: 0 <= i < |s.parties| ==> s.at[i] < |s.parties[i].relationships|)
    && (forall i :: 0 <= i < |s.parties| ==> |s.seen[i]| == |s.parties|)
  }

  function Own(s: System, i: nat): RelationshipState
    requires Shaped(s) && i < |s.parties|
  {
    s.parties[i].relationships[s.at[i]]
  }

  /** The base key of a participant in this relationship. */
  function BaseOf(s: System, i: nat): PublicKey
    requires Shaped(s) && i < |s.parties|
  {
    ChildKey(s.parties[i].index.wallet, Own(s, i).keyType, Own(s, i).keyIndex)
  }

  function SetAccepted(p: Party, j: nat): Party
    requires j < |p.relationships|
  {
    p.(relationships := p.relationships[j := p.relationships[j].(accepted := true)])
  }

  function SetMemberAccepted(p: Party, j: nat, m: nat): Party
    requires j < |p.relationships|
  {
    var ms := p.relationships[j].members;
    if m < |ms| then WithMembers(p, j, ms[m := ms[m].(accepted := true)]) else p
  }

  /** AcceptRelationship refuses when already accepted, SendMessage when not yet accepted. */
  predicate MaySend(r: RelationshipState, kind: Kind) {
    if kind == Accept then !r.accepted else r.accepted
  }

  /** The sender after the step, accepted when the message was an accept. */
  function AfterSend(p: Party, j: nat, kind: Kind): (q: Party)
    requires j < |p.relationships|
    ensures |q.relationships| == |p.relationships|
  {
    if kind == Accept then SetAccepted(SendStep(p, j), j) else SendStep(p, j)
  }

  /** ProcessAcceptRelationship and ProcessPrivateMessage. */
  function Receive(p: Party, e: Entry): Party {
    match MatchTx(p, e.tx, [0], e.receivers, FlagOf(e.tx.outputs))
    case Unmatched(q, _) => q
    case Matched(q, j, areSender, m) =>
      if e.kind == Private || j >= |q.relationships| then q
      else if areSender then SetAccepted(q, j)
      else SetMemberAccepted(q, j, m)
  }

  /** Direct messages are encrypted to the members' keys, indirect ones with a key of the relationship. */
  function SealKey(r: RelationshipState): Option<Hash32> {
    if r.encryptionType == 0 then None else Some(AddHashes(r.encryptionKey, r.nextHash))
  }

  /** What a send adds to the log. */
  function MessageEntry(r: RelationshipState, kind: Kind, dust: nat, point: OutPoint, funding: seq<TxIn>, change: seq<TxOut>)
    : Entry
  {
    Entry(MessageTx(r, dust, point, funding, change), MessageReceivers(r), kind, r.nextIndex, SealKey(r))
  }

  /** Something else happened to a participant: its wallet grew, other relationships changed. */
  ghost predicate Undisturbed(p: Party, q: Party, j: nat) {
    && PartyInv(q, j) && j < |p.relationships|
    && q.index.wallet == p.index.wallet
    && q.relationships[j] == p.relationships[j]
  }

  ghost function Step(s: System, e: Event): System
    requires Shaped(s)
  {
    match e
    case Send(i, kind, dust, point, funding, change) =>
      if i < |s.parties| && NoFlag(change) && MaySend(Own(s, i), kind) then
        var r := Own(s, i);
        var entry := MessageEntry(r, kind, dust, point, funding, change);
        s.(parties := s.parties[i := AfterSend(s.parties[i], s.at[i], kind)],
           sent := s.sent[i := s.sent[i] + [entry]])
      else s
    case Deliver(i, k) =>
      if i < |s.parties| && k < |s.parties| && s.seen[i][k] < |s.sent[k]| then
        s.(parties := s.parties[i := Receive(s.parties[i], s.sent[k][s.seen[i][k]])],
           seen := s.seen[i := s.seen[i][k := s.seen[i][k] + 1]])
      else s
    case Unrelated(i, q) =>
      if i < |s.parties| && Undisturbed(s.parties[i], q, s.at[i])
      then s.(parties := s.parties[i := q])
      else s
  }

  /** Nothing of `from` is on its way to `to`. */
  predicate Delivered(s: System, to: nat, from: nat)
    requires Shaped(s) && to < |s.parties| && from < |s.parties|
  {
    s.seen[to][from] >= |s.sent[from]|
  }

  /** Participant `i` notes that participant `k` accepted only if it did. */
  ghost predicate AcceptNoteSound(s: System, i: nat, k: nat)
    requires Shaped(s) && i < |s.parties| && k < |s.parties|
  {
    forall m :: 0 <= m < |Own(s, i).members| ==>
      var note := Own(s, i).members[m];
      note.baseKey == BaseOf(s, k) && note.accepted ==> Own(s, k).accepted
  }

  // ----- one participant at a time -----

  lemma SetAcceptedInv(p: Party, j: nat)
    requires PartyInv(p, j)
    ensures PartyInv(SetAccepted(p, j), j)
  {
    var o := p.relationships[j];
    SearchesKept(p, j, o.(accepted := true));
    forall k | 1 <= k <= o.nextIndex ensures RegisteredAt(p.index, o.(accepted := true), k) {
      assert RegisteredAt(p.index, o, k);
    }
  }

  lemma SetMemberAcceptedInv(p: Party, j: nat, m: nat)
    requires PartyInv(p, j)
    ensures PartyInv(SetMemberAccepted(p, j, m), j)
  {
    var ms := p.relationships[j].members;
    if m < |ms| {
      assert MemberOnChain(ms[m], p.relationships[j].seed);
      WithMembersInv(p, j, ms[m := ms[m].(accepted := true)]);
    }
  }

  /** What never changes about a stored relationship. */
  predicate SameRelationship(o: RelationshipState, r: RelationshipState) {
    && r.keyType == o.keyType && r.keyIndex == o.keyIndex && r.seed == o.seed && r.flag == o.flag
    && r.encryptionType == o.encryptionType && r.encryptionKey == o.encryptionKey
    && |r.members| == |o.members|
    && (forall m :: 0 <= m < |o.members| ==> r.members[m].baseKey == o.members[m].baseKey)
    && (o.accepted ==> r.accepted)
  }

  lemma AfterSendInv(p: Party, j: nat, kind: Kind)
    requires PartyInv(p, j)
    ensures PartyInv(AfterSend(p, j, kind), j)
    ensures AfterSend(p, j, kind).index.wallet == p.index.wallet
    ensures var o, r := p.relationships[j], AfterSend(p, j, kind).relationships[j];
            && SameRelationship(o, r)
            && r.nextIndex == o.nextIndex + 1
            && r.members == (if o.encryptionType == 0 then AdvanceMembers(o.members) else o.members)
            && r.accepted == (o.accepted || kind == Accept)
  {
    SendStepInv(p, j);
    SetAcceptedInv(SendStep(p, j), j);
  }
}
