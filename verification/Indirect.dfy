/**
 Indirect mode: any number of participants that share a flag. A message moves only its sender's
 chain, and every participant mirrors every other one.
 */
module Indirect {
  import opened Results
  import opened Bitcoin
  import opened AddressSpec
  import opened Ratchet
  import opened RatchetLaws
  import opened Protocol

  /** Message `n` of a participant is signed, and encrypted, with its key of position n + 1. */
  ghost predicate EntryShape(e: Entry, from: PublicKey, seed: Bytes, flag: Bytes, key: Hash32, position: nat)
    requires position >= 1
  {
    && e.position == position && e.receivers == []
    && |e.tx.inputs| > 0
    && UnlockingKey(e.tx.inputs[0]) == Some(NextPublicKey(from, Chain(seed, position)))
    && |e.tx.outputs| > 0 && AddressOf(e.tx.outputs[0].script) == NoAddress
    && FlagOf(e.tx.outputs) == flag
    && e.sealedWith == Some(AddHashes(key, Chain(seed, position)))
  }

  /** What all participants agree on. */
  ghost predicate Shared(s: System, i: nat, k: nat)
    requires Shaped(s) && i < |s.parties| && k < |s.parties|
  {
    && Own(s, i).seed == Own(s, k).seed && Own(s, i).flag == Own(s, k).flag
    && Own(s, i).encryptionKey == Own(s, k).encryptionKey
    && (i != k ==> BaseOf(s, i) != BaseOf(s, k))
  }

  /** Participant `i` mirrors participant `k` at its member `m`, behind by what is on its way. */
  ghost predicate Mirrors(s: System, i: nat, k: nat, m: nat)
    requires Shaped(s) && i < |s.parties| && k < |s.parties|
  {
    && m < |Own(s, i).members|
    && Own(s, i).members[m].baseKey == BaseOf(s, k)
    && Own(s, i).members[m].nextIndex == s.seen[i][k] + 1
  }

  ghost predicate LogInv(s: System, k: nat)
    requires Shaped(s) && k < |s.parties|
  {
    && Own(s, k).nextIndex == |s.sent[k]| + 1
    && forall n :: 0 <= n < |s.sent[k]| ==>
         && EntryShape(s.sent[k][n], BaseOf(s, k), Own(s, k).seed, Own(s, k).flag, Own(s, k).encryptionKey, n + 1)
         && (s.sent[k][n].kind == Accept ==> Own(s, k).accepted)
  }

  ghost predicate OwnInv(s: System, i: nat)
    requires Shaped(s) && i < |s.parties|
  {
    && PartyInv(s.parties[i], s.at[i])
    && Own(s, i).encryptionType != 0 && |Own(s, i).flag| > 0
  }

  /** How participant `i` stands towards participant `k`. */
  ghost predicate PairInv(s: System, i: nat, k: nat)
    requires Shaped(s) && i < |s.parties| && k < |s.parties|
  {
    && Shared(s, i, k)
    && s.seen[i][k] <= |s.sent[k]|
    && (i != k ==> exists m :: Mirrors(s, i, k, m))
    && AcceptNoteSound(s, i, k)
  }

  ghost predicate Inv(s: System) {
    && Shaped(s)
    && (forall i :: 0 <= i < |s.parties| ==> OwnInv(s, i) && LogInv(s, i))
    && (forall i, k :: 0 <= i < |s.parties| && 0 <= k < |s.parties| ==> PairInv(s, i, k))
  }

  // ----- one participant -----

  /** What the receiver becomes, as a fact about the receiver alone. */
  ghost predicate PeerReceived(o: RelationshipState, r: RelationshipState, m: nat, isAccept: bool) {
    && SameRelationship(o, r) && r.accepted == o.accepted && r.nextIndex == o.nextIndex && m < |o.members|
    && (forall a :: 0 <= a < |o.members| && a != m ==> r.members[a] == o.members[a])
    && r.members[m].nextIndex == o.members[m].nextIndex + 1
    && (r.members[m].accepted ==> o.members[m].accepted || isAccept)
  }

  /** An indirect message: only the sender's chain moves, and an accept is noted for the sender. */
  lemma ReceivePeer(p: Party, j: nat, m: nat, e: Entry)
    requires PartyInv(p, j) && |p.relationships[j].flag| > 0 && m < |p.relationships[j].members|
    requires var r := p.relationships[j];
             EntryShape(e, r.members[m].baseKey, r.seed, r.flag, r.encryptionKey, r.members[m].nextIndex)
    ensures var o, q := p.relationships[j], Receive(p, e);
            && PartyInv(q, j) && j < |q.relationships| && q.index.wallet == p.index.wallet
            && PeerReceived(o, q.relationships[j], m, e.kind == Accept)
  {
    var r := p.relationships[j];
    ReceiveIndirect(p, j, m, e.tx, r.members[m].nextIndex);
    SetMemberAcceptedInv(Received(p, j, m, r.members[m].nextIndex, false), j, m);
  }

  lemma ReceiveSelf(p: Party, j: nat, e: Entry, position: nat)
    requires PartyInv(p, j) && 1 <= position < p.relationships[j].nextIndex
    requires var r := p.relationships[j];
             && EntryShape(e, ChildKey(p.index.wallet, r.keyType, r.keyIndex), r.seed, r.flag, r.encryptionKey, position)
             && (e.kind == Accept ==> r.accepted)
    ensures Receive(p, e) == p
  {
    var r := p.relationships[j];
    assert OwnKey(r, p.index.wallet, position) == UnlockingKey(e.tx.inputs[0]).value;
    StaleTxIdle(p, j, position, e.tx, [], r.flag);
    assert r.accepted ==> p.relationships[j := r.(accepted := true)] == p.relationships;
  }

  lemma SentShape(p: Party, j: nat, kind: Kind, dust: nat, point: OutPoint, funding: seq<TxIn>, change: seq<TxOut>)
    requires PartyInv(p, j) && NoFlag(change)
    requires p.relationships[j].encryptionType != 0 && |p.relationships[j].flag| > 0
    ensures var r := p.relationships[j];
            EntryShape(MessageEntry(r, kind, dust, point, funding, change),
                       ChildKey(p.index.wallet, r.keyType, r.keyIndex), r.seed, r.flag, r.encryptionKey, r.nextIndex)
  {
    var r := p.relationships[j];
    MessageFlag(r, dust, point, funding, change);
    assert MessageTx(r, dust, point, funding, change).outputs[0] == TxOut(0, Flag(r.flag));
  }

  // ----- keeping the pieces of the invariant -----

  /** Participant `i` became something else of the same identity; the others stayed. */
  ghost predicate OneChanged(s: System, t: System, i: nat) {
    && Shaped(s) && Shaped(t) && |t.parties| == |s.parties| && i < |s.parties| && t.at == s.at
    && (forall k :: 0 <= k < |s.parties| && k != i ==> t.parties[k] == s.parties[k])
    && t.parties[i].index.wallet == s.parties[i].index.wallet
    && SameRelationship(Own(s, i), Own(t, i))
    && PartyInv(t.parties[i], t.at[i])
  }

  lemma IdentityKept(s: System, t: System, i: nat, k: nat)
    requires OneChanged(s, t, i) && k < |s.parties|
    ensures BaseOf(t, k) == BaseOf(s, k) && SameRelationship(Own(s, k), Own(t, k))
    ensures k != i ==> Own(t, k) == Own(s, k)
    ensures OwnInv(s, k) ==> OwnInv(t, k)
  {
  }

  lemma SharedKept(s: System, t: System, i: nat, a: nat, b: nat)
    requires OneChanged(s, t, i) && a < |s.parties| && b < |s.parties| && Shared(s, a, b)
    ensures Shared(t, a, b)
  {
    IdentityKept(s, t, i, a);
    IdentityKept(s, t, i, b);
  }

  lemma LogKept(s: System, t: System, i: nat, k: nat)
    requires OneChanged(s, t, i) && k < |s.parties| && LogInv(s, k)
    requires t.sent[k] == s.sent[k] && Own(t, k).nextIndex == Own(s, k).nextIndex
    ensures LogInv(t, k)
  {
    IdentityKept(s, t, i, k);
  }

  /** A pair is kept when its members, apart from what it sent, are the same. */
  lemma PairKept(s: System, t: System, i: nat, a: nat, b: nat)
    requires OneChanged(s, t, i) && a < |s.parties| && b < |s.parties| && PairInv(s, a, b)
    requires Own(t, a).members == Own(s, a).members
    requires t.seen[a][b] == s.seen[a][b] && |t.sent[b]| >= |s.sent[b]|
    ensures PairInv(t, a, b)
  {
    IdentityKept(s, t, i, a);
    IdentityKept(s, t, i, b);
    SharedKept(s, t, i, a, b);
    if a != b {
      var m :| Mirrors(s, a, b, m);
      assert Mirrors(t, a, b, m);
    }
  }

  // ----- events -----

  lemma SendChanges(s: System, e: Event)
    requires Inv(s) && e.Send? && e.from < |s.parties|
    requires NoFlag(e.change) && MaySend(Own(s, e.from), e.kind)
    ensures var t := Step(s, e);
            && OneChanged(s, t, e.from)
            && Own(t, e.from).members == Own(s, e.from).members
            && t.seen == s.seen && LogInv(t, e.from)
            && (forall k :: 0 <= k < |s.parties| ==>
                  |t.sent[k]| >= |s.sent[k]| && (k != e.from ==> t.sent[k] == s.sent[k]))
  {
    var i := e.from;
    var t := Step(s, e);
    assert OwnInv(s, i) && LogInv(s, i);
    AfterSendInv(s.parties[i], s.at[i], e.kind);
    SentShape(s.parties[i], s.at[i], e.kind, e.dust, e.point, e.funding, e.change);
    hide PartyInv, EntryShape, AfterSend;
    assert t.parties[i] == AfterSend(s.parties[i], s.at[i], e.kind);
    assert OneChanged(s, t, i);
    assert BaseOf(t, i) == BaseOf(s, i);
  }

  lemma SendKeepsInv(s: System, e: Event)
    requires Inv(s) && e.Send? && e.from < |s.parties|
    requires NoFlag(e.change) && MaySend(Own(s, e.from), e.kind)
    ensures Inv(Step(s, e))
  {
    hide Step, OwnInv, LogInv, PairInv, OneChanged, PartyInv;
    var t := Step(s, e);
    SendChanges(s, e);
    ChangedShape(s, t, e.from);
    forall k | 0 <= k < |t.parties| ensures OwnInv(t, k) && LogInv(t, k) {
      IdentityKept(s, t, e.from, k);
      if k != e.from {
        LogKept(s, t, e.from, k);
      }
    }
    forall a, b | 0 <= a < |t.parties| && 0 <= b < |t.parties| ensures PairInv(t, a, b) {
      IdentityKept(s, t, e.from, a);
      PairKept(s, t, e.from, a, b);
    }
  }

  lemma ChangedShape(s: System, t: System, i: nat)
    requires OneChanged(s, t, i)
    ensures Shaped(t) && |t.parties| == |s.parties|
  {
  }

  lemma UnrelatedChanges(s: System, e: Event)
    requires Inv(s) && e.Unrelated? && e.who < |s.parties| && Undisturbed(s.parties[e.who], e.next, s.at[e.who])
    ensures var t := Step(s, e);
            && OneChanged(s, t, e.who) && Own(t, e.who) == Own(s, e.who)
            && t.seen == s.seen && t.sent == s.sent
  {
  }

  lemma UnrelatedKeepsInv(s: System, e: Event)
    requires Inv(s) && e.Unrelated? && e.who < |s.parties| && Undisturbed(s.parties[e.who], e.next, s.at[e.who])
    ensures Inv(Step(s, e))
  {
    hide Step, OwnInv, LogInv, PairInv, OneChanged, PartyInv;
    var t := Step(s, e);
    UnrelatedChanges(s, e);
    ChangedShape(s, t, e.who);
    forall k | 0 <= k < |t.parties| ensures OwnInv(t, k) && LogInv(t, k) {
      IdentityKept(s, t, e.who, k);
      LogKept(s, t, e.who, k);
    }
    forall a, b | 0 <= a < |t.parties| && 0 <= b < |t.parties| ensures PairInv(t, a, b) {
      IdentityKept(s, t, e.who, a);
      PairKept(s, t, e.who, a, b);
    }
  }

  /** What a delivery changes: the receiver's mirror of the sender, by one position. */
  ghost predicate Moved(s: System, t: System, i: nat, k: nat)
    requires Shaped(s) && Shaped(t) && |t.parties| == |s.parties| && i < |s.parties| && k < |s.parties|
  {
    && Own(t, i).nextIndex == Own(s, i).nextIndex
    && |Own(t, i).members| == |Own(s, i).members|
    && (forall m :: 0 <= m < |Own(s, i).members| && Own(s, i).members[m].baseKey != BaseOf(s, k) ==>
          Own(t, i).members[m] == Own(s, i).members[m])
    && (i != k ==> exists m :: Mirrors(t, i, k, m))
    && AcceptNoteSound(t, i, k)
  }

  lemma SelfChanges(s: System, i: nat)
    requires Inv(s) && i < |s.parties| && !Delivered(s, i, i)
    ensures Step(s, Deliver(i, i)).parties == s.parties
  {
    var n := s.seen[i][i];
    assert OwnInv(s, i) && LogInv(s, i) && PairInv(s, i, i);
    assert EntryShape(s.sent[i][n], BaseOf(s, i), Own(s, i).seed, Own(s, i).flag, Own(s, i).encryptionKey, n + 1);
    ReceiveSelf(s.parties[i], s.at[i], s.sent[i][n], n + 1);
    hide PartyInv, EntryShape, Receive;
    assert s.parties[i := s.parties[i]] == s.parties;
  }

  lemma SelfMoved(s: System, t: System, i: nat)
    requires Inv(s) && i < |s.parties| && Shaped(t) && t.at == s.at && t.parties == s.parties
    ensures OneChanged(s, t, i) && Moved(s, t, i, i)
  {
    assert OwnInv(s, i) && PairInv(s, i, i);
    hide PartyInv;
  }

  lemma PeerStep(s: System, i: nat, k: nat, m: nat)
    requires Inv(s) && i < |s.parties| && k < |s.parties| && !Delivered(s, i, k) && i != k
    requires Mirrors(s, i, k, m)
    ensures var t := Step(s, Deliver(i, k));
            && OneChanged(s, t, i)
            && PeerReceived(Own(s, i), Own(t, i), m, s.sent[k][s.seen[i][k]].kind == Accept)
            && (s.sent[k][s.seen[i][k]].kind == Accept ==> Own(s, k).accepted)
  {
    NextEntry(s, i, k, m);
    hide PartyInv, EntryShape, Receive, Inv, SameRelationship, PeerReceived;
    ReceivePeer(s.parties[i], s.at[i], m, s.sent[k][s.seen[i][k]]);
    SameIdentity(Own(s, i), Own(Step(s, Deliver(i, k)), i), m, s.sent[k][s.seen[i][k]].kind == Accept);
  }

  lemma SameIdentity(o: RelationshipState, r: RelationshipState, m: nat, isAccept: bool)
    requires PeerReceived(o, r, m, isAccept)
    ensures SameRelationship(o, r)
  {
  }

  /** The next message for `i` from `k` is the one its mirror expects. */
  lemma NextEntry(s: System, i: nat, k: nat, m: nat)
    requires Inv(s) && i < |s.parties| && k < |s.parties| && !Delivered(s, i, k) && i != k
    requires Mirrors(s, i, k, m)
    ensures Shaped(s) && PartyInv(s.parties[i], s.at[i]) && |Own(s, i).flag| > 0
    ensures var e, r := s.sent[k][s.seen[i][k]], Own(s, i);
            && EntryShape(e, r.members[m].baseKey, r.seed, r.flag, r.encryptionKey, r.members[m].nextIndex)
            && (e.kind == Accept ==> Own(s, k).accepted)
  {
    var n := s.seen[i][k];
    assert OwnInv(s, i) && LogInv(s, k) && PairInv(s, i, k);
    hide PartyInv;
    assert EntryShape(s.sent[k][n], BaseOf(s, k), Own(s, k).seed, Own(s, k).flag, Own(s, k).encryptionKey, n + 1);
  }

  lemma PeerMoved(s: System, t: System, i: nat, k: nat, m: nat, isAccept: bool)
    requires Inv(s) && OneChanged(s, t, i) && k < |s.parties| && i != k && Mirrors(s, i, k, m)
    requires t.seen[i][k] == s.seen[i][k] + 1
    requires PeerReceived(Own(s, i), Own(t, i), m, isAccept) && (isAccept ==> Own(s, k).accepted)
    ensures Moved(s, t, i, k)
  {
    assert PairInv(s, i, k);
    MirrorUnique(s, i, k, m) by { assert OwnInv(s, i); }
    IdentityKept(s, t, i, k);
    hide Inv, OneChanged, PairInv;
    assert Mirrors(t, i, k, m);
  }

  lemma PeerChanges(s: System, i: nat, k: nat, m: nat)
    requires Inv(s) && i < |s.parties| && k < |s.parties| && !Delivered(s, i, k) && i != k
    requires Mirrors(s, i, k, m)
    ensures var t := Step(s, Deliver(i, k));
            OneChanged(s, t, i) && Moved(s, t, i, k)
  {
    var t := Step(s, Deliver(i, k));
    hide OneChanged, PeerReceived, Moved, Inv, Receive;
    PeerStep(s, i, k, m);
    assert t.seen[i][k] == s.seen[i][k] + 1;
    PeerMoved(s, t, i, k, m, s.sent[k][s.seen[i][k]].kind == Accept);
  }

  lemma DeliverChanges(s: System, i: nat, k: nat)
    requires Inv(s) && i < |s.parties| && k < |s.parties| && !Delivered(s, i, k)
    ensures var t := Step(s, Deliver(i, k));
            && OneChanged(s, t, i) && t.sent == s.sent && Moved(s, t, i, k)
            && t.seen[i][k] == s.seen[i][k] + 1
            && (forall a, b :: 0 <= a < |s.parties| && 0 <= b < |s.parties| && !(a == i && b == k) ==>
                  t.seen[a][b] == s.seen[a][b])
  {
    hide OwnInv, LogInv, PartyInv, OneChanged, Moved, Receive;
    var t := Step(s, Deliver(i, k));
    if i == k {
      SelfChanges(s, i);
      SelfMoved(s, t, i);
    } else {
      assert PairInv(s, i, k);
      var m :| Mirrors(s, i, k, m);
      PeerChanges(s, i, k, m);
    }
  }

  /** No other member of `i` carries the base key of `k`. */
  lemma MirrorUnique(s: System, i: nat, k: nat, m: nat)
    requires Shaped(s) && i < |s.parties| && k < |s.parties| && OwnInv(s, i) && Mirrors(s, i, k, m)
    ensures forall a :: 0 <= a < |Own(s, i).members| && a != m ==> Own(s, i).members[a].baseKey != BaseOf(s, k)
  {
    assert ForeignMembers(Own(s, i), s.parties[i].index.wallet);
  }

  lemma MovedPair(s: System, t: System, i: nat, k: nat, b: nat)
    requires Inv(s) && OneChanged(s, t, i) && k < |s.parties| && b < |s.parties| && b != k
    requires Moved(s, t, i, k) && t.seen[i][b] == s.seen[i][b] && t.sent == s.sent
    ensures PairInv(t, i, b)
  {
    assert PairInv(s, i, b) && PairInv(s, k, b);
    IdentityKept(s, t, i, i);
    IdentityKept(s, t, i, b);
    SharedKept(s, t, i, i, b);
    if i != b {
      var m :| Mirrors(s, i, b, m);
      assert Mirrors(t, i, b, m);
    }
    forall m | 0 <= m < |Own(t, i).members| && Own(t, i).members[m].baseKey == BaseOf(t, b)
      ensures Own(t, i).members[m] == Own(s, i).members[m]
    {
      assert Own(s, i).members[m].baseKey != BaseOf(s, k);
    }
  }

  lemma DeliverKeepsInv(s: System, i: nat, k: nat)
    requires Inv(s) && i < |s.parties| && k < |s.parties| && !Delivered(s, i, k)
    ensures Inv(Step(s, Deliver(i, k)))
  {
    hide Step, OwnInv, LogInv, OneChanged, PartyInv;
    var t := Step(s, Deliver(i, k));
    DeliverChanges(s, i, k);
    ChangedShape(s, t, i);
    forall a | 0 <= a < |t.parties| ensures OwnInv(t, a) && LogInv(t, a) {
      IdentityKept(s, t, i, a);
      LogKept(s, t, i, a);
    }
    forall a, b | 0 <= a < |t.parties| && 0 <= b < |t.parties| ensures PairInv(t, a, b) {
      IdentityKept(s, t, i, a);
      assert PairInv(s, a, b);
      if a != i {
        PairKept(s, t, i, a, b);
      } else if b != k {
        MovedPair(s, t, i, k, b);
      } else {
        SharedKept(s, t, i, a, b);
      }
    }
  }

  lemma StepKeepsInv(s: System, e: Event)
    requires Inv(s)
    ensures Inv(Step(s, e))
  {
    match e
    case Send(i, kind, _, _, _, change) =>
      if i < |s.parties| && NoFlag(change) && MaySend(Own(s, i), kind) { SendKeepsInv(s, e); }
    case Deliver(i, k) =>
      if i < |s.parties| && k < |s.parties| && !Delivered(s, i, k) { DeliverKeepsInv(s, i, k); }
    case Unrelated(i, q) =>
      if i < |s.parties| && Undisturbed(s.parties[i], q, s.at[i]) { UnrelatedKeepsInv(s, e); }
  }

  // ----- runs -----

  ghost function Run(s: System, events: seq<Event>): (t: System)
    requires Inv(s)
    ensures Inv(t)
  {
    if events == [] then s
    else
      var before := Run(s, events[..|events| - 1]);
      StepKeepsInv(before, events[|events| - 1]);
      Step(before, events[|events| - 1])
  }

  lemma OwnChain(s: System, i: nat)
    requires Inv(s) && i < |s.parties|
    ensures OnChain(Own(s, i), s.parties[i].index.wallet)
    ensures ForeignMembers(Own(s, i), s.parties[i].index.wallet)
  {
    assert OwnInv(s, i);
  }

  /**
   In every run a mirror is behind the chain it mirrors by exactly the messages on their way, so it
   never passes it and equals it, hash and key included, once all have arrived.
   */
  lemma MirrorsAgree(s: System, events: seq<Event>, i: nat, k: nat, m: nat)
    requires Inv(s)
    ensures var t := Run(s, events);
            i < |t.parties| && k < |t.parties| && i != k && m < |Own(t, i).members|
            && Own(t, i).members[m].baseKey == BaseOf(t, k) ==>
              var mirror, own := Own(t, i).members[m], Own(t, k);
              && mirror.nextIndex + (|t.sent[k]| - t.seen[i][k]) == own.nextIndex
              && t.seen[i][k] <= |t.sent[k]|
              && (Delivered(t, i, k) ==>
                    mirror.nextIndex == own.nextIndex && mirror.nextHash == own.nextHash
                    && mirror.nextKey == own.nextKey)
  {
    var t := Run(s, events);
    if i < |t.parties| && k < |t.parties| && i != k && m < |Own(t, i).members|
       && Own(t, i).members[m].baseKey == BaseOf(t, k) {
      assert PairInv(t, i, k) && OwnInv(t, i) && OwnInv(t, k) && LogInv(t, k);
      var a :| Mirrors(t, i, k, a);
      MirrorUnique(t, i, k, a);
      assert MemberOnChain(Own(t, i).members[m], Own(t, i).seed);
    }
  }

  /**
   In every run, the participant a message is delivered to, the sender included, finds for it exactly
   the key the sender encrypted it with.
   */
  lemma DeliveredKeyDecrypts(s: System, events: seq<Event>, i: nat, k: nat)
    requires Inv(s)
    ensures var t := Run(s, events);
            i < |t.parties| && k < |t.parties| && !Delivered(t, i, k) ==>
              var e := t.sent[k][t.seen[i][k]];
              && e.sealedWith.Some? && |e.tx.inputs| > 0 && UnlockingKey(e.tx.inputs[0]).Some?
              && FindEncryptionKey(Own(t, i), t.parties[i].index.wallet, UnlockingKey(e.tx.inputs[0]).value) ==
                 Ok(e.sealedWith.value)
  {
    hide Step, Run, PartyInv, OnChain, ForeignMembers, FindEncryptionKey;
    var t := Run(s, events);
    if i < |t.parties| && k < |t.parties| && !Delivered(t, i, k) {
      OwnChain(t, i);
      var r, wallet := Own(t, i), t.parties[i].index.wallet;
      var n := t.seen[i][k];
      assert OwnInv(t, i) && LogInv(t, k) && PairInv(t, i, k);
      assert EntryShape(t.sent[k][n], BaseOf(t, k), Own(t, k).seed, Own(t, k).flag, Own(t, k).encryptionKey, n + 1);
      if i == k {
        OwnEncryptionKey(r, wallet, n + 1);
      } else {
        var m :| Mirrors(t, i, k, m);
        MemberEncryptionKey(r, wallet, m, n + 1);
      }
    }
  }

  /** In every run, a member is noted as accepted only if that participant accepted. */
  lemma AcceptNotesSound(s: System, events: seq<Event>, i: nat, k: nat)
    requires Inv(s)
    ensures var t := Run(s, events);
            i < |t.parties| && k < |t.parties| ==> AcceptNoteSound(t, i, k)
  {
    var t := Run(s, events);
    if i < |t.parties| && k < |t.parties| {
      assert PairInv(t, i, k);
    }
  }
}
