/**
 Direct mode: two participants, and every message moves the sender's and the receiver's chain
 together. Whatever the interleaving, the positions of the two sides converge.
 */
module Direct {
  import opened Results
  import opened Bitcoin
  import opened AddressSpec
  import opened Ratchet
  import opened RatchetLaws
  import opened Protocol

  function Position(s: System, i: nat): nat
    requires Shaped(s) && i < |s.parties|
  {
    Own(s, i).nextIndex
  }

  /** A sent message carries the sender's and the receiver's key of one and the same position. */
  ghost predicate EntryShape(e: Entry, from: PublicKey, to: PublicKey, seed: Bytes) {
    && e.position >= 1 && e.receivers == [0]
    && |e.tx.inputs| > 0
    && UnlockingKey(e.tx.inputs[0]) == Some(NextPublicKey(from, Chain(seed, e.position)))
    && |e.tx.outputs| > 0
    && AddressOf(e.tx.outputs[0].script) == PayToKey(NextPublicKey(to, Chain(seed, e.position)))
    && FlagOf(e.tx.outputs) == []
  }

  /** The two sides, in either order. */
  predicate Sides(s: System, i: nat, o: nat) {
    Shaped(s) && |s.parties| == 2 && i < 2 && o < 2 && i != o
  }

  /** One side: its own chain and its mirror of the other side stand at the same position. */
  ghost predicate SideInv(s: System, i: nat, o: nat)
    requires Sides(s, i, o)
  {
    var r := Own(s, i);
    && PartyInv(s.parties[i], s.at[i])
    && r.encryptionType == 0 && r.flag == [] && |r.members| == 1
    && r.seed == Own(s, o).seed
    && r.members[0].baseKey == BaseOf(s, o)
    && r.members[0].nextIndex == r.nextIndex
    && (r.members[0].accepted ==> Own(s, o).accepted)
  }

  /** What one side sent: positions rise, all behind its own position. */
  ghost predicate LogInv(s: System, i: nat, o: nat)
    requires Sides(s, i, o)
  {
    && s.seen[o][i] <= |s.sent[i]| && s.seen[i][i] <= |s.sent[i]|
    && (forall n :: 0 <= n < |s.sent[i]| ==>
          && EntryShape(s.sent[i][n], BaseOf(s, i), BaseOf(s, o), Own(s, i).seed)
          && s.sent[i][n].position < Position(s, i)
          && (s.sent[i][n].kind == Accept ==> Own(s, i).accepted))
    && (forall m, n :: 0 <= m < n < |s.sent[i]| ==> s.sent[i][m].position < s.sent[i][n].position)
  }

  /** Position `v` is still on its way from side `i` to side `o`. */
  ghost predicate InFlight(s: System, i: nat, o: nat, v: nat)
    requires Sides(s, i, o)
  {
    exists n :: s.seen[o][i] <= n < |s.sent[i]| && s.sent[i][n].position == v
  }

  /** No gap: whatever side `i` is ahead of side `o` is on its way. */
  ghost predicate NoGap(s: System, i: nat, o: nat)
    requires Sides(s, i, o)
  {
    forall v :: Position(s, o) <= v < Position(s, i) ==> InFlight(s, i, o, v)
  }

  ghost predicate PairInv(s: System, i: nat, o: nat) {
    Sides(s, i, o) && SideInv(s, i, o) && LogInv(s, i, o) && NoGap(s, i, o)
  }

  ghost predicate Inv(s: System) {
    PairInv(s, 0, 1) && PairInv(s, 1, 0)
  }

  /** Nothing on its way is behind the next message. */
  lemma FlightStartsAtNext(s: System, from: nat, to: nat, v: nat)
    requires PairInv(s, from, to) && InFlight(s, from, to, v)
    ensures !Delivered(s, to, from) && s.sent[from][s.seen[to][from]].position <= v
  {
    var n :| s.seen[to][from] <= n < |s.sent[from]| && s.sent[from][n].position == v;
    assert n == s.seen[to][from] || s.sent[from][s.seen[to][from]].position < s.sent[from][n].position;
  }

  /** The next message of `from` is not ahead of the receiver: its key is already registered. */
  lemma NextIsRegistered(s: System, to: nat, from: nat)
    requires PairInv(s, from, to) && PairInv(s, to, from) && !Delivered(s, to, from)
    ensures var e := s.sent[from][s.seen[to][from]];
            && 1 <= e.position <= Position(s, to)
            && RegisteredAt(s.parties[to].index, Own(s, to), e.position)
  {
    var e := s.sent[from][s.seen[to][from]];
    assert EntryShape(e, BaseOf(s, from), BaseOf(s, to), Own(s, from).seed);
    if Position(s, to) < Position(s, from) {
      FlightStartsAtNext(s, from, to, Position(s, to));
    }
  }

  // ----- steps -----

  /** The party after processing a message of the other side. */
  lemma ReceivePeer(p: Party, j: nat, e: Entry)
    requires PartyInv(p, j) && p.relationships[j].flag == [] && |p.relationships[j].members| == 1
    requires var r := p.relationships[j];
             && EntryShape(e, r.members[0].baseKey, ChildKey(p.index.wallet, r.keyType, r.keyIndex), r.seed)
             && e.position <= r.nextIndex == r.members[0].nextIndex
    ensures var o, q := p.relationships[j], Receive(p, e);
            && PartyInv(q, j) && q.index.wallet == p.index.wallet
            && var r := q.relationships[j];
               && SameRelationship(o, r) && r.accepted == o.accepted
               && r.nextIndex == r.members[0].nextIndex ==
                    (if e.position == o.nextIndex then o.nextIndex + 1 else o.nextIndex)
               && (r.members[0].accepted ==> o.members[0].accepted || e.kind == Accept)
  {
    var r := p.relationships[j];
    ReceiveDirect(p, j, e.tx, e.position, e.position);
    var next := Received(p, j, 0, e.position, e.position == r.nextIndex);
    SetMemberAcceptedInv(next, j, 0);
  }

  /** A participant seeing its own message again. */
  lemma ReceiveSelf(p: Party, j: nat, e: Entry)
    requires PartyInv(p, j) && p.relationships[j].flag == [] && |p.relationships[j].members| == 1
    requires var r := p.relationships[j];
             && EntryShape(e, ChildKey(p.index.wallet, r.keyType, r.keyIndex), r.members[0].baseKey, r.seed)
             && e.position < r.nextIndex == r.members[0].nextIndex
             && (e.kind == Accept ==> r.accepted)
    ensures Receive(p, e) == p
  {
    var r := p.relationships[j];
    assert OwnKey(r, p.index.wallet, e.position) == UnlockingKey(e.tx.inputs[0]).value;
    MemberKeyInjective(r, p.index.wallet, 0, e.position);
    StaleTxIdle(p, j, e.position, e.tx, [0], []);
    assert r.accepted ==> p.relationships[j := r.(accepted := true)] == p.relationships;
  }

  /** The message a direct send adds to the log. */
  lemma SentShape(p: Party, j: nat, kind: Kind, dust: nat, point: OutPoint, funding: seq<TxIn>, change: seq<TxOut>)
    requires PartyInv(p, j) && NoFlag(change)
    requires var r := p.relationships[j]; r.encryptionType == 0 && r.flag == [] && |r.members| == 1
    requires var r := p.relationships[j]; r.members[0].nextIndex == r.nextIndex
    ensures var r := p.relationships[j];
            EntryShape(MessageEntry(r, kind, dust, point, funding, change),
                       ChildKey(p.index.wallet, r.keyType, r.keyIndex), r.members[0].baseKey, r.seed)
  {
    var r := p.relationships[j];
    MessageFlag(r, dust, point, funding, change);
    assert MemberOnChain(r.members[0], r.seed);
    assert MessageTx(r, dust, point, funding, change).outputs[0] == MemberOutputs(r.members, dust)[0];
  }

  /** Side `i` became `q`, everything else about the two participants stayed. */
  ghost predicate SideChanged(s: System, t: System, i: nat, o: nat) {
    && Sides(s, i, o) && Sides(t, i, o) && t.at == s.at
    && t.parties[o] == s.parties[o]
    && t.parties[i].index.wallet == s.parties[i].index.wallet
    && SameRelationship(Own(s, i), Own(t, i))
    && PartyInv(t.parties[i], t.at[i])
    && Own(t, i).members[..] != []
    && Own(t, i).members[0].nextIndex == Own(t, i).nextIndex >= Own(s, i).nextIndex
    && (Own(t, i).members[0].accepted ==> Own(s, o).accepted)
  }

  lemma SidesKept(s: System, t: System, i: nat, o: nat)
    requires PairInv(s, i, o) && PairInv(s, o, i) && SideChanged(s, t, i, o)
    ensures SideInv(t, i, o) && SideInv(t, o, i)
    ensures BaseOf(t, i) == BaseOf(s, i) && BaseOf(t, o) == BaseOf(s, o)
    ensures Own(t, i).seed == Own(s, i).seed && Own(t, o) == Own(s, o)
    ensures Own(s, i).accepted ==> Own(t, i).accepted
  {
  }

  lemma LogKept(s: System, t: System, i: nat, o: nat)
    requires Sides(s, i, o) && LogInv(s, i, o) && Sides(t, i, o) && t.sent[i] == s.sent[i]
    requires t.seen[o][i] <= |t.sent[i]| && t.seen[i][i] <= |t.sent[i]|
    requires BaseOf(t, i) == BaseOf(s, i) && BaseOf(t, o) == BaseOf(s, o)
    requires Own(t, i).seed == Own(s, i).seed && (Own(s, i).accepted ==> Own(t, i).accepted)
    requires Position(t, i) >= Position(s, i)
    ensures LogInv(t, i, o)
  {
  }

  lemma NoGapKept(s: System, t: System, i: nat, o: nat)
    requires Sides(s, i, o) && NoGap(s, i, o) && Sides(t, i, o)
    requires t.sent[i] == s.sent[i] && t.seen[o][i] == s.seen[o][i]
    requires Position(t, i) == Position(s, i) && Position(t, o) >= Position(s, o)
    ensures NoGap(t, i, o)
  {
    forall v | Position(t, o) <= v < Position(t, i) ensures InFlight(t, i, o, v) {
      assert InFlight(s, i, o, v);
      var n :| s.seen[o][i] <= n < |s.sent[i]| && s.sent[i][n].position == v;
      assert t.sent[i][n].position == v;
    }
  }

  lemma SendKeepsLog(s: System, t: System, i: nat, o: nat, e: Entry)
    requires Sides(s, i, o) && LogInv(s, i, o) && NoGap(s, i, o) && Sides(t, i, o)
    requires t.sent[i] == s.sent[i] + [e] && t.seen == s.seen
    requires BaseOf(t, i) == BaseOf(s, i) && BaseOf(t, o) == BaseOf(s, o)
    requires Own(t, i).seed == Own(s, i).seed && (Own(s, i).accepted ==> Own(t, i).accepted)
    requires EntryShape(e, BaseOf(s, i), BaseOf(s, o), Own(s, i).seed)
    requires e.position == Position(s, i) && Position(t, i) == Position(s, i) + 1
    requires Position(t, o) == Position(s, o) && (e.kind == Accept ==> Own(t, i).accepted)
    ensures LogInv(t, i, o) && NoGap(t, i, o)
  {
    forall v | Position(t, o) <= v < Position(t, i) ensures InFlight(t, i, o, v) {
      if v == e.position {
        assert t.sent[i][|s.sent[i]|] == e;
      } else {
        assert InFlight(s, i, o, v);
        var n :| s.seen[o][i] <= n < |s.sent[i]| && s.sent[i][n].position == v;
        assert t.sent[i][n].position == v;
      }
    }
  }

  /** What a send does, before the invariant is put together again. */
  lemma SendChanges(s: System, e: Event, i: nat, o: nat)
    requires PairInv(s, i, o) && PairInv(s, o, i) && e.Send? && e.from == i
    requires NoFlag(e.change) && MaySend(Own(s, i), e.kind)
    ensures var t := Step(s, e);
            && SideChanged(s, t, i, o)
            && Position(t, i) == Position(s, i) + 1
            && |t.sent[i]| == |s.sent[i]| + 1
            && var entry := t.sent[i][|s.sent[i]|];
               && t.sent[i] == s.sent[i] + [entry]
               && entry.position == Position(s, i)
               && EntryShape(entry, BaseOf(s, i), BaseOf(s, o), Own(s, i).seed)
               && (entry.kind == Accept ==> Own(t, i).accepted)
    ensures var t := Step(s, e); t.sent[o] == s.sent[o] && t.seen == s.seen
  {
    var t := Step(s, e);
    AfterSendInv(s.parties[i], s.at[i], e.kind);
    SentShape(s.parties[i], s.at[i], e.kind, e.dust, e.point, e.funding, e.change);
    hide PartyInv, EntryShape, AfterSend;
    assert t.parties[i] == AfterSend(s.parties[i], s.at[i], e.kind);
  }

  lemma SendKeepsInv(s: System, e: Event, i: nat, o: nat)
    requires PairInv(s, i, o) && PairInv(s, o, i) && e.Send? && e.from == i
    requires NoFlag(e.change) && MaySend(Own(s, i), e.kind)
    ensures var t := Step(s, e);
            && PairInv(t, i, o) && PairInv(t, o, i)
            && Position(t, i) == Position(s, i) + 1 && Position(t, o) == Position(s, o)
  {
    hide Step, PartyInv, LogInv, NoGap, EntryShape, SideInv;
    var t := Step(s, e);
    SendChanges(s, e, i, o);
    SeenKept(s, o, i);
    SidesKept(s, t, i, o);
    SendKeepsLog(s, t, i, o, t.sent[i][|s.sent[i]|]);
    LogKept(s, t, o, i);
    NoGapKept(s, t, o, i);
  }

  lemma SeenKept(s: System, i: nat, o: nat)
    requires Sides(s, i, o) && LogInv(s, i, o)
    ensures s.seen[o][i] <= |s.sent[i]| && s.seen[i][i] <= |s.sent[i]|
  {
  }

  lemma DeliverPeerKeepsInv(s: System, i: nat, o: nat)
    requires PairInv(s, i, o) && PairInv(s, o, i) && !Delivered(s, i, o)
    ensures var t := Step(s, Deliver(i, o));
            && PairInv(t, i, o) && PairInv(t, o, i)
            && Position(t, o) == Position(s, o) && Position(t, i) >= Position(s, i)
            && (Position(t, i) == Position(s, i) || Position(t, i) <= Position(s, o))
  {
    var e := s.sent[o][s.seen[i][o]];
    var t := Step(s, Deliver(i, o));
    NextIsRegistered(s, i, o);
    ReceivePeer(s.parties[i], s.at[i], e);
    assert t.parties[i] == Receive(s.parties[i], e);
    assert EntryShape(e, BaseOf(s, o), BaseOf(s, i), Own(s, o).seed) && e.position < Position(s, o);
    assert e.kind == Accept ==> Own(s, o).accepted;
    DeliveredNoGap(s, t, i, o);
    SeenKept(s, o, i);
    SeenKept(s, i, o);
    hide PartyInv, LogInv, NoGap, EntryShape, Receive;
    assert SideChanged(s, t, i, o);
    SidesKept(s, t, i, o);
    LogKept(s, t, o, i);
    LogKept(s, t, i, o);
    NoGapAhead(s, t, i, o);
  }

  /** The delivered position leaves the flight of the sender only when the receiver reached it. */
  lemma DeliveredNoGap(s: System, t: System, i: nat, o: nat)
    requires Sides(s, i, o) && Sides(t, i, o) && LogInv(s, o, i) && NoGap(s, o, i) && !Delivered(s, i, o)
    requires t.sent[o] == s.sent[o] && t.seen[i][o] == s.seen[i][o] + 1
    requires Position(t, o) == Position(s, o) && Position(t, i) >= Position(s, i)
    requires Position(t, i) > s.sent[o][s.seen[i][o]].position
    ensures NoGap(t, o, i)
  {
    forall v | Position(t, i) <= v < Position(t, o) ensures InFlight(t, o, i, v) {
      assert InFlight(s, o, i, v);
      var n :| s.seen[i][o] <= n < |s.sent[o]| && s.sent[o][n].position == v;
      assert t.sent[o][n].position == v;
    }
  }

  /** A receiver that only catches up is not ahead of more than it already sent. */
  lemma NoGapAhead(s: System, t: System, i: nat, o: nat)
    requires Sides(s, i, o) && Sides(t, i, o) && NoGap(s, i, o)
    requires t.sent[i] == s.sent[i] && t.seen[o][i] == s.seen[o][i] && Position(t, o) == Position(s, o)
    requires Position(t, i) == Position(s, i) || Position(t, i) <= Position(s, o)
    ensures NoGap(t, i, o)
  {
    if Position(t, i) == Position(s, i) {
      NoGapKept(s, t, i, o);
    }
  }

  lemma DeliverSelfKeepsInv(s: System, i: nat, o: nat)
    requires PairInv(s, i, o) && PairInv(s, o, i) && !Delivered(s, i, i)
    ensures var t := Step(s, Deliver(i, i));
            && PairInv(t, i, o) && PairInv(t, o, i)
            && Position(t, i) == Position(s, i) && Position(t, o) == Position(s, o)
  {
    var e := s.sent[i][s.seen[i][i]];
    var t := Step(s, Deliver(i, i));
    ReceiveSelf(s.parties[i], s.at[i], e);
    assert t.parties == s.parties;
    SeenKept(s, i, o);
    SeenKept(s, o, i);
    SelfSideChanged(s, t, i, o);
    hide PartyInv, LogInv, NoGap, Receive, SideChanged;
    SidesKept(s, t, i, o);
    LogKept(s, t, i, o);
    LogKept(s, t, o, i);
    NoGapKept(s, t, i, o);
    NoGapKept(s, t, o, i);
  }

  lemma SelfSideChanged(s: System, t: System, i: nat, o: nat)
    requires PairInv(s, i, o) && Sides(t, i, o) && t.at == s.at && t.parties == s.parties
    ensures SideChanged(s, t, i, o)
  {
  }

  lemma UnrelatedKeepsInv(s: System, e: Event, i: nat, o: nat)
    requires PairInv(s, i, o) && PairInv(s, o, i) && e.Unrelated? && e.who == i
    requires Undisturbed(s.parties[i], e.next, s.at[i])
    ensures var t := Step(s, e);
            && PairInv(t, i, o) && PairInv(t, o, i)
            && Position(t, i) == Position(s, i) && Position(t, o) == Position(s, o)
  {
    var t := Step(s, e);
    assert Own(t, i) == Own(s, i);
    SeenKept(s, i, o);
    SeenKept(s, o, i);
    hide PartyInv, LogInv, NoGap;
    assert SideChanged(s, t, i, o);
    SidesKept(s, t, i, o);
    LogKept(s, t, i, o);
    LogKept(s, t, o, i);
    NoGapKept(s, t, i, o);
    NoGapKept(s, t, o, i);
  }

  // ----- runs -----

  ghost function Run(s: System, events: seq<Event>): (t: System)
    requires Inv(s)
    ensures Inv(t)
  {
    if events == [] then s
    else
      var before := Run(s, events[..|events| - 1]);
      StepKeepsInv(before, events[|events| - 1]);
      Step(before, events[|events| - 1])
  }

  /** Does the event do anything? */
  ghost predicate Enabled(s: System, e: Event)
    requires Shaped(s) && |s.parties| == 2
  {
    match e
    case Send(i, kind, _, _, _, change) => i < 2 && NoFlag(change) && MaySend(Own(s, i), kind)
    case Deliver(i, k) => i < 2 && k < 2 && !Delivered(s, i, k)
    case Unrelated(i, q) => i < 2 && Undisturbed(s.parties[i], q, s.at[i])
  }

  lemma DisabledIdle(s: System, e: Event)
    requires Shaped(s) && |s.parties| == 2 && !Enabled(s, e)
    ensures Step(s, e) == s
  {
  }

  function Max(a: nat, b: nat): nat {
    if a >= b then a else b
  }

  /** The position of the side that is further along. */
  function Ahead(s: System): nat
    requires Shaped(s) && |s.parties| == 2
  {
    Max(Position(s, 0), Position(s, 1))
  }

  lemma EnabledKeepsPair(s: System, e: Event, i: nat, o: nat)
    requires PairInv(s, i, o) && PairInv(s, o, i) && Enabled(s, e)
    requires i == (match e case Send(f, _, _, _, _, _) => f case Deliver(t, _) => t case Unrelated(w, _) => w)
    ensures var t := Step(s, e);
            && PairInv(t, i, o) && PairInv(t, o, i)
            && Position(t, i) >= Position(s, i) && Position(t, o) == Position(s, o)
            && (!e.Send? ==> Position(t, i) <= Max(Position(s, i), Position(s, o)))
  {
    hide Step, SideInv, LogInv, NoGap, PartyInv;
    match e
    case Send(_, _, _, _, _, _) => SendKeepsInv(s, e, i, o);
    case Deliver(_, k) =>
      if i == k {
        DeliverSelfKeepsInv(s, i, o);
      } else {
        DeliverPeerKeepsInv(s, i, o);
      }
    case Unrelated(_, q) => UnrelatedKeepsInv(s, e, i, o);
  }

  /** Every event keeps the invariant; only a send can move the side that is ahead. */
  lemma StepKeepsInv(s: System, e: Event)
    requires Inv(s)
    ensures Inv(Step(s, e))
    ensures Ahead(Step(s, e)) >= Ahead(s)
    ensures !e.Send? ==> Ahead(Step(s, e)) == Ahead(s)
  {
    hide Step, PairInv;
    PairSides(s, 0, 1);
    if Enabled(s, e) {
      var i := match e case Send(f, _, _, _, _, _) => f case Deliver(t, _) => t case Unrelated(w, _) => w;
      EnabledKeepsPair(s, e, i, 1 - i);
      PairSides(Step(s, e), i, 1 - i);
    } else {
      DisabledIdle(s, e);
    }
  }

  lemma PairSides(s: System, i: nat, o: nat)
    requires PairInv(s, i, o)
    ensures Sides(s, i, o)
  {
  }

  lemma RunUnfold(s: System, events: seq<Event>)
    requires Inv(s) && events != []
    ensures var before := events[..|events| - 1];
            Run(s, events) == Step(Run(s, before), events[|events| - 1])
  {
  }

  /** When nothing is on its way from `i`, side `i` is not ahead. */
  lemma NothingInFlight(s: System, i: nat, o: nat)
    requires PairInv(s, i, o) && Delivered(s, o, i)
    ensures Position(s, i) <= Position(s, o)
  {
    assert Position(s, o) < Position(s, i) ==> InFlight(s, i, o, Position(s, o));
  }

  /** Side `i` and its mirror of side `o` agree with side `o`. */
  predicate Agrees(s: System, i: nat, o: nat)
    requires Sides(s, i, o)
  {
    && |Own(s, i).members| == 1
    && Own(s, i).nextHash == Own(s, o).nextHash && Own(s, i).nextIndex == Own(s, o).nextIndex
    && Own(s, i).members[0].nextHash == Own(s, o).nextHash
    && Own(s, i).members[0].nextIndex == Own(s, o).nextIndex
    && Own(s, i).members[0].nextKey == Own(s, o).nextKey
  }

  lemma EqualPositionsAgree(s: System, i: nat, o: nat)
    requires Sides(s, i, o) && SideInv(s, i, o) && SideInv(s, o, i) && Position(s, i) == Position(s, o)
    ensures Agrees(s, i, o)
  {
    assert MemberOnChain(Own(s, i).members[0], Own(s, i).seed);
  }

  /**
   After any run, once nothing is on its way in either direction, the two sides hold identical
   positions: each side's mirror of the other is exactly the other's own chain, at the position of
   the side that was further along.
   */
  lemma Convergence(s: System, events: seq<Event>)
    requires Inv(s)
    ensures var t := Run(s, events);
            Delivered(t, 0, 1) && Delivered(t, 1, 0) ==>
              Agrees(t, 0, 1) && Agrees(t, 1, 0) && Position(t, 0) == Ahead(t)
  {
    var t := Run(s, events);
    if Delivered(t, 0, 1) && Delivered(t, 1, 0) {
      NothingInFlight(t, 0, 1);
      NothingInFlight(t, 1, 0);
      EqualPositionsAgree(t, 0, 1);
      EqualPositionsAgree(t, 1, 0);
    }
  }

  /** Without further sends no delivery moves the side that is ahead: draining only catches up. */
  lemma {:induction false} DrainKeepsAhead(s: System, events: seq<Event>)
    requires Inv(s) && forall n :: 0 <= n < |events| ==> !events[n].Send?
    ensures Ahead(Run(s, events)) == Ahead(s)
  {
    if events != [] {
      var last := |events| - 1;
      DrainKeepsAhead(s, events[..last]);
      RunUnfold(s, events);
      hide Step, Run, PairInv;
      StepKeepsInv(Run(s, events[..last]), events[last]);
    }
  }

  /** In every run, the next message of either side finds its receiver key registered. */
  lemma DeliveredKeysRegistered(s: System, events: seq<Event>, to: nat, from: nat)
    requires Inv(s) && to < 2 && from < 2 && to != from
    ensures var t := Run(s, events);
            !Delivered(t, to, from) ==>
              var e := t.sent[from][t.seen[to][from]];
              e.position >= 1 && RegisteredAt(t.parties[to].index, Own(t, to), e.position)
  {
    var t := Run(s, events);
    if !Delivered(t, to, from) {
      NextIsRegistered(t, to, from);
    }
  }

  /** In every run, a side is noted as accepted only if it accepted. */
  lemma AcceptNotesSound(s: System, events: seq<Event>, i: nat, o: nat)
    requires Inv(s) && i < 2 && o < 2 && i != o
    ensures var t := Run(s, events);
            |Own(t, i).members| == 1 && (Own(t, i).members[0].accepted ==> Own(t, o).accepted)
  {
    hide Step, Run, PartyInv, LogInv, NoGap;
    assert PairInv(Run(s, events), i, o);
  }
}
