/**
 Whole runs of the funding calls of internal/wallet/funding.go on their own, for any keys, mixed with the
 lifecycle of transactions and restarts. Before each call it can be decided from the ledger whether the
 call may spend an outpoint a second time. The callers of the repository never come to that: NodeRun.dfy.
 */
module FundingRuns {
  import opened Results
  import opened Bitcoin
  import opened AddressSpec
  import opened LedgerSpec
  import opened LedgerRun
  import opened FeedOrder
  import opened Ledgers
  import opened FundingSpec
  import opened UniqueKeys

  /** What a caller asks for: a transaction with these outputs, funded from one key. */
  datatype Request = Request(selector: Selector, outputs: seq<TxOut>, dust: nat)

  /** An event of the network or a growth of the index, a restart, or a request. */
  datatype Planned =
    | Happening(event: Event)
    | Restarting(handled: set<Tx>, finalized: set<Tx>)
    | Asking(request: Request)

  /** How it came about: a request with the outputs the ledger offered and what happened outside. */
  datatype WalletStep =
    | Lifecycle(event: Event)
    | Restart(handled: set<Tx>, finalized: set<Tx>)
    | Call(request: Request, own: seq<OutPoint>, bitcoin: seq<OutPoint>, out: Outside)

  predicate Matches(step: WalletStep, planned: Planned) {
    match step
    case Lifecycle(e) => planned == Happening(e)
    case Restart(handled, finalized) => planned == Restarting(handled, finalized)
    case Call(request, _, _, _) => planned == Asking(request)
  }

  ghost function CallOf(s: RunState, step: WalletStep): CallEnd
    requires WellFormed(s.wallet.index) && step.Call?
  {
    FundCall(s, Draft([], step.request.outputs, []), step.request.selector, step.own, step.bitcoin, step.request.dust, step.out)
  }

  /** A call is offered what is selected; unless the library refuses it takes at least the first of it. */
  ghost predicate Performed(s: RunState, step: WalletStep) {
    step.Call? ==>
      && Offered(s.wallet.ledger, step.own, step.request.selector)
      && Offered(s.wallet.ledger, step.bitcoin, BitcoinSelector)
      && (step.own != [] && step.out.first.status != Refused ==> TakesFirst(step.out.first))
  }

  ghost function Next(s: RunState, step: WalletStep): (r: RunState)
    requires WellFormed(s.wallet.index)
    ensures WellFormed(r.wallet.index)
  {
    match step
    case Lifecycle(e) => Step(s, e)
    case Restart(handled, finalized) => ReloadedKeeps(s.wallet); Restarted(s, handled, finalized)
    case Call(_, _, _, _) => Run(s, CallOf(s, step).events)
  }

  ghost function After(s: RunState, steps: seq<WalletStep>): (r: RunState)
    requires WellFormed(s.wallet.index)
    ensures WellFormed(r.wallet.index)
  {
    if steps == [] then s else Next(After(s, steps[..|steps| - 1]), steps[|steps| - 1])
  }

  /** Callers ask for relationship keys, and only their requests broadcast. */
  predicate Sensible(plan: seq<Planned>) {
    forall n :: 0 <= n < |plan| ==>
      && (plan[n].Asking? ==> RelationshipSelector(plan[n].request.selector))
      && (plan[n].Happening? ==> !plan[n].event.Broadcast?)
  }

  /** One way the beginning of a plan can go. */
  ghost predicate RunOf(ix: IndexState, plan: seq<Planned>, steps: seq<WalletStep>)
    requires WellFormed(ix)
  {
    && |steps| <= |plan|
    && forall n :: 0 <= n < |steps| ==> Matches(steps[n], plan[n]) && Performed(After(Start(ix), steps[..n]), steps[n])
  }

  // ----- the condition -----

  /** Output 0 of a payment of at least `least` to an address, from bitcoin outputs that can be selected now. */
  predicate IsPayment(w: WalletState, p: OutPoint, ra: RawAddress, least: nat) {
    && p.index == 0 && p.tx.outputs != [] && p.tx.outputs[0].script == Pay(ra) && p.tx.outputs[0].value >= least
    && p.tx.inputs != [] && Picked(w.ledger, PointsOf(p.tx.inputs), BitcoinSelector)
    && Stored(w.ledger, p.tx.inputs) && p.tx.inputs == SignedInputs(w, p.tx.inputs)
  }

  /**
   Nothing is left under the key, so it will be paid first; there is a change address to do so; and a
   payment that could be built now has been recorded before and its output is reserved.
   */
  ghost predicate Rebuildable(w: WalletState, request: Request) {
    var ra := RequestedAddress(w.index, request.selector);
    && NothingUnder(w.ledger, request.selector) && ChangeRef(w.index).Some? && ra.Some?
    && exists p :: p in w.ledger && w.ledger[p].reserved
                   && IsPayment(w, p, ra.value, request.dust + TotalValue(request.outputs))
  }

  /** A key that no reserved entry pays is safe to ask for. */
  lemma NoneReservedSafe(w: WalletState, request: Request)
    requires WellFormed(w.index) && NoneReserved(w.ledger, RequestedKey(w.index.wallet, request.selector))
    ensures !Rebuildable(w, request)
  {
    if RequestedAddress(w.index, request.selector).Some? {
      RequestedPays(w.index, request.selector);
    }
  }

  /** Only broadcasts reserve. */
  ghost predicate ReservedSpent(s: RunState) {
    forall p :: Reserved(s, p) ==> exists b :: 0 <= b < |s.broadcasts| && Spends(s.broadcasts[b], p)
  }

  lemma StepReservedSpent(s: RunState, e: Event)
    requires WellFormed(s.wallet.index) && ReservedSpent(s)
    ensures ReservedSpent(Step(s, e))
  {
    hide Step, WellFormed;
    var r := Step(s, e);
    StepBroadcasts(s, e);
    forall p | Reserved(r, p) ensures exists b :: 0 <= b < |r.broadcasts| && Spends(r.broadcasts[b], p) {
      ReservedFrom(s, e, p);
      if Reserved(s, p) {
        var b :| 0 <= b < |s.broadcasts| && Spends(s.broadcasts[b], p);
        assert r.broadcasts[b] == s.broadcasts[b];
      } else {
        assert r.broadcasts[|s.broadcasts|] == e.tx;
      }
    }
  }

  lemma {:induction false} RunReservedSpent(s: RunState, events: seq<Event>)
    requires WellFormed(s.wallet.index) && ReservedSpent(s)
    ensures ReservedSpent(Run(s, events))
  {
    hide Step, ReservedSpent, WellFormed;
    if events != [] {
      RunReservedSpent(s, events[..|events| - 1]);
      StepReservedSpent(Run(s, events[..|events| - 1]), events[|events| - 1]);
    }
  }

  /** What a run records is among its broadcasts, behind the earlier ones. */
  lemma {:induction false} RecordedIsBroadcast(s: RunState, events: seq<Event>, msg: Tx)
    requires WellFormed(s.wallet.index)
    ensures s.broadcasts <= Run(s, events).broadcasts
    ensures Recorded(events, msg) ==>
              exists b :: |s.broadcasts| <= b < |Run(s, events).broadcasts| && Run(s, events).broadcasts[b] == msg
  {
    hide Step, WellFormed;
    if events != [] {
      var last := |events| - 1;
      var before := Run(s, events[..last]);
      RecordedIsBroadcast(s, events[..last], msg);
      StepBroadcasts(before, events[last]);
      var r := Run(s, events);
      if Recorded(events, msg) {
        var n :| 0 <= n < |events| && events[n] == Broadcast(msg);
        if n < last {
          assert events[..last][n] == Broadcast(msg);
          var b :| |s.broadcasts| <= b < |before.broadcasts| && before.broadcasts[b] == msg;
          assert r.broadcasts[b] == msg;
        } else {
          assert r.broadcasts[|before.broadcasts|] == msg;
        }
      }
    }
  }

  /** A transaction that spends a claimed outpoint breaks the rule. */
  lemma ClaimedBreaks(s: RunState, msg: Tx, events: seq<Event>)
    requires WellFormed(s.wallet.index) && ReservedSpent(s) && Recorded(events, msg)
    requires !Unclaimed(s.wallet.ledger, msg.inputs)
    ensures !SpentOnce(Run(s, events))
  {
    hide Run, WellFormed;
    var r := Run(s, events);
    RecordedIsBroadcast(s, events, msg);
    var b :| |s.broadcasts| <= b < |r.broadcasts| && r.broadcasts[b] == msg;
    if n :| 0 <= n < |msg.inputs| && Reserved(s, msg.inputs[n].point) {
      var p := msg.inputs[n].point;
      SpendsAt(msg, p);
      var a :| 0 <= a < |s.broadcasts| && Spends(s.broadcasts[a], p);
      assert r.broadcasts[a] == s.broadcasts[a];
    } else {
      var i, j :| 0 <= i < j < |msg.inputs| && msg.inputs[i].point == msg.inputs[j].point;
      assert PointsOf(msg.inputs)[i] == PointsOf(msg.inputs)[j];
    }
  }

  // ----- a call that spends a claimed outpoint rebuilds a payment -----

  lemma SignedAgain(w: WalletState, inputs: seq<TxIn>)
    requires Stored(w.ledger, inputs)
    ensures var signed := SignedInputs(w, inputs);
            Stored(w.ledger, signed) && SignedInputs(w, signed) == signed && PointsOf(signed) == PointsOf(inputs)
  {
    hide SigningKey;
    var signed := SignedInputs(w, inputs);
    forall n | 0 <= n < |signed| ensures signed[n].point in w.ledger && SignedInputs(w, signed)[n] == signed[n] {
      assert signed[n].point == inputs[n].point;
    }
  }

  /** The payment a separate call sends is one that could be built. */
  lemma SentIsPayment(s: RunState, bitcoin: seq<OutPoint>, ra: RawAddress, amount: nat, out: Outside, least: nat)
    requires WellFormed(s.wallet.index) && Offered(s.wallet.ledger, bitcoin, BitcoinSelector) && amount >= least
    requires OfferAndSend(s, Draft([], [TxOut(amount, Pay(ra))], []), bitcoin, out.separate, out.sendSeparate).error.None?
    ensures var fund := OfferAndSend(s, Draft([], [TxOut(amount, Pay(ra))], []), bitcoin, out.separate, out.sendSeparate).msg;
            IsPayment(s.wallet, OutPoint(fund, 0), ra, least)
  {
    hide Taken, SigningKey, Picked, Offered;
    var start := Draft([], [TxOut(amount, Pay(ra))], []);
    OfferCases(s, start, bitcoin, out.separate, out.sendSeparate);
    OfferedPicked(s.wallet.ledger, bitcoin, BitcoinSelector);
    TakenPicked(s.wallet.ledger, bitcoin, BitcoinSelector, out.separate.take);
    var next := Offer(start, bitcoin, out.separate);
    assert Stored(s.wallet.ledger, next.inputs);
    SignedAgain(s.wallet, next.inputs);
  }

  /** A change address leaves the requested address and the ledger as they are. */
  lemma ChangedKeeps(s: RunState, request: Request, p: OutPoint, ra: RawAddress, least: nat)
    requires WellFormed(s.wallet.index) && ChangeRef(s.wallet.index).Some?
    ensures var t := Changed(s);
            && WellFormed(t.wallet.index) && t.wallet.ledger == s.wallet.ledger && t.handled == s.handled
            && RequestedAddress(t.wallet.index, request.selector) == RequestedAddress(s.wallet.index, request.selector)
            && t.wallet.index.wallet == s.wallet.index.wallet
            && (IsPayment(t.wallet, p, ra, least) <==> IsPayment(s.wallet, p, ra, least))
  {
    GiveGrows(s, ChangeRef(s.wallet.index).value);
    var t := Changed(s);
    hide SigningKey, Selects;
    if Stored(s.wallet.ledger, p.tx.inputs) {
      assert SignedInputs(t.wallet, p.tx.inputs) == SignedInputs(s.wallet, p.tx.inputs);
    }
  }

  /** If a call ends well with a transaction that spends a reserved outpoint, that could be told before. */
  lemma UnsafeRebuilds(s: RunState, step: WalletStep)
    requires WellFormed(s.wallet.index) && step.Call? && Performed(s, step) && RelationshipSelector(step.request.selector)
    requires CallOf(s, step).error.None? && !Unclaimed(s.wallet.ledger, CallOf(s, step).msg.inputs)
    ensures Rebuildable(s.wallet, step.request)
  {
    hide *;
    var request, out, l := step.request, step.out, s.wallet.ledger;
    var d := Draft([], request.outputs, []);
    var first, taken := Offer(d, step.own, out.first), Taken(step.own, out.first.take);
    CallIs(s, step);
    FundCases(s, d, request.selector, step.own, step.bitcoin, request.dust, out);
    OfferedPicked(l, step.own, request.selector);
    OfferedPicked(l, step.bitcoin, BitcoinSelector);
    TakenPicked(l, step.own, request.selector, out.first.take);
    TakenPicked(l, step.bitcoin, BitcoinSelector, out.more.take);
    TakenSome(step.own, out.first);
    if taken != [] {
      assert taken + [] == taken;
      NothingPicked(l);
      if StatusOf(first, out.first) == Funded {
        DirectCallResult(s, first, request.selector, true, taken, [], out.send);
      } else {
        var topUp := Taken(step.bitcoin, out.more.take);
        DirectCallResult(s, Offer(first, step.bitcoin, out.more), request.selector, true, taken, topUp, out.send);
      }
    } else {
      AddressRebuilds(s, first, step);
    }
  }

  lemma CallIs(s: RunState, step: WalletStep)
    requires WellFormed(s.wallet.index) && step.Call? && Performed(s, step) && RelationshipSelector(step.request.selector)
    ensures CallOf(s, step) == FundCall(s, Draft([], step.request.outputs, []), step.request.selector, step.own, step.bitcoin,
                                        step.request.dust, step.out)
    ensures Offered(s.wallet.ledger, step.own, step.request.selector) && Offered(s.wallet.ledger, step.bitcoin, BitcoinSelector)
    ensures step.own != [] && step.out.first.status != Refused ==> TakesFirst(step.out.first)
    ensures !step.request.selector.BitcoinSelector?
  {
    hide FundCall, Offered;
  }

  lemma AddressRebuilds(s: RunState, d: Draft, step: WalletStep)
    requires WellFormed(s.wallet.index) && step.Call? && d.inputs == [] && d.outputs == step.request.outputs
    requires Offered(s.wallet.ledger, step.bitcoin, BitcoinSelector) && NothingUnder(s.wallet.ledger, step.request.selector)
    requires var c := AddressCall(s, d, step.request.selector, step.bitcoin, step.request.dust, step.out);
             c.error.None? && !Unclaimed(s.wallet.ledger, c.msg.inputs)
    ensures Rebuildable(s.wallet, step.request)
  {
    hide *;
    var request, out := step.request, step.out;
    AddressCases(s, d, request.selector, step.bitcoin, request.dust, out);
    var t, least := Changed(s), request.dust + TotalValue(request.outputs);
    ChangedKeeps(s, request, OutPoint(Tx([], []), 0), NoAddress, least);
    var ra := RequestedAddress(t.wallet.index, request.selector).value;
    var amount := FundingAmount(out.estimate, request.dust, d.outputs);
    EnoughPaid(out.estimate, request);
    var fund := OfferAndSend(t, Draft([], [TxOut(amount, Pay(ra))], []), step.bitcoin, out.separate, out.sendSeparate);
    SeparateSpends(t, d, step.bitcoin, ra, amount, out);
    SentIsPayment(t, step.bitcoin, ra, amount, out, least);
    ChangedKeeps(s, request, OutPoint(fund.msg, 0), ra, least);
    ClaimedIs(s.wallet.ledger, AddressCall(s, d, request.selector, step.bitcoin, request.dust, out).msg.inputs, OutPoint(fund.msg, 0));
    RebuildableIs(s.wallet, request, OutPoint(fund.msg, 0));
  }

  lemma EnoughPaid(estimate: nat, request: Request)
    ensures FundingAmount(estimate, request.dust, request.outputs) >= request.dust + TotalValue(request.outputs)
  {
  }

  lemma SeparateSpends(s: RunState, d: Draft, bitcoin: seq<OutPoint>, ra: RawAddress, amount: nat, out: Outside)
    requires WellFormed(s.wallet.index) && d.inputs == [] && SeparateCall(s, d, bitcoin, ra, amount, out).error.None?
    ensures var fund := OfferAndSend(s, Draft([], [TxOut(amount, Pay(ra))], []), bitcoin, out.separate, out.sendSeparate);
            && fund.error.None?
            && PointsOf(SeparateCall(s, d, bitcoin, ra, amount, out).msg.inputs) == [OutPoint(fund.msg, 0)]
  {
    hide Run, OfferAndSend, SendCall, WellFormed;
    var fund := OfferAndSend(s, Draft([], [TxOut(amount, Pay(ra))], []), bitcoin, out.separate, out.sendSeparate);
    if fund.error.None? {
      SendCases(Run(s, fund.events), d.(inputs := d.inputs + [TxIn(OutPoint(fund.msg, 0), None)]), out.send);
    }
  }

  lemma ClaimedIs(l: LedgerState, inputs: seq<TxIn>, p: OutPoint)
    requires PointsOf(inputs) == [p] && !Unclaimed(l, inputs)
    ensures p in l && l[p].reserved
  {
    assert inputs[0].point == PointsOf(inputs)[0];
  }

  lemma RebuildableIs(w: WalletState, request: Request, p: OutPoint)
    requires NothingUnder(w.ledger, request.selector) && ChangeRef(w.index).Some?
    requires RequestedAddress(w.index, request.selector).Some? && p in w.ledger && w.ledger[p].reserved
    requires IsPayment(w, p, RequestedAddress(w.index, request.selector).value, request.dust + TotalValue(request.outputs))
    ensures Rebuildable(w, request)
  {
  }

  // ----- a payment that can be rebuilt is rebuilt by some call -----

  lemma {:induction false} TakenPrefix(points: seq<OutPoint>, n: nat)
    requires n <= |points|
    ensures PointsOf(Taken(points, seq(n, _ => true))) == points[..n]
    decreases |points|
  {
    var take := seq(n, _ => true);
    if points != [] {
      var last := |points| - 1;
      if n <= last {
        TakenPrefix(points[..last], n);
        assert Taken(points, take) == Taken(points[..last], take);
        assert points[..last][..n] == points[..n];
      } else {
        TakenMore(points[..last], last);
        TakenPrefix(points[..last], last);
        assert points[..last][..last] == points[..last];
        assert Taken(points, take) == Taken(points[..last], take) + [TxIn(points[last], None)];
      }
    }
  }

  /** What is taken of `n` points does not depend on later choices. */
  lemma {:induction false} TakenMore(points: seq<OutPoint>, n: nat)
    requires n >= |points|
    ensures Taken(points, seq(n + 1, _ => true)) == Taken(points, seq(n, _ => true))
  {
    if points != [] {
      TakenMore(points[..|points| - 1], n);
    }
  }

  /** Everything goes well, and the payment takes and pays what the earlier one did. */
  function Rebuilding(payment: Tx, request: Request): Outside
    requires payment.outputs != [] && payment.outputs[0].value >= TotalValue(request.outputs)
  {
    var nothing := FundingOutcome([], Insufficient, []);
    Outside(nothing, nothing, FundingOutcome(seq(|payment.inputs|, _ => true), Funded, []),
            Sending(true, payment.outputs[1..], false, false, true), Sending(true, [], false, false, true),
            payment.outputs[0].value - TotalValue(request.outputs))
  }

  /** The payment comes out the same. */
  lemma SamePayment(s: RunState, p: OutPoint, ra: RawAddress, request: Request, bitcoin: seq<OutPoint>)
    requires WellFormed(s.wallet.index) && IsPayment(s.wallet, p, ra, request.dust + TotalValue(request.outputs))
    requires PointsOf(p.tx.inputs) <= bitcoin
    ensures var out := Rebuilding(p.tx, request);
            OfferAndSend(s, Draft([], [TxOut(p.tx.outputs[0].value, Pay(ra))], []), bitcoin, out.separate, out.sendSeparate) ==
            CallEnd(p.tx, None, [Broadcast(p.tx)])
  {
    hide Picked, SigningKey, WellFormed;
    var out, n := Rebuilding(p.tx, request), |p.tx.inputs|;
    var start := Draft([], [TxOut(p.tx.outputs[0].value, Pay(ra))], []);
    assert bitcoin[..n] == PointsOf(p.tx.inputs);
    TakenPrefix(bitcoin, n);
    OfferCases(s, start, bitcoin, out.separate, out.sendSeparate);
    var next := Offer(start, bitcoin, out.separate);
    SamePointsSigned(s.wallet, p.tx.inputs, next.inputs);
    assert p.tx.outputs == [p.tx.outputs[0]] + p.tx.outputs[1..];
  }

  lemma SamePointsSigned(w: WalletState, a: seq<TxIn>, b: seq<TxIn>)
    requires PointsOf(a) == PointsOf(b) && Stored(w.ledger, a)
    ensures Stored(w.ledger, b) && SignedInputs(w, a) == SignedInputs(w, b) && |a| == |b|
  {
    hide SigningKey;
    forall n | 0 <= n < |b| ensures b[n].point == a[n].point {
      assert PointsOf(a)[n] == PointsOf(b)[n];
    }
  }

  /** Sending it again leaves its output stored, so the transaction that spends it goes through as well. */
  lemma SpendsRebuilt(s: RunState, d: Draft, p: OutPoint, ra: RawAddress, request: Request, bitcoin: seq<OutPoint>)
    requires WellFormed(s.wallet.index) && IsPayment(s.wallet, p, ra, request.dust + TotalValue(request.outputs))
    requires PointsOf(p.tx.inputs) <= bitcoin && p in s.wallet.ledger && d.inputs == []
    ensures var out := Rebuilding(p.tx, request);
            var c := SeparateCall(s, d, bitcoin, ra, p.tx.outputs[0].value, out);
            && c.error.None? && PointsOf(c.msg.inputs) == [p] && Recorded(c.events, c.msg)
  {
    hide Picked, IsPayment, SigningKey, WellFormed, Process, Run, OfferAndSend;
    var out := Rebuilding(p.tx, request) by { PaymentFits(s.wallet, p, ra, request); }
    SamePayment(s, p, ra, request, bitcoin);
    RunOne(s, Broadcast(p.tx));
    ProcessPassed(s.wallet, p.tx, false);
    var t, last := Run(s, [Broadcast(p.tx)]), d.(inputs := d.inputs + [TxIn(p, None)]);
    PaymentFits(s.wallet, p, ra, request);
    assert Stored(t.wallet.ledger, last.inputs);
    SendCallResult(t, last, out.send);
    var sent := SendCall(t, last, out.send);
    assert ([Broadcast(p.tx)] + sent.events)[1] == Broadcast(sent.msg);
  }

  lemma PaymentFits(w: WalletState, p: OutPoint, ra: RawAddress, request: Request)
    requires IsPayment(w, p, ra, request.dust + TotalValue(request.outputs))
    ensures p.tx.outputs != [] && p.tx.outputs[0].value >= TotalValue(request.outputs) && OutPoint(p.tx, 0) == p
    ensures FundingAmount(Rebuilding(p.tx, request).estimate, request.dust, request.outputs) == p.tx.outputs[0].value
  {
  }

  /** So the condition is met only where some way the call can go spends a claimed outpoint. */
  lemma RebuiltCall(s: RunState, request: Request) returns (step: WalletStep)
    requires WellFormed(s.wallet.index) && Rebuildable(s.wallet, request) && RelationshipSelector(request.selector)
    ensures step.Call? && step.request == request && Performed(s, step)
    ensures Recorded(CallOf(s, step).events, CallOf(s, step).msg)
    ensures !Unclaimed(s.wallet.ledger, CallOf(s, step).msg.inputs)
  {
    hide *;
    var p, ra := RebuildableParts(s.wallet, request);
    var least := request.dust + TotalValue(request.outputs);
    PaymentPicked(s.wallet, p, ra, least);
    OrderExists(s.wallet.ledger, PointsOf(p.tx.inputs), BitcoinSelector);
    var bitcoin :| Offered(s.wallet.ledger, bitcoin, BitcoinSelector) && PointsOf(p.tx.inputs) <= bitcoin;
    PaymentFits(s.wallet, p, ra, request);
    var out := Rebuilding(p.tx, request);
    NothingOffered(s.wallet.ledger, request.selector);
    step := Call(request, [], bitcoin, out);
    StepPerformed(s, step);
    CallIs(s, step);
    var d := Draft([], request.outputs, []);
    var first := Offer(d, [], out.first);
    FundCases(s, d, request.selector, [], bitcoin, request.dust, out);
    TakenSome([], out.first);
    RebuildingFirst(p.tx, request);
    AddressCases(s, first, request.selector, bitcoin, request.dust, out);
    ChangedKeeps(s, request, p, ra, least);
    var t := Changed(s);
    SpendsRebuilt(t, first, p, ra, request, bitcoin);
    var more := SeparateCall(t, first, bitcoin, ra, p.tx.outputs[0].value, out);
    RecordedAfter(Grow(t.wallet.index), more.events);
    ReservedClaims(s.wallet.ledger, more.msg.inputs, p);
  }

  lemma RebuildableParts(w: WalletState, request: Request) returns (p: OutPoint, ra: RawAddress)
    requires Rebuildable(w, request)
    ensures RequestedAddress(w.index, request.selector) == Some(ra) && ChangeRef(w.index).Some?
    ensures NothingUnder(w.ledger, request.selector) && p in w.ledger && w.ledger[p].reserved
    ensures IsPayment(w, p, ra, request.dust + TotalValue(request.outputs))
  {
    hide IsPayment;
    ra := RequestedAddress(w.index, request.selector).value;
    p :| p in w.ledger && w.ledger[p].reserved && IsPayment(w, p, ra, request.dust + TotalValue(request.outputs));
  }

  lemma PaymentPicked(w: WalletState, p: OutPoint, ra: RawAddress, least: nat)
    requires IsPayment(w, p, ra, least)
    ensures Picked(w.ledger, PointsOf(p.tx.inputs), BitcoinSelector)
  {
  }

  lemma NothingOffered(l: LedgerState, s: Selector)
    requires NothingUnder(l, s)
    ensures Offered(l, [], s)
  {
  }

  lemma StepPerformed(s: RunState, step: WalletStep)
    requires step.Call? && step.own == []
    requires Offered(s.wallet.ledger, step.own, step.request.selector) && Offered(s.wallet.ledger, step.bitcoin, BitcoinSelector)
    ensures Performed(s, step)
  {
  }

  lemma RebuildingFirst(payment: Tx, request: Request)
    requires payment.outputs != [] && payment.outputs[0].value >= TotalValue(request.outputs)
    ensures Rebuilding(payment, request).first.status == Insufficient
  {
  }

  lemma ReservedClaims(l: LedgerState, inputs: seq<TxIn>, p: OutPoint)
    requires PointsOf(inputs) == [p] && p in l && l[p].reserved
    ensures !Unclaimed(l, inputs)
  {
    assert inputs[0].point == PointsOf(inputs)[0];
  }

  // ----- one call, and whole runs -----

  /**
   A call keeps every outpoint spent at most once, however it goes, if and only if no payment it might
   build again is recorded with its output reserved.
   */
  lemma CallSafeIff(s: RunState, request: Request)
    requires WellFormed(s.wallet.index) && SpentOnce(s) && ReservedSpent(s) && RelationshipSelector(request.selector)
    ensures (forall own, bitcoin, out :: Performed(s, Call(request, own, bitcoin, out)) ==>
               SpentOnce(Next(s, Call(request, own, bitcoin, out))))
            <==> !Rebuildable(s.wallet, request)
  {
    hide Run, Performed, Rebuildable, SpentOnce, ReservedSpent, CallOf, Unclaimed, WellFormed, Recorded;
    if Rebuildable(s.wallet, request) {
      var step := RebuiltCall(s, request);
      ClaimedBreaks(s, CallOf(s, step).msg, CallOf(s, step).events);
      assert Performed(s, Call(request, step.own, step.bitcoin, step.out));
    } else {
      forall own, bitcoin, out | Performed(s, Call(request, own, bitcoin, out))
        ensures SpentOnce(Next(s, Call(request, own, bitcoin, out)))
      {
        SafeCallKeeps(s, Call(request, own, bitcoin, out));
      }
    }
  }

  lemma SafeCallKeeps(s: RunState, step: WalletStep)
    requires WellFormed(s.wallet.index) && SpentOnce(s) && step.Call? && RelationshipSelector(step.request.selector)
    requires Performed(s, step) && !Rebuildable(s.wallet, step.request)
    ensures SpentOnce(Next(s, step))
  {
    hide Run, Performed, Rebuildable, SpentOnce, CallOf, FundCall, Unclaimed, WellFormed, SelectedAll, Offered, FundingAmount;
    var c := CallOf(s, step);
    CallIs(s, step);
    FundCallResult(s, Draft([], step.request.outputs, []), step.request.selector, step.own, step.bitcoin, step.request.dust, step.out);
    if c.error.None? && !Unclaimed(s.wallet.ledger, c.msg.inputs) {
      UnsafeRebuilds(s, step);
    }
    CallKeepsOnce(s, c.events);
  }

  lemma RestartKeepsOnce(s: RunState, handled: set<Tx>, finalized: set<Tx>)
    ensures SpentOnce(s) ==> SpentOnce(Restarted(s, handled, finalized))
    ensures ReservedSpent(s) ==> ReservedSpent(Restarted(s, handled, finalized))
  {
    assert forall p :: Reserved(Restarted(s, handled, finalized), p) <==> Reserved(s, p);
  }

  lemma NextReservedSpent(s: RunState, step: WalletStep)
    requires WellFormed(s.wallet.index) && ReservedSpent(s)
    ensures ReservedSpent(Next(s, step))
  {
    hide Run, Step, ReservedSpent, CallOf, WellFormed;
    match step
    case Lifecycle(e) => StepReservedSpent(s, e);
    case Restart(handled, finalized) => RestartKeepsOnce(s, handled, finalized);
    case Call(_, _, _, _) => RunReservedSpent(s, CallOf(s, step).events);
  }

  lemma {:induction false} ReservedSpentAfter(ix: IndexState, steps: seq<WalletStep>)
    requires WellFormed(ix)
    ensures ReservedSpent(After(Start(ix), steps))
  {
    hide Next, WellFormed;
    if steps != [] {
      ReservedSpentAfter(ix, steps[..|steps| - 1]);
      NextReservedSpent(After(Start(ix), steps[..|steps| - 1]), steps[|steps| - 1]);
    }
  }

  lemma RunPrefix(ix: IndexState, plan: seq<Planned>, steps: seq<WalletStep>)
    requires WellFormed(ix) && RunOf(ix, plan, steps) && steps != []
    ensures var last := |steps| - 1;
            && RunOf(ix, plan, steps[..last]) && last < |plan| && Matches(steps[last], plan[last])
            && Performed(After(Start(ix), steps[..last]), steps[last])
            && After(Start(ix), steps) == Next(After(Start(ix), steps[..last]), steps[last])
  {
    hide Next, Performed, WellFormed;
    var last := |steps| - 1;
    assert forall n :: 0 <= n < last ==> steps[..last][..n] == steps[..n] && steps[..last][n] == steps[n];
  }

  lemma RunOnward(ix: IndexState, plan: seq<Planned>, steps: seq<WalletStep>, step: WalletStep)
    requires WellFormed(ix) && RunOf(ix, plan, steps) && |steps| < |plan| && Matches(step, plan[|steps|])
    requires Performed(After(Start(ix), steps), step)
    ensures RunOf(ix, plan, steps + [step])
    ensures After(Start(ix), steps + [step]) == Next(After(Start(ix), steps), step)
  {
    hide Next, Performed, WellFormed, Matches, After;
    var more := steps + [step];
    assert more[..|steps|] == steps;
    AfterLast(ix, more);
    forall n | 0 <= n < |more| ensures Matches(more[n], plan[n]) && Performed(After(Start(ix), more[..n]), more[n]) {
      if n < |steps| {
        assert more[..n] == steps[..n] && more[n] == steps[n];
      }
    }
  }

  lemma AfterLast(ix: IndexState, steps: seq<WalletStep>)
    requires WellFormed(ix) && steps != []
    ensures After(Start(ix), steps) == Next(After(Start(ix), steps[..|steps| - 1]), steps[|steps| - 1])
  {
    hide Next, WellFormed;
  }

  /** No way the plan can go comes to a request that might build a recorded payment again. */
  ghost predicate NeverRebuildable(ix: IndexState, plan: seq<Planned>)
    requires WellFormed(ix)
  {
    forall steps :: RunOf(ix, plan, steps) && |steps| < |plan| && plan[|steps|].Asking? ==>
      !Rebuildable(After(Start(ix), steps).wallet, plan[|steps|].request)
  }

  ghost predicate AlwaysSpentOnce(ix: IndexState, plan: seq<Planned>)
    requires WellFormed(ix)
  {
    forall steps :: RunOf(ix, plan, steps) ==> SpentOnce(After(Start(ix), steps))
  }

  /**
   From a wallet without entries: however a plan of requests, lifecycle events and restarts goes, no
   outpoint is ever spent by two broadcasts, if and only if it never comes to a request for a key under
   which nothing is left while a payment to it that could be built again is recorded with its output reserved.
   */
  lemma SpentOnceIff(ix: IndexState, plan: seq<Planned>)
    requires WellFormed(ix) && Sensible(plan)
    ensures AlwaysSpentOnce(ix, plan) <==> NeverRebuildable(ix, plan)
  {
    hide Next, After, RunOf, SpentOnce, Rebuildable, Performed, WellFormed;
    if AlwaysSpentOnce(ix, plan) {
      forall steps | RunOf(ix, plan, steps) && |steps| < |plan| && plan[|steps|].Asking?
        ensures !Rebuildable(After(Start(ix), steps).wallet, plan[|steps|].request)
      {
        AskSafely(ix, plan, steps);
      }
    }
    if NeverRebuildable(ix, plan) {
      forall steps | RunOf(ix, plan, steps) ensures SpentOnce(After(Start(ix), steps)) {
        StaysOnce(ix, plan, steps);
      }
    }
  }

  lemma AskSafely(ix: IndexState, plan: seq<Planned>, steps: seq<WalletStep>)
    requires WellFormed(ix) && Sensible(plan) && AlwaysSpentOnce(ix, plan)
    requires RunOf(ix, plan, steps) && |steps| < |plan| && plan[|steps|].Asking?
    ensures !Rebuildable(After(Start(ix), steps).wallet, plan[|steps|].request)
  {
    hide Next, After, RunOf, SpentOnce, ReservedSpent, Rebuildable, Performed, WellFormed;
    var s, request := After(Start(ix), steps), plan[|steps|].request;
    ReservedSpentAfter(ix, steps);
    forall own, bitcoin, out | Performed(s, Call(request, own, bitcoin, out))
      ensures SpentOnce(Next(s, Call(request, own, bitcoin, out)))
    {
      RunOnward(ix, plan, steps, Call(request, own, bitcoin, out));
    }
    CallSafeIff(s, request);
  }

  lemma {:induction false} StaysOnce(ix: IndexState, plan: seq<Planned>, steps: seq<WalletStep>)
    requires WellFormed(ix) && Sensible(plan) && NeverRebuildable(ix, plan) && RunOf(ix, plan, steps)
    ensures SpentOnce(After(Start(ix), steps))
    decreases |steps|
  {
    hide Next, RunOf, SpentOnce, ReservedSpent, Rebuildable, Performed, WellFormed;
    if steps == [] {
      NothingSpent(ix);
    } else {
      var last := |steps| - 1;
      var before := After(Start(ix), steps[..last]);
      RunPrefix(ix, plan, steps);
      StaysOnce(ix, plan, steps[..last]);
      StepStaysOnce(before, steps[last], plan[last]);
    }
  }

  lemma NothingSpent(ix: IndexState)
    requires WellFormed(ix)
    ensures SpentOnce(Start(ix))
  {
  }

  lemma StepStaysOnce(s: RunState, step: WalletStep, planned: Planned)
    requires WellFormed(s.wallet.index) && SpentOnce(s) && Matches(step, planned) && Performed(s, step)
    requires planned.Happening? ==> !planned.event.Broadcast?
    requires planned.Asking? ==> RelationshipSelector(planned.request.selector) && !Rebuildable(s.wallet, planned.request)
    ensures SpentOnce(Next(s, step))
  {
    hide Run, Step, SpentOnce, Rebuildable, Performed, CallOf, WellFormed;
    match step
    case Lifecycle(e) => StepKeepsOnce(s, e);
    case Restart(handled, finalized) => RestartKeepsOnce(s, handled, finalized);
    case Call(_, _, _, _) => SafeCallKeeps(s, step);
  }
}
