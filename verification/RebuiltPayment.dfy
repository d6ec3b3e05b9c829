/**
 A run of funding calls that spends an outpoint twice. A payment is fed back although its broadcast fails,
 is confirmed, spent and reversed; asked for the same key again, the wallet builds the same payment again.
 */
module RebuiltPayments {
  import opened Results
  import opened Bitcoin
  import opened AddressSpec
  import opened LedgerSpec
  import opened LedgerRun
  import opened FeedOrder
  import opened Ledgers
  import opened FundingSpec
  import opened FundingRuns

  function Coin(wallet: nat): Tx {
    Tx([], [TxOut(9, Pay(PayToKeyHash(Hash160(ChildKey(wallet, KEY_TYPE_EXTERNAL, 0)))))])
  }

  /** The separate payment to the first relationship key, from that coin. */
  function Payment(wallet: nat): Tx {
    Tx([TxIn(OutPoint(Coin(wallet), 0), Some([ChildKey(wallet, KEY_TYPE_EXTERNAL, 0)]))],
       [TxOut(5, Pay(PayToKeyHash(Hash160(ChildKey(wallet, KEY_TYPE_RELATE_OUT, 0)))))])
  }

  /** The transaction that was asked for, which spends the payment. */
  function Spender(wallet: nat): Tx {
    Tx([TxIn(OutPoint(Payment(wallet), 0), Some([ChildKey(wallet, KEY_TYPE_RELATE_OUT, 0)]))], [TxOut(0, Envelope)])
  }

  const REQUEST := Request(KeySelector(KEY_TYPE_RELATE_OUT, 0), [TxOut(0, Envelope)], 0)

  function Plan(wallet: nat): seq<Planned> {
    [Happening(Feed(Coin(wallet), true)), Happening(Confirm(Coin(wallet))), Asking(REQUEST),
     Happening(Confirm(Payment(wallet))), Asking(REQUEST), Happening(Reverse(Payment(wallet))), Asking(REQUEST)]
  }

  const NOTHING := FundingOutcome([], Insufficient, [])
  const ALL := FundingOutcome([true], Funded, [])
  const ACCEPTED := Sending(true, [], false, false, true)

  /** The payment is fed back and kept, but its broadcast fails. */
  function FailingCall(wallet: nat): WalletStep {
    Call(REQUEST, [], [OutPoint(Coin(wallet), 0)],
         Outside(NOTHING, NOTHING, ALL, Sending(true, [], true, true, false), ACCEPTED, 5))
  }

  /** The payment is spent. */
  function SpendingCall(wallet: nat): WalletStep {
    Call(REQUEST, [OutPoint(Payment(wallet), 0)], [], Outside(ALL, NOTHING, NOTHING, ACCEPTED, ACCEPTED, 0))
  }

  function Steps(wallet: nat): seq<WalletStep> {
    [Lifecycle(Feed(Coin(wallet), true)), Lifecycle(Confirm(Coin(wallet))), FailingCall(wallet),
     Lifecycle(Confirm(Payment(wallet))), SpendingCall(wallet), Lifecycle(Reverse(Payment(wallet)))]
  }

  // ----- what the run does to the two entries -----

  datatype Flags = Flags(pending: bool, reserved: bool, deleted: bool)

  function Entry(wallet: nat, t: nat, value: nat, f: Flags): Utxo {
    Utxo(value, PayToKeyHash(Hash160(ChildKey(wallet, t, 0))), t, 0, None, f.pending, f.reserved, f.deleted)
  }

  /** The flags of the entries of the coin and, if it is recorded, of the payment. */
  ghost predicate Stand(s: RunState, wallet: nat, internal: seq<Slot>, coin: Flags, payment: Option<Flags>) {
    var c, p := OutPoint(Coin(wallet), 0), OutPoint(Payment(wallet), 0);
    && WellFormed(s.wallet.index) && Extends(Prepared(wallet, 2), s.wallet.index)
    && s.wallet.index.lists[KEY_TYPE_INTERNAL] == internal
    && s.wallet.ledger == if payment.None? then map[c := Entry(wallet, KEY_TYPE_EXTERNAL, 9, coin)]
                          else map[c := Entry(wallet, KEY_TYPE_EXTERNAL, 9, coin),
                                   p := Entry(wallet, KEY_TYPE_RELATE_OUT, 5, payment.value)]
  }

  lemma DifferentPoints(wallet: nat)
    ensures OutPoint(Coin(wallet), 0) != OutPoint(Payment(wallet), 0) && Coin(wallet) != Payment(wallet)
    ensures forall p :: Spends(Spender(wallet), p) <==> p == OutPoint(Payment(wallet), 0)
    ensures forall p :: Spends(Payment(wallet), p) <==> p == OutPoint(Coin(wallet), 0)
    ensures forall p :: !Spends(Coin(wallet), p)
  {
    forall p ensures Spends(Spender(wallet), p) <==> p == OutPoint(Payment(wallet), 0) {
      SpendsAt(Spender(wallet), p);
      assert Spender(wallet).inputs[0].point == OutPoint(Payment(wallet), 0);
    }
    forall p ensures Spends(Payment(wallet), p) <==> p == OutPoint(Coin(wallet), 0) {
      SpendsAt(Payment(wallet), p);
      assert Payment(wallet).inputs[0].point == OutPoint(Coin(wallet), 0);
    }
  }

  lemma KeyOwned(ix: IndexState, wallet: nat, t: nat)
    requires WellFormed(ix) && Extends(Prepared(wallet, 2), ix) && t < KEY_TYPE_COUNT
    ensures OwnerOf(ix, ChildKey(wallet, t, 0)) == Some(Listed(t, 0)) && ix.wallet == wallet
  {
    assert |Prepared(wallet, 2).lists[t]| <= |ix.lists[t]|;
  }

  /** Recording a transaction with one output, to the first key of a list. */
  lemma OnePayment(w: WalletState, tx: Tx, isFinal: bool, wallet: nat, t: nat)
    requires WellFormed(w.index) && Extends(Prepared(wallet, 2), w.index)
    requires t == KEY_TYPE_EXTERNAL || t == KEY_TYPE_RELATE_OUT
    requires |tx.outputs| == 1 && tx.outputs[0].value > 0
    requires tx.outputs[0].script == Pay(PayToKeyHash(Hash160(ChildKey(wallet, t, 0))))
    ensures var r, p := Process(w, tx, isFinal), OutPoint(tx, 0);
            && WellFormed(r.index) && Extends(Prepared(wallet, 2), r.index)
            && r.index.lists[KEY_TYPE_INTERNAL] == w.index.lists[KEY_TYPE_INTERNAL]
            && r.ledger.Keys == w.ledger.Keys + {p}
            && (forall q :: q in w.ledger ==> r.ledger[q] == SpentBy(tx, q, w.ledger[q], isFinal))
            && (p !in w.ledger ==> r.ledger[p] == Entry(wallet, t, tx.outputs[0].value, Flags(true, false, false)))
  {
    hide Extends;
    KeyOwned(w.index, wallet, t);
    ProcessAt(w, tx, isFinal);
    IndexAtExtends(w.index, tx, 0, 1);
    assert IndexAt(w.index, tx, 0) == w.index;
    assert OwnedAtTurn(w.index, tx, 0);
    ExtendsTransitive(Prepared(wallet, 2), w.index, Process(w, tx, isFinal).index);
    MarkListedOthers(w.index, t, 0, KEY_TYPE_INTERNAL);
  }

  lemma CoinFed(s: RunState, wallet: nat)
    requires WellFormed(s.wallet.index) && s == Start(Prepared(wallet, 2))
    ensures var r := Step(s, Feed(Coin(wallet), true));
            && Stand(r, wallet, FreshSlots(2), Flags(true, false, false), None)
            && r.handled == {Coin(wallet)} && r.finalized == {}
  {
    hide Process, WellFormed;
    ExtendsReflexive(s.wallet.index);
    OnePayment(s.wallet, Coin(wallet), true, wallet, KEY_TYPE_EXTERNAL);
  }

  lemma PaymentFed(s: RunState, wallet: nat, internal: seq<Slot>)
    requires Stand(s, wallet, internal, Flags(false, false, false), None) && Payment(wallet) !in s.handled
    ensures var r := Step(s, Feed(Payment(wallet), true));
            && Stand(r, wallet, internal, Flags(false, false, true), Some(Flags(true, false, false)))
            && r.handled == s.handled + {Payment(wallet)} && r.finalized == s.finalized
  {
    hide Extends, Process, WellFormed;
    DifferentPoints(wallet);
    OnePayment(s.wallet, Payment(wallet), true, wallet, KEY_TYPE_RELATE_OUT);
  }

  lemma PaymentSpent(s: RunState, wallet: nat, internal: seq<Slot>, coin: Flags)
    requires Stand(s, wallet, internal, coin, Some(Flags(false, false, false)))
    ensures var r := Step(s, Broadcast(Spender(wallet)));
            && Stand(r, wallet, internal, coin, Some(Flags(false, true, false))) && r.handled == s.handled
  {
    hide Extends, Process, WellFormed;
    DifferentPoints(wallet);
    var w, tx := s.wallet, Spender(wallet);
    ProcessAt(w, tx, false);
    assert IndexAt(w.index, tx, 0) == w.index && IndexAt(w.index, tx, 1) == w.index;
  }

  lemma Confirmed(s: RunState, wallet: nat, internal: seq<Slot>, tx: Tx, coin: Flags, payment: Option<Flags>)
    requires Stand(s, wallet, internal, coin, payment) && tx in s.handled && tx !in s.finalized
    requires tx == Coin(wallet) || tx == Payment(wallet)
    ensures var r := Step(s, Confirm(tx));
            && Stand(r, wallet, internal, if tx == Coin(wallet) then coin.(pending := false) else coin,
                     if tx != Coin(wallet) && payment.Some? then Some(payment.value.(pending := false)) else payment)
            && r.handled == s.handled && r.finalized == s.finalized + {tx}
  {
    hide Extends, WellFormed;
    DifferentPoints(wallet);
    OutputsOwned(s, wallet, internal, coin, payment);
    FinalizeOutputsAt(s.wallet, tx, 0);
  }

  lemma OutputsOwned(s: RunState, wallet: nat, internal: seq<Slot>, coin: Flags, payment: Option<Flags>)
    requires Stand(s, wallet, internal, coin, payment)
    ensures PaysOwned(s.wallet.index, Coin(wallet), 0) && PaysOwned(s.wallet.index, Payment(wallet), 0)
  {
    hide Extends, WellFormed;
    KeyOwned(s.wallet.index, wallet, KEY_TYPE_EXTERNAL);
    KeyOwned(s.wallet.index, wallet, KEY_TYPE_RELATE_OUT);
  }

  lemma PaymentReversed(s: RunState, wallet: nat, internal: seq<Slot>, coin: Flags, payment: Flags)
    requires Stand(s, wallet, internal, coin, Some(payment)) && Payment(wallet) in s.handled
    ensures Stand(Step(s, Reverse(Payment(wallet))), wallet, internal, coin.(deleted := false), Some(payment.(deleted := true)))
  {
    hide Extends, WellFormed, Revert;
    DifferentPoints(wallet);
    OutputsOwned(s, wallet, internal, coin, Some(payment));
    RevertAt(s.wallet, Payment(wallet), OutPoint(Coin(wallet), 0));
    RevertAt(s.wallet, Payment(wallet), OutPoint(Payment(wallet), 0));
  }

  // ----- the two calls -----

  lemma OneTaken(p: OutPoint)
    ensures Taken([p], [true]) == [TxIn(p, None)]
  {
    assert Taken([p][..0], [true]) == [];
  }

  /** Sending one input that is stored and under a list key. */
  lemma OneInputSent(s: RunState, wallet: nat, p: OutPoint, t: nat, outputs: seq<TxOut>, o: Sending)
    requires p in s.wallet.ledger && s.wallet.ledger[p].keyType == t && s.wallet.ledger[p].keyIndex == 0
    requires s.wallet.ledger[p].keyHash.None? && s.wallet.index.wallet == wallet && o.signs && o.change == []
    ensures var msg := Tx([TxIn(p, Some([ChildKey(wallet, t, 0)]))], outputs);
            var feeds := o.fed && msg !in s.handled;
            SendCall(s, Draft([TxIn(p, None)], outputs, []), o) ==
            CallEnd(msg, if o.accepted then None else Some(BroadcastFailed),
                    if o.accepted then SendEvents(msg, feeds, o.kept) else if feeds then [Feed(msg, o.kept)] else [])
  {
    assert PublicOf(PrivateChild(wallet, t, 0)) == ChildKey(wallet, t, 0);
    assert SignedInputs(s.wallet, [TxIn(p, None)]) == [TxIn(p, Some([ChildKey(wallet, t, 0)]))];
    assert outputs + [] == outputs;
  }

  /** A change address is given, the payment is fed, and nothing is broadcast. */
  lemma FailingCallFeeds(s: RunState, wallet: nat)
    requires Stand(s, wallet, FreshSlots(2), Flags(false, false, false), None) && Payment(wallet) !in s.handled
    ensures Performed(s, FailingCall(wallet)) && ChangeRef(s.wallet.index) == Some(Listed(KEY_TYPE_INTERNAL, 0))
    ensures CallOf(s, FailingCall(wallet)).events == [Grow(Changed(s).wallet.index), Feed(Payment(wallet), true)]
  {
    hide Process, WellFormed, Extends, Run, Step;
    var c := OutPoint(Coin(wallet), 0);
    var out := FailingCall(wallet).out;
    var d := Draft([], REQUEST.outputs, []);
    KeyOwned(s.wallet.index, wallet, KEY_TYPE_RELATE_OUT);
    FirstChange(s.wallet.index);
    FundCases(s, d, REQUEST.selector, [], [c], 0, out);
    var first := Offer(d, [], out.first);
    AddressCases(s, first, REQUEST.selector, [c], 0, out);
    GiveGrows(s, Listed(KEY_TYPE_INTERNAL, 0));
    ChangedKeeps(s, REQUEST, c, NoAddress, 0);
    var t := Changed(s);
    var ra := PayToKeyHash(Hash160(ChildKey(wallet, KEY_TYPE_RELATE_OUT, 0)));
    assert RequestedAddress(t.wallet.index, REQUEST.selector) == Some(ra);
    assert TotalValue(REQUEST.outputs) == TotalValue(REQUEST.outputs[..0]) + 0 == 0;
    SeparateFails(t, wallet, first, ra);
  }

  lemma FirstChange(ix: IndexState)
    requires KEY_TYPE_INTERNAL < |ix.lists| && ix.lists[KEY_TYPE_INTERNAL] == FreshSlots(2)
    ensures ChangeRef(ix) == Some(Listed(KEY_TYPE_INTERNAL, 0))
  {
    var list := ix.lists[KEY_TYPE_INTERNAL];
    assert !list[0].used && !list[0].given;
    assert FirstFree(list).Some?;
  }

  lemma SeparateFails(t: RunState, wallet: nat, d: Draft, ra: RawAddress)
    requires WellFormed(t.wallet.index) && d.inputs == [] && Payment(wallet) !in t.handled
    requires t.wallet.ledger == map[OutPoint(Coin(wallet), 0) := Entry(wallet, KEY_TYPE_EXTERNAL, 9, Flags(false, false, false))]
    requires t.wallet.index.wallet == wallet && ra == PayToKeyHash(Hash160(ChildKey(wallet, KEY_TYPE_RELATE_OUT, 0)))
    ensures var c := SeparateCall(t, d, [OutPoint(Coin(wallet), 0)], ra, 5, FailingCall(wallet).out);
            c.events == [Feed(Payment(wallet), true)]
  {
    var c, out := OutPoint(Coin(wallet), 0), FailingCall(wallet).out;
    OneTaken(c);
    OneInputSent(t, wallet, c, KEY_TYPE_EXTERNAL, [TxOut(5, Pay(ra))], out.sendSeparate);
    hide Run, Taken, SendCall;
    SeparateCases(t, d, [c], ra, 5, out);
  }

  /** The payment is found under its key and spent, and that is recorded. */
  lemma SpendingCallSends(s: RunState, wallet: nat, internal: seq<Slot>)
    requires Stand(s, wallet, internal, Flags(false, false, true), Some(Flags(false, false, false)))
    ensures Performed(s, SpendingCall(wallet))
    ensures CallOf(s, SpendingCall(wallet)).events == [Broadcast(Spender(wallet))]
  {
    hide Process, WellFormed, Run, SendCall, Taken;
    var p := OutPoint(Payment(wallet), 0);
    var out := SpendingCall(wallet).out;
    DifferentPoints(wallet);
    OneTaken(p);
    FundCases(s, Draft([], REQUEST.outputs, []), REQUEST.selector, [p], [], 0, out);
    OneInputSent(s, wallet, p, KEY_TYPE_RELATE_OUT, REQUEST.outputs, ACCEPTED);
  }

  lemma GrownStand(s: RunState, wallet: nat, coin: Flags)
    requires Stand(s, wallet, FreshSlots(2), coin, None) && ChangeRef(s.wallet.index) == Some(Listed(KEY_TYPE_INTERNAL, 0))
    ensures var t := Changed(s);
            && Stand(t, wallet, FreshSlots(2)[0 := Slot(true, false, true)], coin, None)
            && t.handled == s.handled && t.finalized == s.finalized
  {
    GiveGrows(s, Listed(KEY_TYPE_INTERNAL, 0));
    ExtendsTransitive(Prepared(wallet, 2), s.wallet.index, Changed(s).wallet.index);
  }

  // ----- the run -----

  lemma TwoEvents(s: RunState, a: Event, b: Event)
    requires WellFormed(s.wallet.index)
    ensures Run(s, [a, b]) == Step(Step(s, a), b)
  {
    hide Step;
    RunOne(s, a);
    RunAppend(s, [a], [b]);
    RunOne(Step(s, a), b);
    assert [a] + [b] == [a, b];
  }

  /** What a further step leads to. */
  lemma Onward(ix: IndexState, plan: seq<Planned>, steps: seq<WalletStep>, n: nat, s: RunState)
    requires WellFormed(ix) && n < |steps| && n < |plan| && RunOf(ix, plan, steps[..n]) && After(Start(ix), steps[..n]) == s
    requires Matches(steps[n], plan[n]) && Performed(s, steps[n])
    ensures WellFormed(s.wallet.index)
    ensures RunOf(ix, plan, steps[..n + 1]) && After(Start(ix), steps[..n + 1]) == Next(s, steps[n])
  {
    hide RunOf, Next, After, Performed, Matches, WellFormed;
    assert steps[..n + 1] == steps[..n] + [steps[n]];
    RunOnward(ix, plan, steps[..n], steps[n]);
  }

  lemma StandWell(s: RunState, wallet: nat, internal: seq<Slot>, coin: Flags, payment: Option<Flags>)
    requires Stand(s, wallet, internal, coin, payment)
    ensures WellFormed(s.wallet.index)
  {
  }

  lemma PlanIs(wallet: nat)
    ensures |Steps(wallet)| == 6 && |Plan(wallet)| == 7 && Plan(wallet)[6] == Asking(REQUEST)
    ensures forall n :: 0 <= n < 6 ==> Matches(Steps(wallet)[n], Plan(wallet)[n])
    ensures Steps(wallet)[0] == Lifecycle(Feed(Coin(wallet), true)) && Steps(wallet)[1] == Lifecycle(Confirm(Coin(wallet)))
    ensures Steps(wallet)[2] == FailingCall(wallet) && Steps(wallet)[3] == Lifecycle(Confirm(Payment(wallet)))
    ensures Steps(wallet)[4] == SpendingCall(wallet) && Steps(wallet)[5] == Lifecycle(Reverse(Payment(wallet)))
  {
  }

  lemma StartOf(ix: IndexState, plan: seq<Planned>, steps: seq<WalletStep>)
    requires WellFormed(ix)
    ensures RunOf(ix, plan, steps[..0]) && After(Start(ix), steps[..0]) == Start(ix)
  {
  }

  /** The steps of the run, one after the other. */
  lemma RunStands(wallet: nat) returns (s: RunState)
    ensures WellFormed(Prepared(wallet, 2)) && RunOf(Prepared(wallet, 2), Plan(wallet), Steps(wallet))
    ensures After(Start(Prepared(wallet, 2)), Steps(wallet)) == s
    ensures Stand(s, wallet, FreshSlots(2)[0 := Slot(true, false, true)], Flags(false, false, false), Some(Flags(false, true, true)))
  {
    hide RunOf, After, Next, Performed, Stand, WellFormed, Step, Run, CallOf, Plan, Steps, Coin, Payment, Spender, Prepared,
         FailingCall, SpendingCall, Changed;
    var ix, plan, steps := Prepared(wallet, 2), Plan(wallet), Steps(wallet);
    PreparedExactGap(wallet, 2);
    PlanIs(wallet);
    DifferentPoints(wallet);
    StartOf(ix, plan, steps);
    var given := FreshSlots(2)[0 := Slot(true, false, true)];
    var s0 := Start(ix);
    CoinFed(s0, wallet);
    LifecycleStep(s0, Feed(Coin(wallet), true));
    Onward(ix, plan, steps, 0, s0);
    var s1 := Next(s0, steps[0]);
    Confirmed(s1, wallet, FreshSlots(2), Coin(wallet), Flags(true, false, false), None);
    StandWell(s1, wallet, FreshSlots(2), Flags(true, false, false), None);
    LifecycleStep(s1, Confirm(Coin(wallet)));
    Onward(ix, plan, steps, 1, s1);
    var s2 := Next(s1, steps[1]);
    FailingCallFeeds(s2, wallet);
    var s3 := FailedStep(s2, wallet);
    Onward(ix, plan, steps, 2, s2);
    Confirmed(s3, wallet, given, Payment(wallet), Flags(false, false, true), Some(Flags(true, false, false)));
    StandWell(s3, wallet, given, Flags(false, false, true), Some(Flags(true, false, false)));
    LifecycleStep(s3, Confirm(Payment(wallet)));
    Onward(ix, plan, steps, 3, s3);
    var s4 := Next(s3, steps[3]);
    StandWell(s4, wallet, given, Flags(false, false, true), Some(Flags(false, false, false)));
    SpendingCallSends(s4, wallet, given);
    PaymentSpent(s4, wallet, given, Flags(false, false, true));
    SpentStep(s4, wallet);
    Onward(ix, plan, steps, 4, s4);
    var s5 := Next(s4, steps[4]);
    StandWell(s5, wallet, given, Flags(false, false, true), Some(Flags(false, true, false)));
    PaymentReversed(s5, wallet, given, Flags(false, false, true), Flags(false, true, false));
    LifecycleStep(s5, Reverse(Payment(wallet)));
    Onward(ix, plan, steps, 5, s5);
    s := Next(s5, steps[5]);
    assert steps[..6] == steps;
  }

  lemma LifecycleStep(s: RunState, e: Event)
    requires WellFormed(s.wallet.index)
    ensures Performed(s, Lifecycle(e)) && Next(s, Lifecycle(e)) == Step(s, e)
  {
  }

  lemma FailedStep(s: RunState, wallet: nat) returns (r: RunState)
    requires Stand(s, wallet, FreshSlots(2), Flags(false, false, false), None) && Payment(wallet) !in s.handled
    ensures WellFormed(s.wallet.index) && r == Next(s, FailingCall(wallet))
    ensures Stand(r, wallet, FreshSlots(2)[0 := Slot(true, false, true)], Flags(false, false, true), Some(Flags(true, false, false)))
    ensures r.handled == s.handled + {Payment(wallet)} && r.finalized == s.finalized
  {
    hide Stand, WellFormed, Run, Step, CallOf, Payment, Performed;
    StandWell(s, wallet, FreshSlots(2), Flags(false, false, false), None);
    FailingCallFeeds(s, wallet);
    GrownStand(s, wallet, Flags(false, false, false));
    var t := Changed(s);
    GiveGrows(s, Listed(KEY_TYPE_INTERNAL, 0));
    ChangeGrows(s);
    TwoEvents(s, Grow(t.wallet.index), Feed(Payment(wallet), true));
    PaymentFed(t, wallet, FreshSlots(2)[0 := Slot(true, false, true)]);
    r := Next(s, FailingCall(wallet));
  }

  lemma SpentStep(s: RunState, wallet: nat)
    requires WellFormed(s.wallet.index) && CallOf(s, SpendingCall(wallet)).events == [Broadcast(Spender(wallet))]
    ensures Next(s, SpendingCall(wallet)) == Step(s, Broadcast(Spender(wallet)))
  {
    hide Run, CallOf, Step;
    RunOne(s, Broadcast(Spender(wallet)));
  }

  lemma NowRebuildable(s: RunState, wallet: nat)
    requires Stand(s, wallet, FreshSlots(2)[0 := Slot(true, false, true)], Flags(false, false, false), Some(Flags(false, true, true)))
    ensures Rebuildable(s.wallet, REQUEST)
  {
    hide WellFormed;
    var c, p, w := OutPoint(Coin(wallet), 0), OutPoint(Payment(wallet), 0), s.wallet;
    KeyOwned(w.index, wallet, KEY_TYPE_RELATE_OUT);
    var list := w.index.lists[KEY_TYPE_INTERNAL];
    assert !list[1].used && !list[1].given;
    assert ChangeRef(w.index).Some?;
    DifferentPoints(wallet);
    assert NothingUnder(w.ledger, REQUEST.selector);
    assert PublicOf(PrivateChild(wallet, KEY_TYPE_EXTERNAL, 0)) == ChildKey(wallet, KEY_TYPE_EXTERNAL, 0);
    assert SignedInputs(w, p.tx.inputs) == p.tx.inputs;
    assert PointsOf(p.tx.inputs) == [c];
    assert TotalValue(REQUEST.outputs) == TotalValue(REQUEST.outputs[..0]) + 0 == 0;
    var ra := PayToKeyHash(Hash160(ChildKey(wallet, KEY_TYPE_RELATE_OUT, 0)));
    assert IsPayment(w, p, ra, 0);
    RebuildableIs(w, REQUEST, p);
  }

  /**
   The plan comes to a request that meets the condition, so some way it goes spends an outpoint twice:
   every step up to there is what the funding calls make of it.
   */
  lemma RebuiltPayment(wallet: nat)
    ensures var ix := Prepared(wallet, 2);
            && WellFormed(ix) && Sensible(Plan(wallet)) && RunOf(ix, Plan(wallet), Steps(wallet))
            && Plan(wallet)[|Steps(wallet)|] == Asking(REQUEST)
            && Rebuildable(After(Start(ix), Steps(wallet)).wallet, REQUEST)
            && !AlwaysSpentOnce(ix, Plan(wallet))
  {
    hide RunOf, After, Stand, WellFormed, Rebuildable, Prepared, Plan, Steps;
    PlanIs(wallet);
    PlanSensible(wallet);
    var s := RunStands(wallet);
    NowRebuildable(s, wallet);
    var ix, plan, steps := Prepared(wallet, 2), Plan(wallet), Steps(wallet);
    assert |steps| < |plan| && plan[|steps|].Asking? && Rebuildable(After(Start(ix), steps).wallet, plan[|steps|].request);
    SpentOnceIff(ix, plan);
  }

  lemma PlanSensible(wallet: nat)
    ensures Sensible(Plan(wallet))
  {
    forall n | 0 <= n < |Plan(wallet)|
      ensures Plan(wallet)[n].Asking? ==> RelationshipSelector(Plan(wallet)[n].request.selector)
      ensures Plan(wallet)[n].Happening? ==> !Plan(wallet)[n].event.Broadcast?
    {
      assert n == 0 || n == 1 || n == 2 || n == 3 || n == 4 || n == 5 || n == 6;
    }
  }
}
