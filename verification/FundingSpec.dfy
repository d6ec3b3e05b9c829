/**
 The funding calls of internal/wallet/funding.go on values. What the transaction library and the network
 decide is a parameter; each call gives the transaction it ends with and the run events it amounts to.
 The methods in Funding.dfy are proved against these functions.
 */
module FundingSpec {
  import opened Results
  import opened Bitcoin
  import opened AddressSpec
  import opened LedgerSpec
  import opened FeedOrder
  import opened LedgerRun
  import opened Ledgers
  import opened Signing

  datatype FundingStatus = Funded | Insufficient | Refused

  /** One AddFunding call: which of the offered UTXOs it takes, how it ends, the change it adds. */
  datatype FundingOutcome = FundingOutcome(take: seq<bool>, status: FundingStatus, change: seq<TxOut>)

  /** One transaction on its way: is it signed, what change remains, is it fed back and then kept, is it accepted. */
  datatype Sending = Sending(signs: bool, change: seq<TxOut>, fed: bool, kept: bool, accepted: bool)

  /** Everything a funding call depends on outside the wallet. */
  datatype Outside = Outside(
    first: FundingOutcome,
    more: FundingOutcome,
    separate: FundingOutcome,
    sendSeparate: Sending,
    send: Sending,
    estimate: nat)

  datatype FundingError =
    | FundingFailed
    | NoBitcoin
    | NoChangeAddress
    | AddressNotFound
    | KeysMissing
    | SignFailed
    | BroadcastFailed

  /** A transaction being built. */
  datatype Draft = Draft(inputs: seq<TxIn>, outputs: seq<TxOut>, change: seq<TxOut>)

  function AsTx(d: Draft): (tx: Tx)
    ensures tx.inputs == d.inputs && d.outputs <= tx.outputs
  {
    Tx(d.inputs, d.outputs + d.change)
  }

  /** How a call ended: the transaction as it then stands, the error if any, and the run events. */
  datatype CallEnd = CallEnd(msg: Tx, error: Option<FundingError>, events: seq<Event>)

  /** Unsigned inputs for the points taken, in the order offered. */
  function Taken(points: seq<OutPoint>, take: seq<bool>): seq<TxIn> {
    if points == [] then []
    else
      var last := |points| - 1;
      Taken(points[..last], take) + (if last < |take| && take[last] then [TxIn(points[last], None)] else [])
  }

  function TotalValue(outputs: seq<TxOut>): nat {
    if outputs == [] then 0 else TotalValue(outputs[..|outputs| - 1]) + outputs[|outputs| - 1].value
  }

  /** What the separate transaction pays: the fee estimate, at least twice the dust limit if too low. */
  function FundingAmount(estimate: nat, dustLimit: nat, outputs: seq<TxOut>): nat {
    (if estimate < dustLimit then 2 * dustLimit else estimate) + TotalValue(outputs)
  }

  predicate SamePoints(a: seq<TxIn>, b: seq<TxIn>) {
    |a| == |b| && forall i :: 0 <= i < |a| ==> a[i].point == b[i].point
  }

  // ----- what may be spent -----

  predicate Stored(l: LedgerState, inputs: seq<TxIn>) {
    forall n :: 0 <= n < |inputs| ==> inputs[n].point in l
  }

  /** Distinct stored outpoints, none reserved. */
  predicate Spendable(l: LedgerState, inputs: seq<TxIn>) {
    && (forall i, j :: 0 <= i < j < |inputs| ==> inputs[i].point != inputs[j].point)
    && (forall n :: 0 <= n < |inputs| ==> inputs[n].point in l && !l[inputs[n].point].reserved)
  }

  predicate Distinct(points: seq<OutPoint>) {
    forall i, j :: 0 <= i < j < |points| ==> points[i] != points[j]
  }

  /** Distinct stored outpoints that a selector takes. */
  predicate Picked(l: LedgerState, points: seq<OutPoint>, s: Selector) {
    && Distinct(points)
    && (forall n :: 0 <= n < |points| ==> points[n] in l && Selects(s, l[points[n]]))
  }

  /** All stored outpoints that a selector takes, each once, in some order. */
  ghost predicate Offered(l: LedgerState, points: seq<OutPoint>, s: Selector) {
    Distinct(points) && forall p :: p in points <==> p in l && Selects(s, l[p])
  }

  /** No stored entry is one the selector takes. */
  predicate NothingUnder(l: LedgerState, s: Selector) {
    forall p :: p in l ==> !Selects(s, l[p])
  }

  lemma OfferedPicked(l: LedgerState, points: seq<OutPoint>, s: Selector)
    requires Offered(l, points, s)
    ensures Picked(l, points, s)
    ensures points == [] <==> NothingUnder(l, s)
  {
    hide Selects;
    forall n | 0 <= n < |points| ensures points[n] in l && Selects(s, l[points[n]]) {
      assert points[n] in points;
    }
    if points != [] {
      assert points[0] in points;
    }
  }

  /** What a selector takes beyond some points. */
  function Remaining(l: LedgerState, points: seq<OutPoint>, s: Selector): set<OutPoint> {
    set p | p in l && Selects(s, l[p]) && p !in points
  }

  lemma RemainingLess(l: LedgerState, points: seq<OutPoint>, p: OutPoint, s: Selector)
    requires Picked(l, points, s) && p in Remaining(l, points, s)
    ensures Picked(l, points + [p], s)
    ensures Remaining(l, points + [p], s) == Remaining(l, points, s) - {p}
  {
    hide Selects;
    DistinctAppend(points, p);
    assert forall q :: q in points + [p] <==> q in points || q == p;
  }

  lemma NothingRemains(l: LedgerState, points: seq<OutPoint>, s: Selector)
    requires Picked(l, points, s) && Remaining(l, points, s) == {}
    ensures Offered(l, points, s)
  {
    hide Selects;
    forall p | p in l && Selects(s, l[p]) ensures p in points {
      assert p in points || p in Remaining(l, points, s);
    }
  }

  /** Whatever is picked first, there is an order that offers the rest after it. */
  lemma {:induction false} OrderExists(l: LedgerState, first: seq<OutPoint>, s: Selector)
    requires Picked(l, first, s)
    ensures exists points :: Offered(l, points, s) && first <= points
    decreases |Remaining(l, first, s)|
  {
    hide *;
    if Remaining(l, first, s) == {} {
      NothingRemains(l, first, s);
    } else {
      var p :| p in Remaining(l, first, s);
      RemainingLess(l, first, p, s);
      OrderExists(l, first + [p], s);
      var points :| Offered(l, points, s) && first + [p] <= points;
      assert points[..|first|] == (first + [p])[..|first|] == first;
    }
  }

  ghost function AnyOrder(l: LedgerState, s: Selector): (points: seq<OutPoint>)
    ensures Offered(l, points, s)
  {
    OrderExists(l, [], s);
    var points :| Offered(l, points, s);
    points
  }

  function PointsOf(inputs: seq<TxIn>): (r: seq<OutPoint>)
    ensures |r| == |inputs| && forall i :: 0 <= i < |r| ==> r[i] == inputs[i].point
  {
    seq(|inputs|, i requires 0 <= i < |inputs| => inputs[i].point)
  }

  lemma DistinctAppend(points: seq<OutPoint>, p: OutPoint)
    requires Distinct(points) && p !in points
    ensures Distinct(points + [p])
  {
  }

  /** What AddFunding takes are some of the points offered, each at most once. */
  lemma {:induction false} TakenFrom(points: seq<OutPoint>, take: seq<bool>)
    requires Distinct(points)
    ensures Distinct(PointsOf(Taken(points, take)))
    ensures forall p :: p in PointsOf(Taken(points, take)) ==> p in points
  {
    if points != [] {
      var last := |points| - 1;
      TakenFrom(points[..last], take);
      var before := PointsOf(Taken(points[..last], take));
      if last < |take| && take[last] {
        assert PointsOf(Taken(points, take)) == before + [points[last]];
        DistinctAppend(before, points[last]);
      } else {
        assert Taken(points, take) == Taken(points[..last], take);
      }
    }
  }

  /** The library takes at least the first output it is offered. */
  predicate TakesFirst(o: FundingOutcome) {
    |o.take| > 0 && o.take[0]
  }

  lemma {:induction false} TakenSome(points: seq<OutPoint>, o: FundingOutcome)
    ensures points == [] ==> Taken(points, o.take) == []
    ensures points != [] && TakesFirst(o) ==> Taken(points, o.take) != []
  {
    if |points| > 1 {
      TakenSome(points[..|points| - 1], o);
    }
  }

  /** Whatever AddFunding takes of a selection is a selection. */
  lemma TakenPicked(l: LedgerState, points: seq<OutPoint>, s: Selector, take: seq<bool>)
    requires Picked(l, points, s)
    ensures Picked(l, PointsOf(Taken(points, take)), s)
  {
    TakenFrom(points, take);
    hide Selects, Taken;
    var taken := PointsOf(Taken(points, take));
    forall n | 0 <= n < |taken| ensures taken[n] in l && Selects(s, l[taken[n]]) {
      assert taken[n] in points;
    }
  }

  lemma PickedSpendable(l: LedgerState, inputs: seq<TxIn>, s: Selector)
    requires Picked(l, PointsOf(inputs), s)
    ensures Spendable(l, inputs)
  {
    assert forall i :: 0 <= i < |inputs| ==> inputs[i].point == PointsOf(inputs)[i];
  }

  lemma NothingPicked(l: LedgerState)
    ensures Picked(l, PointsOf([]), BitcoinSelector)
  {
  }

  /** A relationship key's selection and the bitcoin selection never overlap. */
  lemma BothSpendable(l: LedgerState, a: seq<TxIn>, b: seq<TxIn>, s: Selector)
    requires !s.BitcoinSelector? && s.keyType != KEY_TYPE_EXTERNAL && s.keyType != KEY_TYPE_INTERNAL
    requires Picked(l, PointsOf(a), s) && Picked(l, PointsOf(b), BitcoinSelector)
    ensures Spendable(l, a + b)
  {
    PickedSpendable(l, a, s);
    PickedSpendable(l, b, BitcoinSelector);
    forall i, j | 0 <= i < |a| && 0 <= j < |b| ensures a[i].point != b[j].point {
      assert a[i].point == PointsOf(a)[i] && b[j].point == PointsOf(b)[j];
    }
  }

  // ----- which key an outpoint pays -----

  function RequestedKey(wallet: nat, s: Selector): PublicKey {
    match s
    case KeySelector(t, i) => ChildKey(wallet, t, i)
    case KeyHashSelector(t, i, h) => NextPublicKey(ChildKey(wallet, t, i), h)
    case BitcoinSelector => NoKey
  }

  predicate PaysTo(p: OutPoint, key: PublicKey) {
    p.index < |p.tx.outputs| && PaidKey(AddressOf(p.tx.outputs[p.index].script)) == Some(key)
  }

  /** The list a key comes from, directly or derived. */
  function RootType(key: PublicKey): Option<nat> {
    match key
    case NoKey => None
    case ChildKey(_, t, _) => Some(t)
    case NextPublicKey(base, _) => RootType(base)
  }

  /** The outpoint pays a key of the bitcoin lists. */
  predicate PaysBitcoin(p: OutPoint) {
    && p.index < |p.tx.outputs|
    && var key := PaidKey(AddressOf(p.tx.outputs[p.index].script));
       key.Some? && (RootType(key.value) == Some(KEY_TYPE_EXTERNAL) || RootType(key.value) == Some(KEY_TYPE_INTERNAL))
  }

  /** The input spends an output locked to a key. */
  predicate SpendsKey(input: TxIn, key: PublicKey) {
    PaysTo(input.point, key)
  }

  /** Every input is signed by the key its output is locked to. */
  predicate Unlocked(inputs: seq<TxIn>) {
    forall n :: 0 <= n < |inputs| ==>
      var keys := inputs[n].keys;
      keys.Some? && |keys.value| == 1 && SpendsKey(inputs[n], keys.value[0])
  }

  /** What an entry that can be signed for pays. */
  lemma EntryPays(w: WalletState, p: OutPoint)
    requires LedgerSigns(w) && p in w.ledger
    ensures PaysTo(p, PublicOf(SigningKey(w.index.wallet, w.ledger[p])))
    ensures var u := w.ledger[p];
            var child := ChildKey(w.index.wallet, u.keyType, u.keyIndex);
            PublicOf(SigningKey(w.index.wallet, u)) == if u.keyHash.Some? then NextPublicKey(child, u.keyHash.value) else child
  {
    assert Addressed(p, w.ledger[p]) && Signs(w.index.wallet, w.ledger[p]);
    var u := w.ledger[p];
    assert PublicOf(PrivateChild(w.index.wallet, u.keyType, u.keyIndex)) == ChildKey(w.index.wallet, u.keyType, u.keyIndex);
  }

  lemma PickedSpendsKey(w: WalletState, p: OutPoint, s: Selector)
    requires LedgerSigns(w) && p in w.ledger && Selects(s, w.ledger[p])
    ensures !s.BitcoinSelector? ==> PaysTo(p, RequestedKey(w.index.wallet, s))
    ensures s.BitcoinSelector? ==> PaysBitcoin(p)
  {
    hide LedgerSigns, SigningKey;
    EntryPays(w, p);
    assert RootType(ChildKey(w.index.wallet, w.ledger[p].keyType, w.ledger[p].keyIndex)) == Some(w.ledger[p].keyType);
  }

  // ----- sending one transaction -----

  /** A transaction that is sent: fed back first or not, then processed as our own. */
  function SendEvents(tx: Tx, feeds: bool, kept: bool): seq<Event> {
    if feeds then [Feed(tx, kept), Broadcast(tx)] else [Broadcast(tx)]
  }

  /** Every input signed with the key of the entry it spends. */
  function SignedInputs(w: WalletState, inputs: seq<TxIn>): (r: seq<TxIn>)
    requires Stored(w.ledger, inputs)
    ensures SamePoints(r, inputs)
    ensures forall n :: 0 <= n < |r| ==>
              r[n].keys == Some([PublicOf(SigningKey(w.index.wallet, w.ledger[inputs[n].point]))])
  {
    seq(|inputs|, i requires 0 <= i < |inputs| =>
      TxIn(inputs[i].point, Some([PublicOf(SigningKey(w.index.wallet, w.ledger[inputs[i].point]))])))
  }

  function Stopped(d: Draft, e: FundingError): CallEnd {
    CallEnd(AsTx(d), Some(e), [])
  }

  /** The tail of every funding branch: collect the keys, sign, broadcast, and record as our own. */
  function SendCall(s: RunState, d: Draft, o: Sending): CallEnd {
    if !Stored(s.wallet.ledger, d.inputs) then Stopped(d, KeysMissing)
    else if !o.signs then Stopped(d, SignFailed)
    else
      var msg := AsTx(Draft(SignedInputs(s.wallet, d.inputs), d.outputs, o.change));
      var feeds := o.fed && msg !in s.handled;
      if o.accepted then CallEnd(msg, None, SendEvents(msg, feeds, o.kept))
      else CallEnd(msg, Some(BroadcastFailed), if feeds then [Feed(msg, o.kept)] else [])
  }

  // ----- the funding calls -----

  /** AddFunding: inputs are added in order. */
  function Offer(d: Draft, points: seq<OutPoint>, o: FundingOutcome): Draft {
    Draft(d.inputs + Taken(points, o.take), d.outputs, o.change)
  }

  /** Success needs at least one input, as a fee is always due. */
  function StatusOf(d: Draft, o: FundingOutcome): FundingStatus {
    if o.status == Funded && d.inputs == [] then Insufficient else o.status
  }

  /** Fund from what is offered, and send. */
  function OfferAndSend(s: RunState, d: Draft, points: seq<OutPoint>, o: FundingOutcome, send: Sending): CallEnd {
    var next := Offer(d, points, o);
    if points == [] then Stopped(d, NoBitcoin)
    else if StatusOf(next, o) != Funded then Stopped(next, FundingFailed)
    else SendCall(s, next, send)
  }

  /** Pay an address from bitcoin funds, then spend that payment. */
  ghost function SeparateCall(s: RunState, d: Draft, bitcoin: seq<OutPoint>, ra: RawAddress, amount: nat, out: Outside): CallEnd
    requires WellFormed(s.wallet.index)
  {
    var fund := OfferAndSend(s, Draft([], [TxOut(amount, Pay(ra))], []), bitcoin, out.separate, out.sendSeparate);
    if fund.error.Some? then CallEnd(AsTx(d), fund.error, fund.events)
    else
      var sent := SendCall(Run(s, fund.events), d.(inputs := d.inputs + [TxIn(OutPoint(fund.msg, 0), None)]), out.send);
      sent.(events := fund.events + sent.events)
  }

  /** The change address of the separate transaction. */
  function ChangeRef(ix: IndexState): (r: Option<AddressRef>)
    ensures r.Some? ==> ValidRef(ix, r.value) && r.value.Listed?
  {
    if KEY_TYPE_INTERNAL < |ix.lists| && FirstFree(ix.lists[KEY_TYPE_INTERNAL]).Some?
    then Some(Listed(KEY_TYPE_INTERNAL, FirstFree(ix.lists[KEY_TYPE_INTERNAL]).value))
    else None
  }

  ghost function Changed(s: RunState): RunState
    requires WellFormed(s.wallet.index) && ChangeRef(s.wallet.index).Some?
  {
    Step(s, Grow(Give(s.wallet.index, ChangeRef(s.wallet.index).value)))
  }

  /** The address of the requested key, from the list or derived from the hash. */
  function RequestedAddress(ix: IndexState, selector: Selector): Option<RawAddress> {
    match selector
    case KeySelector(t, i) =>
      if ValidRef(ix, Listed(t, i)) then Some(StoredAddress(ix.wallet, Listed(t, i))) else None
    case KeyHashSelector(_, _, _) => Some(PayToKeyHash(Hash160(RequestedKey(ix.wallet, selector))))
    case BitcoinSelector => None
  }

  /** Nothing under the requested key: take a change address and pay the key from bitcoin funds. */
  ghost function AddressCall(s: RunState, d: Draft, selector: Selector, bitcoin: seq<OutPoint>, dust: nat, out: Outside): CallEnd
    requires WellFormed(s.wallet.index)
  {
    if ChangeRef(s.wallet.index).None? then Stopped(d, NoChangeAddress)
    else
      var t := Changed(s);
      var ra := RequestedAddress(t.wallet.index, selector);
      var call := if ra.None? then Stopped(d, AddressNotFound)
                  else SeparateCall(t, d, bitcoin, ra.value, FundingAmount(out.estimate, dust, d.outputs), out);
      call.(events := [Grow(t.wallet.index)] + call.events)
  }

  /**
   AddKeyIndexFunding and AddKeyFunding. `own` are the outputs offered under the requested key, `bitcoin`
   the bitcoin outputs, in the order the ledger's map gave them.
   */
  ghost function FundCall(s: RunState, d: Draft, selector: Selector, own: seq<OutPoint>, bitcoin: seq<OutPoint>,
                          dust: nat, out: Outside): CallEnd
    requires WellFormed(s.wallet.index)
  {
    var first := Offer(d, own, out.first);
    match StatusOf(first, out.first)
    case Funded => SendCall(s, first, out.send)
    case Refused => Stopped(first, FundingFailed)
    case Insufficient =>
      if first.inputs != [] then OfferAndSend(s, first, bitcoin, out.more, out.send)
      else AddressCall(s, first, selector, bitcoin, dust, out)
  }

  // ----- events -----

  ghost predicate SelectedAll(s: RunState, events: seq<Event>)
    requires WellFormed(s.wallet.index)
  {
    forall n :: 0 <= n < |events| && events[n].Broadcast? ==> Selected(Run(s, events[..n]), events[n].tx)
  }

  /** The inputs are distinct and none of them is reserved already; they need not be stored. */
  predicate Unclaimed(l: LedgerState, inputs: seq<TxIn>) {
    && (forall i, j :: 0 <= i < j < |inputs| ==> inputs[i].point != inputs[j].point)
    && (forall n :: 0 <= n < |inputs| && inputs[n].point in l ==> !l[inputs[n].point].reserved)
  }

  /** Everything a call broadcasts selects safely if and only if what it finished with spends unclaimed outputs. */
  ghost predicate SafeExactly(s: RunState, msg: Tx, sent: bool, events: seq<Event>)
    requires WellFormed(s.wallet.index)
  {
    SelectedAll(s, events) <==> (sent ==> Unclaimed(s.wallet.ledger, msg.inputs))
  }

  /** Exact gaps stay exact over the events. */
  ghost predicate KeepsGap(s: RunState, events: seq<Event>)
    requires WellFormed(s.wallet.index)
  {
    ExactGap(s.wallet.index) ==> ExactGap(Run(s, events).wallet.index)
  }

  lemma {:induction false} RunAppend(s: RunState, a: seq<Event>, b: seq<Event>)
    requires WellFormed(s.wallet.index)
    ensures Run(s, a + b) == Run(Run(s, a), b)
    decreases |b|
  {
    hide Step;
    if b == [] {
      assert a + b == a;
    } else {
      var last := |b| - 1;
      assert (a + b)[..|a + b| - 1] == a + b[..last];
      RunAppend(s, a, b[..last]);
    }
  }

  lemma SelectedAppend(s: RunState, a: seq<Event>, b: seq<Event>)
    requires WellFormed(s.wallet.index)
    ensures SelectedAll(s, a + b) <==> SelectedAll(s, a) && SelectedAll(Run(s, a), b)
  {
    hide Run, Selected;
    var events := a + b;
    forall n | 0 <= n < |a| ensures events[..n] == a[..n] && events[n] == a[n] {
    }
    forall n | 0 <= n < |b|
      ensures Run(s, events[..|a| + n]) == Run(Run(s, a), b[..n]) && events[|a| + n] == b[n]
    {
      assert events[..|a| + n] == a + b[..n];
      RunAppend(s, a, b[..n]);
    }
    if SelectedAll(s, a) && SelectedAll(Run(s, a), b) {
      forall n | 0 <= n < |events| && events[n].Broadcast? ensures Selected(Run(s, events[..n]), events[n].tx) {
        if n >= |a| {
          assert events[|a| + (n - |a|)] == b[n - |a|];
        }
      }
    }
  }

  lemma SendRun(s: RunState, tx: Tx, feeds: bool, kept: bool)
    requires WellFormed(s.wallet.index)
    ensures var fed := if feeds then Step(s, Feed(tx, kept)) else s;
            && Run(s, []) == s && Run(s, [Feed(tx, kept)]) == Step(s, Feed(tx, kept))
            && Run(s, SendEvents(tx, feeds, kept)) == Step(fed, Broadcast(tx))
            && (SelectedAll(s, SendEvents(tx, feeds, kept)) <==> Selected(fed, tx))
  {
    hide Step, Selected;
    RunStart(s);
    RunOne(s, Feed(tx, kept));
    RunOne(s, Broadcast(tx));
    var events := SendEvents(tx, feeds, kept);
    if feeds {
      assert events == [Feed(tx, kept)] + [Broadcast(tx)];
      RunAppend(s, [Feed(tx, kept)], [Broadcast(tx)]);
      RunOne(Step(s, Feed(tx, kept)), Broadcast(tx));
      assert events[..1] == [Feed(tx, kept)];
    } else {
      assert events[..0] == [];
    }
  }

  lemma RunStart(s: RunState)
    requires WellFormed(s.wallet.index)
    ensures Run(s, []) == s
  {
  }

  lemma RunOne(s: RunState, e: Event)
    requires WellFormed(s.wallet.index)
    ensures Run(s, [e]) == Step(s, e)
  {
    assert [e][..0] == [];
  }

  /** What one pass does to the entries: none is lost, the new ones are unreserved outputs of `tx`. */
  ghost predicate Passed(w: WalletState, r: WalletState, tx: Tx) {
    && (forall p :: p in w.ledger ==> p in r.ledger)
    && (forall p :: p in w.ledger && w.ledger[p].reserved != r.ledger[p].reserved ==> Spends(tx, p))
    && (forall p :: p in r.ledger && p !in w.ledger ==> p.tx == tx && !r.ledger[p].reserved)
  }

  lemma ProcessPassed(w: WalletState, tx: Tx, isFinal: bool)
    requires WellFormed(w.index)
    ensures Passed(w, Process(w, tx, isFinal), tx)
    ensures isFinal ==> forall p :: p in w.ledger ==> Process(w, tx, isFinal).ledger[p].reserved == w.ledger[p].reserved
    ensures forall i :: 0 <= i < |tx.outputs| && OwnedAtTurn(w.index, tx, i) ==> OutPoint(tx, i) in Process(w, tx, isFinal).ledger
  {
    hide Process, IndexAt, Spends, OwnedAtTurn, EntryAtTurn, WellFormed;
    ProcessAt(w, tx, isFinal);
    TurnEntryFlags(w.index, tx);
  }

  lemma TurnEntryFlags(ix: IndexState, tx: Tx)
    requires WellFormed(ix)
    ensures forall i :: OwnedAtTurn(ix, tx, i) ==> !EntryAtTurn(ix, tx, i).reserved
  {
  }

  lemma PassedTwice(w: WalletState, m: WalletState, r: WalletState, tx: Tx)
    requires Passed(w, m, tx) && Passed(m, r, tx)
    ensures Passed(w, r, tx)
  {
    forall p | p in r.ledger && p !in w.ledger ensures p.tx == tx && !r.ledger[p].reserved {
      OwnOutputsUnspent(tx, p.index);
    }
  }

  ghost predicate Signed(w: WalletState) {
    KeysCoherent(w.index) && LedgerSigns(w)
  }

  lemma ProcessSigned(w: WalletState, tx: Tx, isFinal: bool)
    requires WellFormed(w.index)
    ensures Signed(w) ==> Signed(Process(w, tx, isFinal))
  {
    if Signed(w) {
      ProcessKeepsSigning(w, tx, isFinal);
    }
  }

  lemma SignedLedger(w: WalletState)
    ensures Signed(w) ==> LedgerSigns(w)
  {
  }

  /** The state after the network fed a sent transaction back, or not. */
  function Fed(w: WalletState, tx: Tx, feeds: bool): (r: WalletState)
    requires WellFormed(w.index)
    ensures WellFormed(r.index)
  {
    if feeds then Process(w, tx, true) else w
  }

  /** What sending does to the ledger. */
  lemma SendEffect(w: WalletState, tx: Tx, feeds: bool)
    requires WellFormed(w.index)
    ensures var r := Process(Fed(w, tx, feeds), tx, false);
            && (Stored(w.ledger, tx.inputs) ==>
                  (Spendable(w.ledger, tx.inputs) <==> Spendable(Fed(w, tx, feeds).ledger, tx.inputs)))
            && Passed(w, r, tx)
            && (forall i :: 0 <= i < |tx.outputs| && OwnedAtTurn(w.index, tx, i) ==> OutPoint(tx, i) in r.ledger)
            && (Signed(w) ==> Signed(r))
  {
    hide Process, IndexAt, OwnedAtTurn, Signed, WellFormed;
    var fed := Fed(w, tx, feeds);
    ProcessPassed(w, tx, true);
    ProcessPassed(fed, tx, false);
    if feeds {
      PassedTwice(w, fed, Process(fed, tx, false), tx);
    }
    ProcessSigned(w, tx, true);
    ProcessSigned(fed, tx, false);
  }

  // ----- what sending one transaction guarantees -----

  /** Nothing but the network's feed of this transaction and our own recording of it happened. */
  ghost predicate OnlyAbout(events: seq<Event>, msg: Tx) {
    forall n :: 0 <= n < |events| ==> (events[n].Feed? && events[n].tx == msg) || events[n] == Broadcast(msg)
  }

  ghost predicate Recorded(events: seq<Event>, msg: Tx) {
    exists n :: 0 <= n < |events| && events[n] == Broadcast(msg)
  }

  /** What is reserved afterwards was reserved before, or the sent transaction spends it. */
  ghost predicate ReservesSpent(s: RunState, r: RunState, msg: Tx, sent: bool) {
    forall p :: Reserved(r, p) ==> Reserved(s, p) || (sent && Spends(msg, p))
  }

  /** What the tail of a funding call amounts to, from state `s` and for the inputs the draft held. */
  ghost predicate SendResult(s: RunState, inputs: seq<TxIn>, msg: Tx, e: Option<FundingError>, events: seq<Event>)
    requires WellFormed(s.wallet.index)
  {
    var r := Run(s, events);
    && SamePoints(msg.inputs, inputs)
    && (e == Some(KeysMissing) <==> !Stored(s.wallet.ledger, inputs))
    && (e == Some(KeysMissing) ==> events == [])
    && OnlyAbout(events, msg) && (e.None? <==> Recorded(events, msg))
    && (SelectedAll(s, events) <==> (e.None? ==> Spendable(s.wallet.ledger, inputs)))
    && ReservesSpent(s, r, msg, e.None?)
    && KeepsGap(s, events)
    && (Signed(s.wallet) ==> Signed(r.wallet))
    && (e.None? && LedgerSigns(s.wallet) ==> Unlocked(msg.inputs))
    && (e.None? ==>
          && events != [] && events[|events| - 1] == Broadcast(msg)
          && Passed(s.wallet, r.wallet, msg) && Stored(r.wallet.ledger, msg.inputs)
          && (forall i :: 0 <= i < |msg.outputs| && OwnedAtTurn(s.wallet.index, msg, i) ==> OutPoint(msg, i) in r.wallet.ledger))
  }

  lemma NothingSent(s: RunState, inputs: seq<TxIn>, msg: Tx, e: FundingError)
    requires WellFormed(s.wallet.index) && SamePoints(msg.inputs, inputs)
    requires e == KeysMissing <==> !Stored(s.wallet.ledger, inputs)
    ensures SendResult(s, inputs, msg, Some(e), []) && Run(s, []) == s
  {
    RunStart(s);
  }

  lemma OnlyFed(s: RunState, inputs: seq<TxIn>, msg: Tx, kept: bool)
    requires WellFormed(s.wallet.index) && SamePoints(msg.inputs, inputs)
    requires Stored(s.wallet.ledger, inputs) && msg !in s.handled
    ensures SendResult(s, inputs, msg, Some(BroadcastFailed), [Feed(msg, kept)])
    ensures Run(s, [Feed(msg, kept)]) == Step(s, Feed(msg, kept))
  {
    hide Run, Process, Signed, Selected, Stored, WellFormed, ExactGap;
    RunOne(s, Feed(msg, kept));
    ProcessSigned(s.wallet, msg, true);
    ProcessPassed(s.wallet, msg, true);
    SendKeepsGap(s, [Feed(msg, kept)]);
  }

  lemma SendKeepsGap(s: RunState, events: seq<Event>)
    requires WellFormed(s.wallet.index) && forall n :: 0 <= n < |events| ==> !events[n].Grow?
    ensures KeepsGap(s, events)
  {
    if ExactGap(s.wallet.index) {
      RunExactGap(s, events);
    }
  }

  lemma PassedReserves(s: RunState, r: RunState, msg: Tx)
    requires Passed(s.wallet, r.wallet, msg)
    ensures ReservesSpent(s, r, msg, true)
  {
    forall p | Reserved(r, p) ensures Reserved(s, p) || Spends(msg, p) {
      assert p in s.wallet.ledger;
    }
  }

  lemma SentAndFed(s: RunState, inputs: seq<TxIn>, msg: Tx, feeds: bool, kept: bool)
    requires WellFormed(s.wallet.index) && SamePoints(msg.inputs, inputs)
    requires Stored(s.wallet.ledger, inputs) && (feeds ==> msg !in s.handled)
    requires LedgerSigns(s.wallet) ==> Unlocked(msg.inputs)
    ensures SendResult(s, inputs, msg, None, SendEvents(msg, feeds, kept))
  {
    hide Run, Process, Fed, Signed, LedgerSigns, Unlocked, Step, Passed, SelectedAll, OwnedAtTurn, Selected, Spendable,
         Stored, OnlyAbout, Recorded, SendEvents, SamePoints, ReservesSpent, KeepsGap;
    SendEventsAbout(msg, feeds, kept);
    SendKeepsGap(s, SendEvents(msg, feeds, kept));
    SentState(s, msg, feeds, kept);
    SendEffect(s.wallet, msg, feeds);
    PassedReserves(s, Run(s, SendEvents(msg, feeds, kept)), msg);
    SpendableSame(s.wallet.ledger, inputs, msg.inputs);
    StoredAfter(s.wallet, Run(s, SendEvents(msg, feeds, kept)).wallet, inputs, msg);
  }

  lemma SendEventsAbout(msg: Tx, feeds: bool, kept: bool)
    ensures var events := SendEvents(msg, feeds, kept);
            && OnlyAbout(events, msg) && Recorded(events, msg)
            && events != [] && events[|events| - 1] == Broadcast(msg)
            && forall n :: 0 <= n < |events| ==> !events[n].Grow?
  {
    assert SendEvents(msg, feeds, kept)[if feeds then 1 else 0] == Broadcast(msg);
  }

  lemma SentState(s: RunState, msg: Tx, feeds: bool, kept: bool)
    requires WellFormed(s.wallet.index) && (feeds ==> msg !in s.handled)
    ensures Run(s, SendEvents(msg, feeds, kept)).wallet == Process(Fed(s.wallet, msg, feeds), msg, false)
    ensures SelectedAll(s, SendEvents(msg, feeds, kept)) <==> Spendable(Fed(s.wallet, msg, feeds).ledger, msg.inputs)
  {
    hide Run, Process, SelectedAll;
    SendRun(s, msg, feeds, kept);
  }

  lemma StoredAfter(w: WalletState, r: WalletState, inputs: seq<TxIn>, tx: Tx)
    requires Passed(w, r, tx) && SamePoints(tx.inputs, inputs) && Stored(w.ledger, inputs)
    ensures Stored(r.ledger, tx.inputs)
  {
    forall n | 0 <= n < |tx.inputs| ensures tx.inputs[n].point in r.ledger {
      assert inputs[n].point in w.ledger;
    }
  }

  lemma SpendableSame(l: LedgerState, a: seq<TxIn>, b: seq<TxIn>)
    requires SamePoints(a, b) || SamePoints(b, a)
    ensures Spendable(l, a) <==> Spendable(l, b)
    ensures Stored(l, a) <==> Stored(l, b)
  {
    assert Spendable(l, a) ==> Spendable(l, b) by { SpendableKept(l, a, b); }
    assert Spendable(l, b) ==> Spendable(l, a) by { SpendableKept(l, b, a); }
  }

  lemma SpendableKept(l: LedgerState, a: seq<TxIn>, b: seq<TxIn>)
    requires |a| == |b| && forall i :: 0 <= i < |a| ==> a[i].point == b[i].point
    ensures Spendable(l, a) ==> Spendable(l, b)
  {
    if Spendable(l, a) {
      forall i, j | 0 <= i < j < |b| ensures b[i].point != b[j].point {
        assert a[i].point != a[j].point;
      }
      forall n | 0 <= n < |b| ensures b[n].point in l && !l[b[n].point].reserved {
        assert a[n].point in l;
      }
    }
  }

  lemma SignedUnlocked(w: WalletState, inputs: seq<TxIn>)
    requires LedgerSigns(w) && Stored(w.ledger, inputs)
    ensures Unlocked(SignedInputs(w, inputs))
  {
    hide LedgerSigns, SigningKey, PaysTo;
    forall n | 0 <= n < |inputs| ensures PaysTo(inputs[n].point, PublicOf(SigningKey(w.index.wallet, w.ledger[inputs[n].point]))) {
      EntryPays(w, inputs[n].point);
    }
  }

  /**
   The tail of a funding call: it is recorded exactly when it was accepted, and what it broadcasts is
   selected safely exactly when the inputs were distinct and unreserved.
   */
  lemma SendCallResult(s: RunState, d: Draft, o: Sending)
    requires WellFormed(s.wallet.index)
    ensures var c := SendCall(s, d, o);
            && SendResult(s, d.inputs, c.msg, c.error, c.events)
            && (c.error.None? <==> Stored(s.wallet.ledger, d.inputs) && o.signs && o.accepted)
            && d.outputs <= c.msg.outputs && c.error != Some(NoBitcoin)
  {
    hide *;
    SendCases(s, d, o);
    var c := SendCall(s, d, o);
    if !Stored(s.wallet.ledger, d.inputs) || !o.signs {
      NothingSent(s, d.inputs, c.msg, c.error.value);
    } else {
      if LedgerSigns(s.wallet) {
        SignedUnlocked(s.wallet, d.inputs);
      }
      if o.accepted {
        SentAndFed(s, d.inputs, c.msg, o.fed && c.msg !in s.handled, o.kept);
      } else if o.fed && c.msg !in s.handled {
        OnlyFed(s, d.inputs, c.msg, o.kept);
      } else {
        NothingSent(s, d.inputs, c.msg, BroadcastFailed);
      }
    }
  }

  lemma SendCases(s: RunState, d: Draft, o: Sending)
    ensures var c := SendCall(s, d, o);
            && SamePoints(c.msg.inputs, d.inputs) && d.outputs <= c.msg.outputs
            && (c.error == Some(KeysMissing) <==> !Stored(s.wallet.ledger, d.inputs))
            && (c.error.None? <==> Stored(s.wallet.ledger, d.inputs) && o.signs && o.accepted)
            && (Stored(s.wallet.ledger, d.inputs) && o.signs ==>
                  && c.msg.inputs == SignedInputs(s.wallet, d.inputs)
                  && var feeds := o.fed && c.msg !in s.handled;
                     if o.accepted then c.events == SendEvents(c.msg, feeds, o.kept)
                     else c.error == Some(BroadcastFailed) && c.events == if feeds then [Feed(c.msg, o.kept)] else [])
            && (!Stored(s.wallet.ledger, d.inputs) || !o.signs ==> c.error.Some? && c.events == [])
            && c.error != Some(NoBitcoin)
  {
  }

  // ----- a separate transaction to the requested key -----

  /** What funding through a separate transaction that pays `ra` amounts to. */
  ghost predicate SeparateResult(s: RunState, ra: RawAddress, amount: nat, msg: Tx, e: Option<FundingError>, events: seq<Event>)
    requires WellFormed(s.wallet.index)
  {
    && SafeExactly(s, msg, e.None?, events)
    && KeepsGap(s, events)
    && (Signed(s.wallet) ==>
          forall p :: Reserved(Run(s, events), p) ==>
            Reserved(s, p) || PaysBitcoin(p) || (e.None? && Spends(msg, p)))
    && (Signed(s.wallet) ==> Signed(Run(s, events).wallet))
    && (Lookup(s.wallet.index, ra).Present? && amount > 0 ==> e != Some(KeysMissing))
    && (e.None? <==> Recorded(events, msg))
    && (e.None? ==>
          && events != [] && events[|events| - 1] == Broadcast(msg)
          && |msg.inputs| == 1 && Stored(Run(s, events).wallet.ledger, msg.inputs)
          && (Signed(s.wallet) ==> Unlocked(msg.inputs))
          && var p := msg.inputs[0].point;
             && p.index == 0 && p.tx.outputs != [] && p.tx.outputs[0] == TxOut(amount, Pay(ra))
             && Recorded(events, p.tx))
  }

  lemma SeparateStopped(s: RunState, ra: RawAddress, amount: nat, msg: Tx, e: FundingError)
    requires WellFormed(s.wallet.index) && e != KeysMissing
    ensures SeparateResult(s, ra, amount, msg, Some(e), []) && Run(s, []) == s
  {
    RunStart(s);
  }

  lemma SeparateUnsent(s: RunState, ra: RawAddress, amount: nat, msg: Tx, inputs: seq<TxIn>, fund: Tx, e: FundingError, events: seq<Event>)
    requires WellFormed(s.wallet.index) && SendResult(s, inputs, fund, Some(e), events)
    requires Spendable(s.wallet.ledger, inputs)
    ensures SeparateResult(s, ra, amount, msg, Some(e), events)
  {
    hide Run, SelectedAll, Signed, KeepsGap;
    assert forall n :: 0 <= n < |events| ==> events[n].Feed?;
  }

  /**
   Both transactions spend distinct unreserved outpoints exactly when output 0 of the first was not
   reserved before: the same payment may have been recorded, spent and reversed earlier.
   */
  lemma SeparateSelected(s: RunState, inputs: seq<TxIn>, fund: Tx, first: seq<Event>,
                         msg: Tx, e: Option<FundingError>, more: seq<Event>)
    requires WellFormed(s.wallet.index) && Spendable(s.wallet.ledger, inputs)
    requires SendResult(s, inputs, fund, None, first)
    requires SendResult(Run(s, first), [TxIn(OutPoint(fund, 0), None)], msg, e, more)
    ensures SelectedAll(s, first + more) <==> (e.None? ==> !Reserved(s, OutPoint(fund, 0)))
    ensures SafeExactly(s, msg, e.None?, first + more)
  {
    hide Run, Signed, LedgerSigns, Unlocked, SelectedAll, OwnedAtTurn, OnlyAbout, Recorded, KeepsGap, ReservesSpent;
    SelectedAppend(s, first, more);
    OwnOutputsUnspent(fund, 0);
    var t := Run(s, first);
    var p := OutPoint(fund, 0);
    assert [TxIn(p, None)][0].point == p;
    assert Reserved(s, p) ==> Reserved(t, p);
    assert p in t.wallet.ledger ==> (Spendable(t.wallet.ledger, [TxIn(p, None)]) <==> !Reserved(s, p));
    assert e.None? ==> (Unclaimed(s.wallet.ledger, msg.inputs) <==> !Reserved(s, p));
  }

  /** The first output of the separate transaction is stored when its address is known. */
  lemma SeparateStored(s: RunState, ra: RawAddress, amount: nat, inputs: seq<TxIn>, fund: Tx, first: seq<Event>,
                       msg: Tx, e: Option<FundingError>, more: seq<Event>)
    requires WellFormed(s.wallet.index) && SendResult(s, inputs, fund, None, first)
    requires [TxOut(amount, Pay(ra))] <= fund.outputs && Lookup(s.wallet.index, ra).Present? && amount > 0
    requires SendResult(Run(s, first), [TxIn(OutPoint(fund, 0), None)], msg, e, more)
    ensures e != Some(KeysMissing)
  {
    hide Run, Signed, LedgerSigns, Unlocked, SelectedAll, Passed, Spendable, Lookup, KeepsGap, ReservesSpent;
    assert fund.outputs[0] == TxOut(amount, Pay(ra));
    assert OwnedAtTurn(s.wallet.index, fund, 0);
  }

  /** What the two sends recorded: they are different transactions, as the second spends the first. */
  lemma SeparateRecorded(inputs: seq<TxIn>, fund: Tx, first: seq<Event>, msg: Tx, more: seq<Event>)
    requires OnlyAbout(first, fund) && Recorded(first, fund) && OnlyAbout(more, msg)
    requires SamePoints(msg.inputs, [TxIn(OutPoint(fund, 0), None)])
    ensures Recorded(first + more, fund) && (Recorded(first + more, msg) <==> Recorded(more, msg))
  {
    assert msg.inputs[0].point.tx == fund;
    NoSelfSpend(msg, 0);
    var n :| 0 <= n < |first| && first[n] == Broadcast(fund);
    assert (first + more)[n] == Broadcast(fund);
    if m :| 0 <= m < |more| && more[m] == Broadcast(msg) {
      assert (first + more)[|first| + m] == Broadcast(msg);
    }
    if k :| 0 <= k < |first + more| && (first + more)[k] == Broadcast(msg) {
      assert k >= |first| && more[k - |first|] == Broadcast(msg);
    }
  }

  /** Whatever a transaction with picked bitcoin inputs reserves pays a bitcoin key. */
  lemma BitcoinReserves(s: RunState, r: RunState, inputs: seq<TxIn>, fund: Tx)
    requires LedgerSigns(s.wallet) && ReservesSpent(s, r, fund, true) && SamePoints(fund.inputs, inputs)
    requires Picked(s.wallet.ledger, PointsOf(inputs), BitcoinSelector)
    ensures forall p :: Reserved(r, p) ==> Reserved(s, p) || PaysBitcoin(p)
  {
    hide LedgerSigns, Selects, PaysBitcoin, Spends;
    forall p | Reserved(r, p) && !Reserved(s, p) ensures PaysBitcoin(p) {
      SpendsAt(fund, p);
      var i :| 0 <= i < |fund.inputs| && fund.inputs[i].point == p;
      assert PointsOf(inputs)[i] == p;
      PickedSpendsKey(s.wallet, p, BitcoinSelector);
    }
  }

  lemma SpendsAt(tx: Tx, p: OutPoint)
    ensures Spends(tx, p) <==> exists i :: 0 <= i < |tx.inputs| && tx.inputs[i].point == p
  {
    SpendsFromAt(tx, 0, p);
  }

  /** The separate transaction was sent, then the transaction that spends its first output. */
  lemma SeparateSent(s: RunState, ra: RawAddress, amount: nat, inputs: seq<TxIn>, fund: Tx, first: seq<Event>,
                     msg: Tx, e: Option<FundingError>, more: seq<Event>)
    requires WellFormed(s.wallet.index) && SendResult(s, inputs, fund, None, first)
    requires Picked(s.wallet.ledger, PointsOf(inputs), BitcoinSelector) && [TxOut(amount, Pay(ra))] <= fund.outputs
    requires SendResult(Run(s, first), [TxIn(OutPoint(fund, 0), None)], msg, e, more)
    ensures SeparateResult(s, ra, amount, msg, e, first + more) && Run(s, first + more) == Run(Run(s, first), more)
  {
    hide Run, Signed, LedgerSigns, Unlocked, SelectedAll, OwnedAtTurn, Lookup, Passed, Spendable, SafeExactly, Stored,
         Recorded, OnlyAbout, Picked, PaysBitcoin, ExactGap, Reserved, Spends;
    var t := Run(s, first);
    PickedSpendable(s.wallet.ledger, inputs, BitcoinSelector);
    SeparateRecorded(inputs, fund, first, msg, more);
    RunAppend(s, first, more);
    SignedLedger(s.wallet);
    SignedLedger(t.wallet);
    if Signed(s.wallet) {
      BitcoinReserves(s, t, inputs, fund);
    }
    assert fund.outputs[0] == TxOut(amount, Pay(ra));
    SeparateSelected(s, inputs, fund, first, msg, e, more);
    if Lookup(s.wallet.index, ra).Present? && amount > 0 {
      SeparateStored(s, ra, amount, inputs, fund, first, msg, e, more);
    }
  }

  /** Funding through a separate payment, whatever the library and the network decide. */
  lemma SeparateCallResult(s: RunState, d: Draft, bitcoin: seq<OutPoint>, ra: RawAddress, amount: nat, out: Outside)
    requires WellFormed(s.wallet.index) && d.inputs == [] && Offered(s.wallet.ledger, bitcoin, BitcoinSelector)
    ensures var c := SeparateCall(s, d, bitcoin, ra, amount, out);
            SeparateResult(s, ra, amount, c.msg, c.error, c.events) && d.outputs <= c.msg.outputs
  {
    hide *;
    var start := Draft([], [TxOut(amount, Pay(ra))], []);
    var next := Offer(start, bitcoin, out.separate);
    OfferedPicked(s.wallet.ledger, bitcoin, BitcoinSelector);
    TakenPicked(s.wallet.ledger, bitcoin, BitcoinSelector, out.separate.take);
    SendCallResult(s, next, out.sendSeparate);
    SeparateCases(s, d, bitcoin, ra, amount, out);
    var fund := SendCall(s, next, out.sendSeparate);
    if bitcoin == [] {
      SeparateStopped(s, ra, amount, AsTx(d), NoBitcoin);
    } else if StatusOf(next, out.separate) != Funded {
      SeparateStopped(s, ra, amount, AsTx(d), FundingFailed);
    } else {
      PickedSpendable(s.wallet.ledger, next.inputs, BitcoinSelector);
      if fund.error.Some? {
        SeparateUnsent(s, ra, amount, AsTx(d), next.inputs, fund.msg, fund.error.value, fund.events);
      } else {
        var last := d.(inputs := [TxIn(OutPoint(fund.msg, 0), None)]);
        SendCallResult(Run(s, fund.events), last, out.send);
        var sent := SendCall(Run(s, fund.events), last, out.send);
        SeparateSent(s, ra, amount, next.inputs, fund.msg, fund.events, sent.msg, sent.error, sent.events);
      }
    }
  }

  lemma SeparateCases(s: RunState, d: Draft, bitcoin: seq<OutPoint>, ra: RawAddress, amount: nat, out: Outside)
    requires WellFormed(s.wallet.index) && d.inputs == []
    ensures var next := Offer(Draft([], [TxOut(amount, Pay(ra))], []), bitcoin, out.separate);
            var fund := SendCall(s, next, out.sendSeparate);
            var c := SeparateCall(s, d, bitcoin, ra, amount, out);
            && next.inputs == Taken(bitcoin, out.separate.take) && next.outputs == [TxOut(amount, Pay(ra))]
            && d.outputs <= AsTx(d).outputs
            && if bitcoin == [] then c == Stopped(d, NoBitcoin) == CallEnd(AsTx(d), Some(NoBitcoin), [])
               else if StatusOf(next, out.separate) != Funded then
                 c == Stopped(d, FundingFailed) == CallEnd(AsTx(d), Some(FundingFailed), [])
               else if fund.error.Some? then c == CallEnd(AsTx(d), fund.error, fund.events)
               else
                 var sent := SendCall(Run(s, fund.events), d.(inputs := [TxIn(OutPoint(fund.msg, 0), None)]), out.send);
                 c == CallEnd(sent.msg, sent.error, fund.events + sent.events)
  {
    hide Run, SendCall, Taken, WellFormed;
    var next := Offer(Draft([], [TxOut(amount, Pay(ra))], []), bitcoin, out.separate);
    var last := TxIn(OutPoint(SendCall(s, next, out.sendSeparate).msg, 0), None);
    assert [] + [last] == [last];
    assert [] + Taken(bitcoin, out.separate.take) == Taken(bitcoin, out.separate.take);
  }

  // ----- the three-way funding call -----

  /** The separate transaction needs the requested key to be one the index knows. */
  predicate Registered(ix: IndexState, selector: Selector) {
    selector.KeyHashSelector? ==> RequestedKey(ix.wallet, selector) in ix.derived
  }

  predicate RelationshipSelector(selector: Selector) {
    && !selector.BitcoinSelector?
    && (selector.keyType == KEY_TYPE_RELATE_OUT || selector.keyType == KEY_TYPE_RELATE_IN)
  }

  /** No reserved entry pays the key: whatever paid it so far is unspent by the wallet. */
  predicate NoneReserved(l: LedgerState, key: PublicKey) {
    forall p :: p in l && l[p].reserved ==> !PaysTo(p, key)
  }

  /** What the events reserve pays a bitcoin key or, once the call succeeded, the requested key. */
  ghost predicate ReservesOnly(s: RunState, events: seq<Event>, sent: bool, key: PublicKey)
    requires WellFormed(s.wallet.index)
  {
    forall p :: Reserved(Run(s, events), p) ==> Reserved(s, p) || PaysBitcoin(p) || (sent && PaysTo(p, key))
  }

  /**
   What a funding call for one key amounts to, on a transaction that had no inputs yet. For a
   relationship key everything it broadcasts selects safely as long as no reserved entry pays the key;
   the finished transaction's first input spends an output locked to the requested key; and the signing
   keys are found as long as the requested key is registered.
   */
  ghost predicate FundResult(s: RunState, selector: Selector, positive: bool, msg: Tx, e: Option<FundingError>, events: seq<Event>)
    requires WellFormed(s.wallet.index)
  {
    var key := RequestedKey(s.wallet.index.wallet, selector);
    && SafeExactly(s, msg, e.None?, events)
    && (RelationshipSelector(selector) && NoneReserved(s.wallet.ledger, key) ==> SelectedAll(s, events))
    && (RelationshipSelector(selector) && e.None? ==> Distinct(PointsOf(msg.inputs)))
    && (Signed(s.wallet) ==> ReservesOnly(s, events, e.None?, key))
    && KeepsGap(s, events)
    && (Signed(s.wallet) ==> Signed(Run(s, events).wallet))
    && (Registered(s.wallet.index, selector) && positive ==> e != Some(KeysMissing))
    && (e.None? <==> Recorded(events, msg))
    && (e.None? ==>
          && events != [] && events[|events| - 1] == Broadcast(msg)
          && Stored(Run(s, events).wallet.ledger, msg.inputs))
    && (e.None? && Signed(s.wallet) ==>
          && Unlocked(msg.inputs) && msg.inputs != []
          && SpendsKey(msg.inputs[0], key))
  }

  lemma FundStopped(s: RunState, selector: Selector, positive: bool, msg: Tx, e: FundingError)
    requires WellFormed(s.wallet.index) && e != KeysMissing
    ensures FundResult(s, selector, positive, msg, Some(e), []) && Run(s, []) == s
  {
    RunStart(s);
  }

  /** Enough value under the requested key, or some of it topped up with bitcoin funds. */
  lemma FundedDirectly(s: RunState, selector: Selector, positive: bool, own: seq<TxIn>, topUp: seq<TxIn>,
                       msg: Tx, e: Option<FundingError>, events: seq<Event>)
    requires WellFormed(s.wallet.index) && !selector.BitcoinSelector? && own != []
    requires Picked(s.wallet.ledger, PointsOf(own), selector) && Picked(s.wallet.ledger, PointsOf(topUp), BitcoinSelector)
    requires SendResult(s, own + topUp, msg, e, events)
    ensures FundResult(s, selector, positive, msg, e, events)
    ensures RelationshipSelector(selector) ==> Unclaimed(s.wallet.ledger, msg.inputs)
  {
    hide Run, SelectedAll, Signed, LedgerSigns, Selects, Unlocked, Passed, OnlyAbout, Recorded, OwnedAtTurn, Distinct, PaysTo,
         NoneReserved, KeepsGap, ReservesOnly, ReservesSpent;
    SignedLedger(s.wallet);
    BothStored(s.wallet.ledger, own, topUp, selector);
    if RelationshipSelector(selector) {
      BothSpendable(s.wallet.ledger, own, topUp, selector);
    }
    SpendableIsUnclaimed(s.wallet.ledger, own + topUp, msg.inputs);
    if Signed(s.wallet) {
      DirectReserves(s, selector, own, topUp, msg, e, events);
    }
    if e.None? && LedgerSigns(s.wallet) {
      assert PointsOf(own)[0] == own[0].point == (own + topUp)[0].point == msg.inputs[0].point;
      PickedSpendsKey(s.wallet, own[0].point, selector);
    }
  }

  lemma DirectReserves(s: RunState, selector: Selector, own: seq<TxIn>, topUp: seq<TxIn>, msg: Tx,
                       e: Option<FundingError>, events: seq<Event>)
    requires WellFormed(s.wallet.index) && !selector.BitcoinSelector? && LedgerSigns(s.wallet)
    requires Picked(s.wallet.ledger, PointsOf(own), selector) && Picked(s.wallet.ledger, PointsOf(topUp), BitcoinSelector)
    requires SamePoints(msg.inputs, own + topUp) && ReservesSpent(s, Run(s, events), msg, e.None?)
    ensures ReservesOnly(s, events, e.None?, RequestedKey(s.wallet.index.wallet, selector))
  {
    hide LedgerSigns, Selects, PaysBitcoin, PaysTo, Spends, Run, WellFormed;
    forall p | Reserved(Run(s, events), p) && !Reserved(s, p)
      ensures PaysBitcoin(p) || (e.None? && PaysTo(p, RequestedKey(s.wallet.index.wallet, selector)))
    {
      SpendsAt(msg, p);
      var i :| 0 <= i < |msg.inputs| && msg.inputs[i].point == p;
      if i < |own| {
        assert PointsOf(own)[i] == p;
        PickedSpendsKey(s.wallet, p, selector);
      } else {
        assert PointsOf(topUp)[i - |own|] == p;
        PickedSpendsKey(s.wallet, p, BitcoinSelector);
      }
    }
  }

  lemma SpendableIsUnclaimed(l: LedgerState, a: seq<TxIn>, b: seq<TxIn>)
    requires SamePoints(b, a) && Stored(l, a)
    ensures Spendable(l, a) <==> Unclaimed(l, b)
    ensures Spendable(l, a) ==> Distinct(PointsOf(b))
  {
    SpendableSame(l, a, b);
    assert forall n :: 0 <= n < |b| ==> PointsOf(b)[n] == b[n].point;
  }

  lemma BothStored(l: LedgerState, a: seq<TxIn>, b: seq<TxIn>, selector: Selector)
    requires Picked(l, PointsOf(a), selector) && Picked(l, PointsOf(b), BitcoinSelector)
    ensures Stored(l, a + b)
  {
    hide Selects, Distinct;
    forall n | 0 <= n < |a + b| ensures (a + b)[n].point in l {
      if n < |a| {
        assert PointsOf(a)[n] == (a + b)[n].point;
      } else {
        assert PointsOf(b)[n - |a|] == (a + b)[n].point;
      }
    }
  }

  /** The address the separate transaction pays, for each kind of request. */
  ghost predicate PaysRequested(ix: IndexState, selector: Selector, ra: RawAddress) {
    && PaidKey(ra) == Some(RequestedKey(ix.wallet, selector))
    && (Registered(ix, selector) ==> Lookup(ix, ra).Present?)
  }

  lemma RequestedPays(ix: IndexState, selector: Selector)
    requires WellFormed(ix) && RequestedAddress(ix, selector).Some?
    ensures PaysRequested(ix, selector, RequestedAddress(ix, selector).value)
  {
  }

  lemma OneDistinct(inputs: seq<TxIn>)
    requires |inputs| == 1
    ensures Distinct(PointsOf(inputs))
  {
  }

  lemma SameRequest(ix: IndexState, later: IndexState, selector: Selector)
    requires Extends(ix, later) && later.derived == ix.derived
    ensures later.wallet == ix.wallet && (Registered(later, selector) <==> Registered(ix, selector))
  {
  }

  lemma FundedSeparately(s: RunState, selector: Selector, t: RunState, ra: RawAddress, amount: nat,
                         msg: Tx, e: Option<FundingError>, more: seq<Event>)
    requires WellFormed(s.wallet.index) && ValidGrowth(s, t.wallet.index) && t == Step(s, Grow(t.wallet.index))
    requires t.wallet.index.derived == s.wallet.index.derived && (ExactGap(s.wallet.index) ==> ExactGap(t.wallet.index))
    requires PaysRequested(t.wallet.index, selector, ra)
    requires SeparateResult(t, ra, amount, msg, e, more)
    ensures FundResult(s, selector, amount > 0, msg, e, [Grow(t.wallet.index)] + more)
    ensures e.None? ==> msg.inputs != [] && Recorded([Grow(t.wallet.index)] + more, msg.inputs[0].point.tx)
    ensures Run(s, [Grow(t.wallet.index)] + more) == Run(t, more)
  {
    hide Run, SelectedAll, Signed, Unclaimed, Distinct, WellFormed, Extends, Step, Lookup, Unlocked, Recorded, Stored,
         PaysTo, PaidKey, RequestedKey, ExactGap, NoneReserved, ReservesOnly, PaysBitcoin, Reserved, Spends;
    GrowThen(s, t, more);
    SameRequest(s.wallet.index, t.wallet.index, selector);
    var key := RequestedKey(s.wallet.index.wallet, selector);
    if e.None? {
      OneDistinct(msg.inputs);
      PaysSpendsKey(msg, ra, key);
      if NoneReserved(s.wallet.ledger, key) {
        NoneUnclaimed(s.wallet.ledger, msg.inputs, key);
      }
    }
    if Signed(s.wallet) {
      SeparateReserves(s, t, [Grow(t.wallet.index)] + more, more, msg, e.None?, key);
    }
  }

  lemma NoneUnclaimed(l: LedgerState, inputs: seq<TxIn>, key: PublicKey)
    requires |inputs| == 1 && PaysTo(inputs[0].point, key) && NoneReserved(l, key)
    ensures Unclaimed(l, inputs)
  {
  }

  lemma SeparateReserves(s: RunState, t: RunState, events: seq<Event>, more: seq<Event>, msg: Tx, sent: bool, key: PublicKey)
    requires WellFormed(s.wallet.index) && WellFormed(t.wallet.index) && Run(s, events) == Run(t, more)
    requires t.wallet.ledger == s.wallet.ledger
    requires forall p :: Reserved(Run(t, more), p) ==> Reserved(t, p) || PaysBitcoin(p) || (sent && Spends(msg, p))
    requires sent ==> |msg.inputs| == 1 && PaysTo(msg.inputs[0].point, key)
    ensures ReservesOnly(s, events, sent, key)
  {
    hide Run, WellFormed, PaysBitcoin, PaysTo, Spends;
    forall p | Reserved(Run(s, events), p) ensures Reserved(s, p) || PaysBitcoin(p) || (sent && PaysTo(p, key)) {
      SpendsAt(msg, p);
    }
  }

  lemma RecordedAfter(e: Event, more: seq<Event>)
    requires !e.Broadcast?
    ensures forall tx :: Recorded([e] + more, tx) <==> Recorded(more, tx)
  {
    forall tx | Recorded([e] + more, tx) ensures Recorded(more, tx) {
      var n :| 0 <= n < |[e] + more| && ([e] + more)[n] == Broadcast(tx);
      assert more[n - 1] == Broadcast(tx);
    }
    forall tx | Recorded(more, tx) ensures Recorded([e] + more, tx) {
      var n :| 0 <= n < |more| && more[n] == Broadcast(tx);
      assert ([e] + more)[n + 1] == Broadcast(tx);
    }
  }

  /** A run that starts by growing the index. */
  lemma GrowThen(s: RunState, t: RunState, more: seq<Event>)
    requires WellFormed(s.wallet.index) && ValidGrowth(s, t.wallet.index) && t == Step(s, Grow(t.wallet.index))
    requires t.wallet.index.derived == s.wallet.index.derived
    ensures var events := [Grow(t.wallet.index)] + more;
            && Run(s, events) == Run(t, more)
            && (SelectedAll(t, more) <==> SelectedAll(s, events))
            && t.wallet.ledger == s.wallet.ledger
            && (Signed(s.wallet) ==> Signed(t.wallet))
            && t.wallet.index.wallet == s.wallet.index.wallet
            && (more != [] ==> events[|events| - 1] == more[|more| - 1])
            && (forall tx :: Recorded(events, tx) <==> Recorded(more, tx))
  {
    hide *;
    var grow := [Grow(t.wallet.index)];
    RecordedAfter(grow[0], more);
    GrowRun(s, t);
    RunAppend(s, grow, more);
    SelectedAppend(s, grow, more);
    assert forall n :: 0 <= n < |more| ==> (grow + more)[n + 1] == more[n];
  }

  lemma GrowRun(s: RunState, t: RunState)
    requires WellFormed(s.wallet.index) && ValidGrowth(s, t.wallet.index) && t == Step(s, Grow(t.wallet.index))
    requires t.wallet.index.derived == s.wallet.index.derived
    ensures Run(s, [Grow(t.wallet.index)]) == t && SelectedAll(s, [Grow(t.wallet.index)])
    ensures t.wallet.ledger == s.wallet.ledger && t.wallet.index.wallet == s.wallet.index.wallet
    ensures Signed(s.wallet) ==> Signed(t.wallet)
  {
    hide Run, Selected, Signed, WellFormed;
    RunOne(s, Grow(t.wallet.index));
    GrowSigned(s.wallet, t.wallet.index);
  }

  /** What such a run reserves, and its gaps. */
  lemma GrowThenReserves(s: RunState, t: RunState, more: seq<Event>, sent: bool, key: PublicKey)
    requires WellFormed(s.wallet.index) && ValidGrowth(s, t.wallet.index) && t == Step(s, Grow(t.wallet.index))
    requires t.wallet.index.derived == s.wallet.index.derived && (ExactGap(s.wallet.index) ==> ExactGap(t.wallet.index))
    ensures var events := [Grow(t.wallet.index)] + more;
            && (ReservesOnly(t, more, sent, key) ==> ReservesOnly(s, events, sent, key))
            && (KeepsGap(t, more) ==> KeepsGap(s, events))
  {
    hide Run, WellFormed, Extends, ExactGap, PaysBitcoin, PaysTo, Signed;
    GrowThen(s, t, more);
    assert forall p :: Reserved(t, p) <==> Reserved(s, p);
  }

  /** An unlocked first input that spends the requested key is signed by that very key. */
  lemma FirstInputKey(inputs: seq<TxIn>, key: PublicKey)
    requires inputs != [] && Unlocked(inputs) && SpendsKey(inputs[0], key)
    ensures inputs[0] == TxIn(inputs[0].point, Some([key]))
  {
    assert inputs[0].keys.value == [inputs[0].keys.value[0]];
  }

  lemma PaysSpendsKey(msg: Tx, ra: RawAddress, key: PublicKey)
    requires PaidKey(ra) == Some(key) && |msg.inputs| == 1
    requires var p := msg.inputs[0].point;
             p.index < |p.tx.outputs| && AddressOf(p.tx.outputs[p.index].script) == ra
    ensures PaysTo(msg.inputs[0].point, key)
  {
  }

  lemma GrowSigned(w: WalletState, ix: IndexState)
    requires WellFormed(ix) && Extends(w.index, ix) && ix.derived == w.index.derived
    ensures Signed(w) ==> Signed(w.(index := ix))
  {
    if Signed(w) {
      ExtendsCoherent(w.index, ix);
      GrowKeepsSigning(w, ix);
    }
  }

  lemma GiveExtends(ix: IndexState, ref: AddressRef)
    requires WellFormed(ix) && ValidRef(ix, ref) && ref.Listed?
    ensures WellFormed(Give(ix, ref)) && Extends(ix, Give(ix, ref)) && Give(ix, ref).derived == ix.derived
  {
    var given := Give(ix, ref);
    assert forall t :: 0 <= t < |ix.lists| ==> |given.lists[t]| == |ix.lists[t]|;
  }

  /** Giving an address out is a step of the run, and keeps the gaps. */
  lemma GiveGrows(s: RunState, ref: AddressRef)
    requires WellFormed(s.wallet.index) && ValidRef(s.wallet.index, ref) && ref.Listed?
    ensures var ix := Give(s.wallet.index, ref);
            && ValidGrowth(s, ix) && ix.derived == s.wallet.index.derived && ValidRef(ix, ref)
            && Step(s, Grow(ix)).wallet == s.wallet.(index := ix) && Extends(s.wallet.index, ix)
            && (ExactGap(s.wallet.index) ==> ExactGap(ix))
  {
    GiveExtends(s.wallet.index, ref);
    GiveKeepsExactGap(s.wallet.index, ref);
  }

  lemma ChangeGrows(s: RunState)
    requires WellFormed(s.wallet.index) && ChangeRef(s.wallet.index).Some?
    ensures var t := Changed(s);
            && WellFormed(t.wallet.index) && ValidGrowth(s, t.wallet.index) && t == Step(s, Grow(t.wallet.index))
            && t.wallet.ledger == s.wallet.ledger && t.wallet.index.derived == s.wallet.index.derived
            && (ExactGap(s.wallet.index) ==> ExactGap(t.wallet.index))
  {
    GiveGrows(s, ChangeRef(s.wallet.index).value);
  }

  /**
   Which branch a funding call takes: value under the requested key is spent directly, alone or topped up,
   without any other transaction and safely selected for a relationship key; without any value there,
   success means that a payment to the key was sent first.
   */
  ghost predicate Branches(l: LedgerState, selector: Selector, out: Outside, msg: Tx, e: Option<FundingError>, events: seq<Event>) {
    && (!NothingUnder(l, selector) && TakesFirst(out.first) ==>
          && OnlyAbout(events, msg) && (RelationshipSelector(selector) && e.None? ==> Unclaimed(l, msg.inputs))
          && (e.None? <==>
                && out.send.signs && out.send.accepted
                && (out.first.status == Funded
                    || (out.first.status == Insufficient && !NothingUnder(l, BitcoinSelector) && out.more.status == Funded))))
    && (NothingUnder(l, selector) && e.None? ==> msg.inputs != [] && Recorded(events, msg.inputs[0].point.tx))
  }

  lemma BranchTaken(l: LedgerState, selector: Selector, out: Outside, msg: Tx, e: Option<FundingError>, events: seq<Event>)
    requires OnlyAbout(events, msg) && (RelationshipSelector(selector) && e.None? ==> Unclaimed(l, msg.inputs))
    requires NothingUnder(l, selector) ==> e.Some?
    requires e.None? <==>
               && out.send.signs && out.send.accepted
               && (out.first.status == Funded
                   || (out.first.status == Insufficient && !NothingUnder(l, BitcoinSelector) && out.more.status == Funded))
    ensures Branches(l, selector, out, msg, e, events)
  {
  }

  lemma BranchSeparate(l: LedgerState, selector: Selector, out: Outside, msg: Tx, e: Option<FundingError>, events: seq<Event>)
    requires TakesFirst(out.first) ==> NothingUnder(l, selector)
    requires e.None? ==> msg.inputs != [] && Recorded(events, msg.inputs[0].point.tx)
    ensures Branches(l, selector, out, msg, e, events)
  {
  }

  lemma NothingOnlyAbout()
    ensures forall msg :: OnlyAbout([], msg)
  {
  }

  /** The direct branches: inputs under the requested key, then bitcoin inputs. */
  lemma DirectCallResult(s: RunState, d: Draft, selector: Selector, positive: bool, own: seq<TxIn>, topUp: seq<TxIn>, o: Sending)
    requires WellFormed(s.wallet.index) && !selector.BitcoinSelector? && own != [] && d.inputs == own + topUp
    requires Picked(s.wallet.ledger, PointsOf(own), selector) && Picked(s.wallet.ledger, PointsOf(topUp), BitcoinSelector)
    ensures var c := SendCall(s, d, o);
            && FundResult(s, selector, positive, c.msg, c.error, c.events)
            && (c.error.None? <==> o.signs && o.accepted)
            && (RelationshipSelector(selector) ==> Unclaimed(s.wallet.ledger, c.msg.inputs))
            && OnlyAbout(c.events, c.msg) && d.outputs <= c.msg.outputs
  {
    hide *;
    SendCallResult(s, d, o);
    var c := SendCall(s, d, o);
    BothStored(s.wallet.ledger, own, topUp, selector);
    SentAbout(s, d.inputs, c.msg, c.error, c.events);
    FundedDirectly(s, selector, positive, own, topUp, c.msg, c.error, c.events);
  }

  lemma SentAbout(s: RunState, inputs: seq<TxIn>, msg: Tx, e: Option<FundingError>, events: seq<Event>)
    requires WellFormed(s.wallet.index) && SendResult(s, inputs, msg, e, events)
    ensures OnlyAbout(events, msg) && (e.None? <==> Recorded(events, msg)) && SamePoints(msg.inputs, inputs)
    ensures e.None? && LedgerSigns(s.wallet) ==> Unlocked(msg.inputs)
    ensures Spendable(s.wallet.ledger, inputs) ==> SelectedAll(s, events) && e != Some(KeysMissing)
  {
    hide Run, SelectedAll, OnlyAbout, Recorded, KeepsGap;
  }

  /** The branch through a separate payment. */
  lemma AddressCallResult(s: RunState, d: Draft, selector: Selector, bitcoin: seq<OutPoint>, dust: nat, out: Outside)
    requires WellFormed(s.wallet.index) && d.inputs == [] && !selector.BitcoinSelector?
    requires Offered(s.wallet.ledger, bitcoin, BitcoinSelector)
    ensures var c := AddressCall(s, d, selector, bitcoin, dust, out);
            && FundResult(s, selector, FundingAmount(out.estimate, dust, d.outputs) > 0, c.msg, c.error, c.events)
            && (c.error.None? ==> c.msg.inputs != [] && Recorded(c.events, c.msg.inputs[0].point.tx))
            && d.outputs <= c.msg.outputs
  {
    hide *;
    AddressCases(s, d, selector, bitcoin, dust, out);
    var amount := FundingAmount(out.estimate, dust, d.outputs);
    var c := AddressCall(s, d, selector, bitcoin, dust, out);
    if ChangeRef(s.wallet.index).None? {
      FundStopped(s, selector, amount > 0, AsTx(d), NoChangeAddress);
    } else {
      var t := Changed(s);
      ChangeGrows(s);
      if RequestedAddress(t.wallet.index, selector).None? {
        StoppedAfterChange(s, t, selector, amount > 0, AsTx(d), AddressNotFound);
      } else {
        var ra := RequestedAddress(t.wallet.index, selector).value;
        RequestedPays(t.wallet.index, selector);
        SeparateCallResult(t, d, bitcoin, ra, amount, out);
        var more := SeparateCall(t, d, bitcoin, ra, amount, out);
        FundedSeparately(s, selector, t, ra, amount, more.msg, more.error, more.events);
      }
    }
  }

  lemma AddressCases(s: RunState, d: Draft, selector: Selector, bitcoin: seq<OutPoint>, dust: nat, out: Outside)
    requires WellFormed(s.wallet.index)
    ensures var c := AddressCall(s, d, selector, bitcoin, dust, out);
            && d.outputs <= AsTx(d).outputs
            && if ChangeRef(s.wallet.index).None? then c == CallEnd(AsTx(d), Some(NoChangeAddress), [])
               else
                 var t := Changed(s);
                 var ra := RequestedAddress(t.wallet.index, selector);
                 && WellFormed(t.wallet.index)
                 && if ra.None? then c == CallEnd(AsTx(d), Some(AddressNotFound), [Grow(t.wallet.index)])
                    else
                      var call := SeparateCall(t, d, bitcoin, ra.value, FundingAmount(out.estimate, dust, d.outputs), out);
                      c == CallEnd(call.msg, call.error, [Grow(t.wallet.index)] + call.events)
  {
    hide SeparateCall, Step, RequestedAddress, ChangeRef;
    if ChangeRef(s.wallet.index).Some? {
      assert [Grow(Changed(s).wallet.index)] + [] == [Grow(Changed(s).wallet.index)];
    }
  }

  lemma StoppedAfterChange(s: RunState, t: RunState, selector: Selector, positive: bool, msg: Tx, e: FundingError)
    requires WellFormed(s.wallet.index) && ValidGrowth(s, t.wallet.index) && t == Step(s, Grow(t.wallet.index))
    requires t.wallet.index.derived == s.wallet.index.derived && e != KeysMissing
    requires ExactGap(s.wallet.index) ==> ExactGap(t.wallet.index)
    ensures FundResult(s, selector, positive, msg, Some(e), [Grow(t.wallet.index)])
    ensures Run(s, [Grow(t.wallet.index)]) == t
  {
    hide ExactGap;
    RunOne(s, Grow(t.wallet.index));
    GrowSigned(s.wallet, t.wallet.index);
  }

  /**
   Every funding call for a key, whatever the library and the network decide and whatever order the
   ledger offers its outputs in.
   */
  lemma FundCallResult(s: RunState, d: Draft, selector: Selector, own: seq<OutPoint>, bitcoin: seq<OutPoint>, dust: nat, out: Outside)
    requires WellFormed(s.wallet.index) && d.inputs == [] && !selector.BitcoinSelector?
    requires Offered(s.wallet.ledger, own, selector) && Offered(s.wallet.ledger, bitcoin, BitcoinSelector)
    ensures var c := FundCall(s, d, selector, own, bitcoin, dust, out);
            && FundResult(s, selector, FundingAmount(out.estimate, dust, d.outputs) > 0, c.msg, c.error, c.events)
            && Branches(s.wallet.ledger, selector, out, c.msg, c.error, c.events)
            && d.outputs <= c.msg.outputs
  {
    hide *;
    FundCases(s, d, selector, own, bitcoin, dust, out);
    NothingOnlyAbout();
    var l, positive := s.wallet.ledger, FundingAmount(out.estimate, dust, d.outputs) > 0;
    var taken, c := Taken(own, out.first.take), FundCall(s, d, selector, own, bitcoin, dust, out);
    var first := Offer(d, own, out.first);
    OfferedPicked(l, own, selector);
    OfferedPicked(l, bitcoin, BitcoinSelector);
    TakenPicked(l, own, selector, out.first.take);
    TakenPicked(l, bitcoin, BitcoinSelector, out.more.take);
    TakenSome(own, out.first);
    match StatusOf(first, out.first)
    case Funded =>
      NothingPicked(l);
      assert taken + [] == taken;
      DirectCallResult(s, first, selector, positive, taken, [], out.send);
      BranchTaken(l, selector, out, c.msg, c.error, c.events);
    case Refused =>
      FundStopped(s, selector, positive, c.msg, FundingFailed);
      BranchTaken(l, selector, out, c.msg, c.error, c.events);
    case Insufficient =>
      if taken != [] {
        var next := Offer(first, bitcoin, out.more);
        if bitcoin == [] {
          FundStopped(s, selector, positive, c.msg, NoBitcoin);
        } else if out.more.status != Funded {
          FundStopped(s, selector, positive, c.msg, FundingFailed);
        } else {
          DirectCallResult(s, next, selector, positive, taken, Taken(bitcoin, out.more.take), out.send);
        }
        BranchTaken(l, selector, out, c.msg, c.error, c.events);
      } else {
        AddressCallResult(s, first, selector, bitcoin, dust, out);
        BranchSeparate(l, selector, out, c.msg, c.error, c.events);
      }
  }

  lemma FundCases(s: RunState, d: Draft, selector: Selector, own: seq<OutPoint>, bitcoin: seq<OutPoint>, dust: nat, out: Outside)
    requires WellFormed(s.wallet.index) && d.inputs == []
    ensures var c := FundCall(s, d, selector, own, bitcoin, dust, out);
            var taken, first := Taken(own, out.first.take), Offer(d, own, out.first);
            var next := Offer(first, bitcoin, out.more);
            && first.inputs == taken && first.outputs == d.outputs
            && next.inputs == taken + Taken(bitcoin, out.more.take) && next.outputs == d.outputs
            && d.outputs <= AsTx(first).outputs && d.outputs <= AsTx(next).outputs
            && StatusOf(first, out.first) == (if out.first.status == Funded && taken == [] then Insufficient else out.first.status)
            && match StatusOf(first, out.first)
               case Funded => c == SendCall(s, first, out.send)
               case Refused => c == CallEnd(AsTx(first), Some(FundingFailed), [])
               case Insufficient =>
                 if taken != [] then
                   if bitcoin == [] then c == CallEnd(AsTx(first), Some(NoBitcoin), [])
                   else if out.more.status != Funded then c == CallEnd(AsTx(next), Some(FundingFailed), [])
                   else c == SendCall(s, next, out.send)
                 else c == AddressCall(s, first, selector, bitcoin, dust, out)
  {
    hide SendCall, AddressCall, Taken, WellFormed;
    assert [] + Taken(own, out.first.take) == Taken(own, out.first.take);
  }

  // ----- bitcoin funds alone -----

  /** AddBitcoinFunding on a transaction without inputs: always selected safely, its keys always found. */
  lemma BitcoinCallResult(s: RunState, d: Draft, bitcoin: seq<OutPoint>, out: Outside)
    requires WellFormed(s.wallet.index) && d.inputs == [] && Offered(s.wallet.ledger, bitcoin, BitcoinSelector)
    ensures var c := OfferAndSend(s, d, bitcoin, out.first, out.send);
            && SelectedAll(s, c.events) && c.error != Some(KeysMissing)
            && (c.error.None? ==> Unclaimed(s.wallet.ledger, c.msg.inputs))
            && OnlyAbout(c.events, c.msg) && (c.error.None? <==> Recorded(c.events, c.msg))
            && (c.error.None? && LedgerSigns(s.wallet) ==> Unlocked(c.msg.inputs))
            && (c.error == Some(NoBitcoin) <==> NothingUnder(s.wallet.ledger, BitcoinSelector))
            && (!NothingUnder(s.wallet.ledger, BitcoinSelector) && TakesFirst(out.first) ==>
                  (c.error.None? <==> out.first.status == Funded && out.send.signs && out.send.accepted))
  {
    hide *;
    OfferedPicked(s.wallet.ledger, bitcoin, BitcoinSelector);
    TakenPicked(s.wallet.ledger, bitcoin, BitcoinSelector, out.first.take);
    TakenSome(bitcoin, out.first);
    OfferCases(s, d, bitcoin, out.first, out.send);
    NothingOnlyAbout();
    NothingSelected(s);
    var next := Offer(d, bitcoin, out.first);
    var c := OfferAndSend(s, d, bitcoin, out.first, out.send);
    if bitcoin != [] && StatusOf(next, out.first) == Funded {
      SendCallResult(s, next, out.send);
      PickedSpendable(s.wallet.ledger, next.inputs, BitcoinSelector);
      SpendableStored(s.wallet.ledger, next.inputs);
      SentAbout(s, next.inputs, c.msg, c.error, c.events);
      SpendableIsUnclaimed(s.wallet.ledger, next.inputs, c.msg.inputs);
    }
  }

  lemma OfferCases(s: RunState, d: Draft, points: seq<OutPoint>, o: FundingOutcome, send: Sending)
    requires d.inputs == []
    ensures var c, next := OfferAndSend(s, d, points, o, send), Offer(d, points, o);
            && next.inputs == Taken(points, o.take)
            && StatusOf(next, o) == (if o.status == Funded && next.inputs == [] then Insufficient else o.status)
            && if points == [] then c == CallEnd(AsTx(d), Some(NoBitcoin), [])
               else if StatusOf(next, o) != Funded then c == CallEnd(AsTx(next), Some(FundingFailed), [])
               else c == SendCall(s, next, send)
  {
    hide SendCall, Taken;
    assert [] + Taken(points, o.take) == Taken(points, o.take);
  }

  lemma SpendableStored(l: LedgerState, inputs: seq<TxIn>)
    ensures Spendable(l, inputs) ==> Stored(l, inputs)
  {
  }

  lemma NothingSelected(s: RunState)
    requires WellFormed(s.wallet.index)
    ensures SelectedAll(s, []) && Run(s, []) == s
    ensures forall msg :: !Recorded([], msg)
  {
    RunStart(s);
  }

  // ----- over a whole call -----

  /** No outpoint is an input of two broadcasts, or twice of one, and every input of one is reserved. */
  ghost predicate SpentOnce(s: RunState) {
    && NoDoubleSelection(s)
    && (forall b :: 0 <= b < |s.broadcasts| ==> Distinct(PointsOf(s.broadcasts[b].inputs)))
  }

  lemma StepBroadcasts(s: RunState, e: Event)
    requires WellFormed(s.wallet.index)
    ensures Step(s, e).broadcasts == if e.Broadcast? then s.broadcasts + [e.tx] else s.broadcasts
  {
  }

  lemma StepKeepsOnce(s: RunState, e: Event)
    requires WellFormed(s.wallet.index) && SpentOnce(s)
    requires e.Broadcast? ==> Selected(s, e.tx)
    ensures SpentOnce(Step(s, e))
  {
    hide Step, NoDoubleSelection, WellFormed;
    StepKeepsSelection(s, e);
    StepBroadcasts(s, e);
  }

  /** A call that selects safely, whatever it broadcast, keeps every outpoint spent at most once. */
  lemma {:induction false} CallKeepsOnce(s: RunState, events: seq<Event>)
    requires WellFormed(s.wallet.index) && SpentOnce(s) && SelectedAll(s, events)
    ensures SpentOnce(Run(s, events))
  {
    hide Run, Step, Selected, SelectedAll, SpentOnce, WellFormed;
    if events == [] {
      RunStart(s);
    } else {
      var last := |events| - 1;
      SelectedLast(s, events);
      CallKeepsOnce(s, events[..last]);
      StepKeepsOnce(Run(s, events[..last]), events[last]);
    }
  }

  lemma SelectedLast(s: RunState, events: seq<Event>)
    requires WellFormed(s.wallet.index) && SelectedAll(s, events) && events != []
    ensures var last := |events| - 1;
            && SelectedAll(s, events[..last])
            && (events[last].Broadcast? ==> Selected(Run(s, events[..last]), events[last].tx))
            && Run(s, events) == Step(Run(s, events[..last]), events[last])
  {
    hide Selected, Step;
    var last := |events| - 1;
    assert forall n :: 0 <= n < last ==> events[..last][..n] == events[..n] && events[..last][n] == events[n];
  }

  /** A reserved entry after an event was reserved before, or the event broadcast what spends it. */
  lemma ReservedFrom(s: RunState, e: Event, p: OutPoint)
    requires WellFormed(s.wallet.index) && Reserved(Step(s, e), p)
    ensures Reserved(s, p) || (e.Broadcast? && Spends(e.tx, p))
  {
    hide Process, FinalizeOutputs, Revert, WellFormed;
    match e
    case Feed(tx, _) => ProcessPassed(s.wallet, tx, true);
    case Broadcast(tx) => ProcessPassed(s.wallet, tx, false);
    case Confirm(tx) => FinalizeOutputsAt(s.wallet, tx, 0);
    case Reverse(tx) => RevertReserved(s.wallet, tx, p);
    case Grow(_) =>
  }

  lemma RevertReserved(w: WalletState, tx: Tx, p: OutPoint)
    ensures Revert(w, tx, true).Keys == w.ledger.Keys
    ensures p in w.ledger ==> Revert(w, tx, true)[p].reserved == w.ledger[p].reserved
  {
    UnspendInputsAt(w.ledger, tx, 0, true);
    DropOutputsAt(w.(ledger := UnspendInputs(w.ledger, tx, 0, true)), tx, 0);
  }
}
