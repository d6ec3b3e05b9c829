/**
 The funding calls of internal/wallet/funding.go, on the stored objects. Each ends in the state, and with
 the transaction and run events, that FundingSpec.dfy gives for it.
 */
module Funding {
  import opened Results
  import opened Bitcoin
  import opened AddressSpec
  import opened LedgerSpec
  import opened FeedOrder
  import opened LedgerRun
  import opened AddressIndexes
  import opened Ledgers
  import opened Wallets
  import opened Signing
  import opened FundingSpec

  function Points(utxos: seq<UTXO>): (r: seq<OutPoint>)
    ensures |r| == |utxos| && forall i :: 0 <= i < |r| ==> r[i] == utxos[i].point
  {
    seq(|utxos|, i requires 0 <= i < |utxos| => utxos[i].point)
  }

  class TxBuilder {
    var inputs: seq<TxIn>
    var outputs: seq<TxOut>
    var change: seq<TxOut>

    constructor (outputs: seq<TxOut>)
      ensures State() == Draft([], outputs, [])
    {
      inputs, this.outputs, change := [], outputs, [];
    }

    function State(): Draft
      reads this
    {
      Draft(inputs, outputs, change)
    }

    function MsgTx(): (tx: Tx)
      reads this
      ensures tx == AsTx(State())
    {
      Tx(inputs, outputs + change)
    }

    /** Inputs are added in order; success needs at least one, as a fee is always due. */
    method AddFunding(utxos: seq<UTXO>, o: FundingOutcome) returns (status: FundingStatus)
      modifies this
      ensures State() == Offer(old(State()), Points(utxos), o) && status == StatusOf(State(), o)
    {
      ghost var before := inputs;
      for k := 0 to |utxos|
        invariant inputs == before + Taken(Points(utxos)[..k], o.take) && outputs == old(outputs)
      {
        assert Points(utxos)[..k + 1][..k] == Points(utxos)[..k];
        if k < |o.take| && o.take[k] {
          inputs := inputs + [TxIn(utxos[k].point, None)];
        }
      }
      assert Points(utxos)[..|utxos|] == Points(utxos);
      change := o.change;
      status := if o.status == Funded && inputs == [] then Insufficient else o.status;
    }

    /** Signing fills in the key of every input and settles the change. */
    method Sign(keys: seq<PrivateKey>, o: Sending) returns (ok: bool)
      requires |keys| == |inputs|
      modifies this
      ensures ok == o.signs && (!ok ==> State() == old(State()))
      ensures ok ==>
                && outputs == old(outputs) && change == o.change && SamePoints(inputs, old(inputs))
                && forall i :: 0 <= i < |inputs| ==> inputs[i].keys == Some([PublicOf(keys[i])])
    {
      if !o.signs {
        return false;
      }
      for k := 0 to |inputs|
        invariant SamePoints(inputs, old(inputs)) && outputs == old(outputs)
        invariant forall i :: 0 <= i < k ==> inputs[i].keys == Some([PublicOf(keys[i])])
      {
        inputs := inputs[k := TxIn(inputs[k].point, Some([PublicOf(keys[k])]))];
      }
      change := o.change;
      return true;
    }
  }

  /** The run state a wallet stands in. */
  ghost predicate Follows(w: Wallet, s: RunState)
    reads w, w.txs.Values, w.index, w.index.repr, w.ledger, w.ledger.repr
  {
    && w.Valid() && s.wallet == w.State()
    && s.handled == w.txs.Keys && s.finalized <= s.handled
    && (forall t :: t in w.txs ==> w.txs[t].tx == t && (w.txs[t].promoted <==> t in s.finalized))
  }

  lemma FollowsWellFormed(w: Wallet, s: RunState)
    requires Follows(w, s)
    ensures WellFormed(s.wallet.index)
  {
  }

  // ----- sending one transaction -----

  method CollectKeys(w: Wallet, tx: TxBuilder, ghost s: RunState) returns (keys: Result<seq<PrivateKey>, KeyError>)
    requires Follows(w, s)
    ensures keys.Ok? <==> Stored(s.wallet.ledger, tx.inputs)
    ensures keys.Ok? ==>
              && |keys.value| == |tx.inputs|
              && forall n :: 0 <= n < |tx.inputs| ==>
                   keys.value[n] == SigningKey(s.wallet.index.wallet, s.wallet.ledger[tx.inputs[n].point])
  {
    hide WellFormed, Wallet.Valid, Wallet.State, SigningKey;
    keys := w.GetInputKeys(tx.MsgTx());
  }

  /** Collect the keys and sign; the wallet is only read. */
  method SignInputs(w: Wallet, tx: TxBuilder, o: Sending, ghost s: RunState) returns (e: Option<FundingError>)
    requires Follows(w, s)
    modifies tx
    ensures WellFormed(s.wallet.index) && Follows(w, s)
    ensures e == (if !Stored(s.wallet.ledger, old(tx.inputs)) then Some(KeysMissing)
                  else if !o.signs then Some(SignFailed) else None)
    ensures e.Some? ==> tx.State() == old(tx.State())
    ensures e.None? ==>
              tx.State() == Draft(SignedInputs(s.wallet, old(tx.inputs)), old(tx.outputs), o.change)
  {
    FollowsWellFormed(w, s);
    StateParts(tx);
    hide *;
    var keys := CollectKeys(w, tx, s);
    if keys.Err? {
      return Some(KeysMissing);
    }
    var ok := tx.Sign(keys.value, o);
    StateParts(tx);
    e := if ok then None else Some(SignFailed);
    if ok {
      AllSigned(s.wallet, old(tx.inputs), tx.inputs, keys.value);
    }
  }

  lemma StateParts(tx: TxBuilder)
    ensures tx.State() == Draft(tx.inputs, tx.outputs, tx.change)
  {
  }

  lemma AllSigned(w: WalletState, before: seq<TxIn>, after: seq<TxIn>, keys: seq<PrivateKey>)
    requires |keys| == |before| && SamePoints(after, before) && Stored(w.ledger, before)
    requires forall n :: 0 <= n < |before| ==> keys[n] == SigningKey(w.index.wallet, w.ledger[before[n].point])
    requires forall n :: 0 <= n < |after| ==> after[n].keys == Some([PublicOf(keys[n])])
    ensures after == SignedInputs(w, before)
  {
    hide SigningKey;
    forall n | 0 <= n < |after| ensures after[n] == SignedInputs(w, before)[n] {
    }
  }

  /** What the node does with a relevant transaction: PreprocessTx and AddWireTx. */
  method RecordFed(w: Wallet, msg: Tx, kept: bool, ghost s: RunState)
    requires Follows(w, s) && msg !in s.handled
    modifies w`txs, w.index, w.index.repr, w.ledger, w.ledger.repr
    ensures WellFormed(s.wallet.index) && Follows(w, Step(s, Feed(msg, kept)))
    ensures fresh(w.index.repr - old(w.index.repr)) && fresh(w.ledger.repr - old(w.ledger.repr))
  {
    hide Process, WellFormed, Wallet.Valid, Wallet.State;
    w.ProcessUTXOs(msg, true);
    w.AddWireTx(msg, kept);
  }

  /** Node.BroadcastTx: the network may hand the transaction back to the node before it answers. */
  method BroadcastTx(w: Wallet, msg: Tx, o: Sending, ghost s: RunState) returns (ok: bool, feeds: bool)
    requires Follows(w, s)
    modifies w`txs, w.index, w.index.repr, w.ledger, w.ledger.repr
    ensures ok == o.accepted && feeds == (o.fed && msg !in s.handled)
    ensures WellFormed(s.wallet.index) && Follows(w, if feeds then Step(s, Feed(msg, o.kept)) else s)
    ensures fresh(w.index.repr - old(w.index.repr)) && fresh(w.ledger.repr - old(w.ledger.repr))
  {
    hide Process, WellFormed, Wallet.Valid, Wallet.State;
    ok, feeds := o.accepted, o.fed && msg !in w.txs;
    if feeds {
      RecordFed(w, msg, o.kept, s);
    }
  }

  method RecordOwn(w: Wallet, msg: Tx, ghost s: RunState)
    requires Follows(w, s)
    modifies w.index, w.index.repr, w.ledger, w.ledger.repr
    ensures WellFormed(s.wallet.index) && Follows(w, Step(s, Broadcast(msg)))
    ensures fresh(w.index.repr - old(w.index.repr)) && fresh(w.ledger.repr - old(w.ledger.repr))
  {
    hide Process, WellFormed, Wallet.Valid, Wallet.State;
    w.ProcessUTXOs(msg, false);
  }

  /** Broadcast a signed transaction and, once accepted, record it as our own. */
  method SendSigned(w: Wallet, msg: Tx, o: Sending, ghost s: RunState)
    returns (e: Option<FundingError>, ghost events: seq<Event>)
    requires Follows(w, s)
    modifies w`txs, w.index, w.index.repr, w.ledger, w.ledger.repr
    ensures WellFormed(s.wallet.index) && Follows(w, Run(s, events))
    ensures fresh(w.index.repr - old(w.index.repr)) && fresh(w.ledger.repr - old(w.ledger.repr))
    ensures e == (if o.accepted then None else Some(BroadcastFailed))
    ensures var feeds := o.fed && msg !in s.handled;
            events == if o.accepted then SendEvents(msg, feeds, o.kept)
                      else if feeds then [Feed(msg, o.kept)] else []
  {
    hide *;
    var accepted, feeds := BroadcastTx(w, msg, o, s);
    SendRun(s, msg, feeds, o.kept);
    if accepted {
      RecordOwn(w, msg, if feeds then Step(s, Feed(msg, o.kept)) else s);
      e, events := None, SendEvents(msg, feeds, o.kept);
    } else {
      e, events := Some(BroadcastFailed), if feeds then [Feed(msg, o.kept)] else [];
    }
  }

  /** The tail of every funding branch: collect the keys, sign, broadcast, and record as our own. */
  method SignAndSend(w: Wallet, tx: TxBuilder, o: Sending, ghost s: RunState)
    returns (e: Option<FundingError>, ghost events: seq<Event>)
    requires Follows(w, s)
    modifies tx, w`txs, w.index, w.index.repr, w.ledger, w.ledger.repr
    ensures WellFormed(s.wallet.index) && Follows(w, Run(s, events))
    ensures fresh(w.index.repr - old(w.index.repr)) && fresh(w.ledger.repr - old(w.ledger.repr))
    ensures CallEnd(tx.MsgTx(), e, events) == SendCall(s, old(tx.State()), o)
    ensures SendResult(s, old(tx.inputs), tx.MsgTx(), e, events)
    ensures tx.outputs == old(tx.outputs)
  {
    hide *;
    StateParts(tx);
    ghost var d := tx.State();
    SendCallResult(s, d, o) by { FollowsWellFormed(w, s); }
    e := SignInputs(w, tx, o, s);
    StateParts(tx);
    SendSteps(s, d, o);
    if e.Some? {
      NothingSelected(s);
      events := [];
    } else {
      e, events := SendSigned(w, tx.MsgTx(), o, s);
    }
  }

  lemma SendSteps(s: RunState, d: Draft, o: Sending)
    ensures SendCall(s, d, o) ==
            if !Stored(s.wallet.ledger, d.inputs) then CallEnd(AsTx(d), Some(KeysMissing), [])
            else if !o.signs then CallEnd(AsTx(d), Some(SignFailed), [])
            else
              var msg := AsTx(Draft(SignedInputs(s.wallet, d.inputs), d.outputs, o.change));
              var feeds := o.fed && msg !in s.handled;
              CallEnd(msg, if o.accepted then None else Some(BroadcastFailed),
                      if o.accepted then SendEvents(msg, feeds, o.kept)
                      else if feeds then [Feed(msg, o.kept)] else [])
  {
  }

  // ----- choosing what to spend -----

  lemma ChosenOffered(ledger: Ledger, result: seq<UTXO>, s: Selector)
    requires ledger.Valid() && ledger.Chosen(result, s, ledger.utxos.Keys)
    ensures Offered(ledger.State(), Points(result), s)
    ensures Points(result) == [] <==> result == []
  {
    hide Selects, Bucketed;
    forall p | p in ledger.State() && Selects(s, ledger.State()[p]) ensures p in Points(result) {
      var k :| 0 <= k < |result| && result[k] == ledger.entries[p];
      assert Points(result)[k] == p;
    }
  }

  /** ConvertUTXOs of a selection, as the builder gets it. */
  method FetchUTXOs(w: Wallet, selector: Selector, ghost s: RunState) returns (utxos: seq<UTXO>)
    requires Follows(w, s)
    ensures Offered(s.wallet.ledger, Points(utxos), selector) && (Points(utxos) == [] <==> utxos == [])
  {
    hide WellFormed, Selects, Offered, AddressIndex.Valid;
    match selector {
      case KeySelector(t, i) => utxos := w.ledger.GetKeyUTXOs(t, i);
      case KeyHashSelector(t, i, h) => utxos := w.ledger.GetKeyHashUTXOs(t, i, h);
      case BitcoinSelector => utxos := w.ledger.GetBitcoinUTXOs();
    }
    ChosenOffered(w.ledger, utxos, selector);
  }

  /** Offering a selection only changes the builder. */
  method OfferUTXOs(w: Wallet, utxos: seq<UTXO>, tx: TxBuilder, o: FundingOutcome, ghost s: RunState)
    returns (status: FundingStatus)
    requires Follows(w, s)
    modifies tx
    ensures Follows(w, s)
    ensures tx.State() == Offer(old(tx.State()), Points(utxos), o) && status == StatusOf(tx.State(), o)
  {
    hide *;
    status := tx.AddFunding(utxos, o);
  }

  method AddInput(w: Wallet, tx: TxBuilder, point: OutPoint, ghost s: RunState)
    requires Follows(w, s)
    modifies tx
    ensures Follows(w, s)
    ensures tx.State() == var d := old(tx.State()); d.(inputs := d.inputs + [TxIn(point, None)])
  {
    hide *;
    StateParts(tx);
    tx.inputs := tx.inputs + [TxIn(point, None)];
    StateParts(tx);
  }

  /** Fund from what is offered, and send. */
  method SendOffered(w: Wallet, utxos: seq<UTXO>, tx: TxBuilder, o: FundingOutcome, send: Sending, ghost s: RunState)
    returns (e: Option<FundingError>, ghost events: seq<Event>)
    requires Follows(w, s)
    modifies tx, w`txs, w.index, w.index.repr, w.ledger, w.ledger.repr
    ensures WellFormed(s.wallet.index) && Follows(w, Run(s, events))
    ensures fresh(w.index.repr - old(w.index.repr)) && fresh(w.ledger.repr - old(w.ledger.repr))
    ensures CallEnd(tx.MsgTx(), e, events) == OfferAndSend(s, old(tx.State()), Points(utxos), o, send)
    ensures tx.outputs == old(tx.outputs)
  {
    hide *;
    FollowsWellFormed(w, s);
    NothingSelected(s);
    StateParts(tx);
    ghost var d := tx.State();
    OfferSteps(s, d, Points(utxos), o, send);
    if utxos == [] {
      return Some(NoBitcoin), [];
    }
    var status := OfferUTXOs(w, utxos, tx, o, s);
    StateParts(tx);
    if status != Funded {
      return Some(FundingFailed), [];
    }
    e, events := SignAndSend(w, tx, send, s);
  }

  lemma OfferSteps(s: RunState, d: Draft, points: seq<OutPoint>, o: FundingOutcome, send: Sending)
    ensures var next := Offer(d, points, o);
            && next.outputs == d.outputs
            && OfferAndSend(s, d, points, o, send) ==
               if points == [] then CallEnd(AsTx(d), Some(NoBitcoin), [])
               else if StatusOf(next, o) != Funded then CallEnd(AsTx(next), Some(FundingFailed), [])
               else SendCall(s, next, send)
  {
    hide SendCall, Taken;
  }

  // ----- a separate transaction to the requested key -----

  /** The loop that adds up what the transaction itself pays. */
  method TotalFunding(estimate: nat, dustLimit: nat, outputs: seq<TxOut>) returns (amount: nat)
    ensures amount == FundingAmount(estimate, dustLimit, outputs)
  {
    amount := if estimate < dustLimit then 2 * dustLimit else estimate;
    ghost var base := amount;
    for k := 0 to |outputs|
      invariant amount == base + TotalValue(outputs[..k])
    {
      assert outputs[..k + 1][..k] == outputs[..k];
      amount := amount + outputs[k].value;
    }
    assert outputs[..|outputs|] == outputs;
  }

  method AddSeparateFunding(w: Wallet, ra: RawAddress, tx: TxBuilder, out: Outside, ghost s: RunState)
    returns (e: Option<FundingError>, ghost events: seq<Event>, ghost bitcoin: seq<OutPoint>)
    requires Follows(w, s)
    modifies tx, w`txs, w.index, w.index.repr, w.ledger, w.ledger.repr
    ensures WellFormed(s.wallet.index) && Follows(w, Run(s, events))
    ensures fresh(w.index.repr - old(w.index.repr)) && fresh(w.ledger.repr - old(w.ledger.repr))
    ensures Offered(s.wallet.ledger, bitcoin, BitcoinSelector)
    ensures var amount := FundingAmount(out.estimate, w.dustLimit, old(tx.outputs));
            CallEnd(tx.MsgTx(), e, events) == SeparateCall(s, old(tx.State()), bitcoin, ra, amount, out)
    ensures tx.outputs == old(tx.outputs)
  {
    hide *;
    FollowsWellFormed(w, s);
    StateParts(tx);
    ghost var d := tx.State();
    var amount := TotalFunding(out.estimate, w.dustLimit, tx.outputs);
    var butxos := FetchUTXOs(w, BitcoinSelector, s);
    bitcoin := Points(butxos);
    var fundTx := new TxBuilder([TxOut(amount, Pay(ra))]);
    ghost var first, more;
    e, first := SendOffered(w, butxos, fundTx, out.separate, out.sendSeparate, s);
    SeparateSteps(s, d, bitcoin, ra, amount, out);
    if e.Some? {
      return e, first, bitcoin;
    }
    ghost var t := Run(s, first);
    AddInput(w, tx, OutPoint(fundTx.MsgTx(), 0), t);
    StateParts(tx);
    e, more := SignAndSend(w, tx, out.send, t);
    RunAppend(s, first, more);
    events := first + more;
  }

  lemma SeparateSteps(s: RunState, d: Draft, bitcoin: seq<OutPoint>, ra: RawAddress, amount: nat, out: Outside)
    requires WellFormed(s.wallet.index)
    ensures var fund := OfferAndSend(s, Draft([], [TxOut(amount, Pay(ra))], []), bitcoin, out.separate, out.sendSeparate);
            SeparateCall(s, d, bitcoin, ra, amount, out) ==
            if fund.error.Some? then CallEnd(AsTx(d), fund.error, fund.events)
            else
              var sent := SendCall(Run(s, fund.events), d.(inputs := d.inputs + [TxIn(OutPoint(fund.msg, 0), None)]), out.send);
              CallEnd(sent.msg, sent.error, fund.events + sent.events)
  {
    hide OfferAndSend, SendCall, Run;
  }

  /** Take an unused change address; the state moves on only if there is one. */
  method TakeChangeAddress(w: Wallet, ghost s: RunState) returns (change: Address?, ghost t: RunState)
    requires Follows(w, s)
    modifies w.index`state, w.index.repr
    ensures Follows(w, t) && WellFormed(s.wallet.index)
    ensures change == null <==> ChangeRef(s.wallet.index).None?
    ensures change == null ==> t == s
    ensures change != null ==> t == Changed(s)
  {
    hide ListsShared, MapFiled, Monitored, Bucketed, Filed, StateOf, Give, WellFormed, FirstFree, Extends;
    ghost var ix := w.index.state;
    FourTypes(ix);
    change := w.index.GetUnusedAddress(KEY_TYPE_INTERNAL);
    t := s;
    if change != null {
      GiveGrows(s, ChangeRef(ix).value);
      IndexedExtends(w.ledger.entries, ix, w.index.state);
      t := Changed(s);
    }
  }

  lemma FourTypes(ix: IndexState)
    requires WellFormed(ix)
    ensures KEY_TYPE_INTERNAL < KEY_TYPE_COUNT == |ix.lists|
  {
  }

  lemma ListedRequest(index: AddressIndex, a: Address, t: nat, i: nat)
    requires index.Valid() && index.Holds(a, Listed(t, i))
    ensures RequestedAddress(index.state, KeySelector(t, i)) == Some(a.address)
  {
    index.HoldsRepresents(a, Listed(t, i));
  }

  lemma HashRequest(ix: IndexState, t: nat, i: nat, h: Hash32)
    ensures RequestedAddress(ix, KeyHashSelector(t, i, h)) ==
            Some(PayToKeyHash(Hash160(PublicOf(NextKey(PrivateChild(ix.wallet, t, i), h)))))
  {
    assert PublicOf(PrivateChild(ix.wallet, t, i)) == ChildKey(ix.wallet, t, i);
  }

  lemma IndexOf(w: Wallet, s: RunState)
    requires Follows(w, s)
    ensures w.index.Valid() && w.index.state == s.wallet.index && w.index.wallet == s.wallet.index.wallet
  {
  }

  /** The address to fund, from the list or derived from the hash. */
  method FindRequested(w: Wallet, selector: Selector, ghost s: RunState) returns (ra: Option<RawAddress>)
    requires Follows(w, s) && !selector.BitcoinSelector?
    ensures ra == RequestedAddress(s.wallet.index, selector)
  {
    hide AddressIndex.Valid, AddressIndex.Holds, Follows, StoredAddress;
    IndexOf(w, s);
    match selector
    case KeySelector(t, i) =>
      var address := w.index.GetAddress(t, i);
      if address == null {
        return None;
      }
      ListedRequest(w.index, address, t, i);
      return Some(address.address);
    case KeyHashSelector(t, i, h) =>
      var key := NextKey(w.index.GetKey(t, i), h);
      HashRequest(s.wallet.index, t, i, h);
      return Some(PayToKeyHash(Hash160(PublicOf(key))));
  }

  /** Nothing under the requested key: pay it from bitcoin funds first, then spend that payment. */
  method FundThroughAddress(w: Wallet, selector: Selector, tx: TxBuilder, out: Outside, ghost s: RunState)
    returns (e: Option<FundingError>, ghost events: seq<Event>, ghost bitcoin: seq<OutPoint>)
    requires Follows(w, s) && !selector.BitcoinSelector?
    modifies tx, w`txs, w.index, w.index.repr, w.ledger, w.ledger.repr
    ensures WellFormed(s.wallet.index) && Follows(w, Run(s, events))
    ensures fresh(w.index.repr - old(w.index.repr)) && fresh(w.ledger.repr - old(w.ledger.repr))
    ensures Offered(s.wallet.ledger, bitcoin, BitcoinSelector)
    ensures CallEnd(tx.MsgTx(), e, events) == AddressCall(s, old(tx.State()), selector, bitcoin, w.dustLimit, out)
    ensures tx.outputs == old(tx.outputs)
  {
    hide *;
    FollowsWellFormed(w, s);
    StateParts(tx);
    NothingSelected(s);
    ghost var d := tx.State();
    bitcoin := AnyOrder(s.wallet.ledger, BitcoinSelector);
    AddressCases(s, d, selector, bitcoin, w.dustLimit, out);
    ghost var t;
    var change: Address?;
    change, t := TakeChangeAddress(w, s);
    if change == null {
      return Some(NoChangeAddress), [], bitcoin;
    }
    ChangeGrows(s);
    RunOne(s, Grow(t.wallet.index));
    var ra := FindRequested(w, selector, t);
    if ra.None? {
      return Some(AddressNotFound), [Grow(t.wallet.index)], bitcoin;
    }
    ghost var more;
    e, more, bitcoin := AddSeparateFunding(w, ra.value, tx, out, t);
    AddressCases(s, d, selector, bitcoin, w.dustLimit, out);
    RunAppend(s, [Grow(t.wallet.index)], more);
    events := [Grow(t.wallet.index)] + more;
  }

  // ----- the three-way funding call -----

  /** AddKeyIndexFunding and AddKeyFunding: they differ in the selector and the address to fund. */
  method AddFunds(w: Wallet, selector: Selector, tx: TxBuilder, out: Outside, ghost s: RunState)
    returns (e: Option<FundingError>, ghost events: seq<Event>, ghost own: seq<OutPoint>, ghost bitcoin: seq<OutPoint>)
    requires Follows(w, s) && !selector.BitcoinSelector?
    modifies tx, w`txs, w.index, w.index.repr, w.ledger, w.ledger.repr
    ensures WellFormed(s.wallet.index) && Follows(w, Run(s, events))
    ensures fresh(w.index.repr - old(w.index.repr)) && fresh(w.ledger.repr - old(w.ledger.repr))
    ensures tx.outputs == old(tx.outputs)
    ensures Offered(s.wallet.ledger, own, selector) && Offered(s.wallet.ledger, bitcoin, BitcoinSelector)
    ensures CallEnd(tx.MsgTx(), e, events) == FundCall(s, old(tx.State()), selector, own, bitcoin, w.dustLimit, out)
  {
    hide *;
    FollowsWellFormed(w, s);
    NothingSelected(s);
    StateParts(tx);
    ghost var d := tx.State();
    var utxos := FetchUTXOs(w, selector, s);
    own, bitcoin := Points(utxos), AnyOrder(s.wallet.ledger, BitcoinSelector);
    FundSteps(s, d, selector, own, w.dustLimit, out);
    var status := OfferUTXOs(w, utxos, tx, out.first, s);
    StateParts(tx);
    match status {
      case Funded =>
        e, events := SignAndSend(w, tx, out.send, s);
      case Refused =>
        e, events := Some(FundingFailed), [];
      case Insufficient =>
        if |tx.inputs| > 0 {
          var butxos := FetchUTXOs(w, BitcoinSelector, s);
          bitcoin := Points(butxos);
          e, events := SendOffered(w, butxos, tx, out.more, out.send, s);
        } else {
          e, events, bitcoin := FundThroughAddress(w, selector, tx, out, s);
        }
    }
  }

  lemma FundSteps(s: RunState, d: Draft, selector: Selector, own: seq<OutPoint>, dust: nat, out: Outside)
    requires WellFormed(s.wallet.index)
    ensures var first := Offer(d, own, out.first);
            && first.outputs == d.outputs
            && forall bitcoin ::
                 FundCall(s, d, selector, own, bitcoin, dust, out) ==
                 match StatusOf(first, out.first)
                 case Funded => SendCall(s, first, out.send)
                 case Refused => CallEnd(AsTx(first), Some(FundingFailed), [])
                 case Insufficient =>
                   if |first.inputs| > 0 then OfferAndSend(s, first, bitcoin, out.more, out.send)
                   else AddressCall(s, first, selector, bitcoin, dust, out)
  {
    hide SendCall, OfferAndSend, AddressCall, Taken, WellFormed;
  }

  method AddKeyIndexFunding(w: Wallet, keyType: nat, keyIndex: nat, tx: TxBuilder, out: Outside, ghost s: RunState)
    returns (e: Option<FundingError>, ghost events: seq<Event>)
    requires Follows(w, s)
    modifies tx, w`txs, w.index, w.index.repr, w.ledger, w.ledger.repr
    ensures WellFormed(s.wallet.index) && Follows(w, Run(s, events)) && tx.outputs == old(tx.outputs)
    ensures fresh(w.index.repr - old(w.index.repr)) && fresh(w.ledger.repr - old(w.ledger.repr))
    ensures old(tx.inputs) == [] ==>
              FundResult(s, KeySelector(keyType, keyIndex), FundingAmount(out.estimate, w.dustLimit, tx.outputs) > 0,
                         tx.MsgTx(), e, events)
    ensures old(tx.inputs) == [] ==> Branches(s.wallet.ledger, KeySelector(keyType, keyIndex), out, tx.MsgTx(), e, events)
  {
    hide *;
    FollowsWellFormed(w, s);
    StateParts(tx);
    ghost var d, own, bitcoin := tx.State(), [], [];
    e, events, own, bitcoin := AddFunds(w, KeySelector(keyType, keyIndex), tx, out, s);
    if d.inputs == [] {
      FundCallResult(s, d, KeySelector(keyType, keyIndex), own, bitcoin, w.dustLimit, out);
    }
  }

  method AddKeyFunding(w: Wallet, keyType: nat, keyIndex: nat, keyHash: Hash32, tx: TxBuilder, out: Outside, ghost s: RunState)
    returns (e: Option<FundingError>, ghost events: seq<Event>)
    requires Follows(w, s)
    modifies tx, w`txs, w.index, w.index.repr, w.ledger, w.ledger.repr
    ensures WellFormed(s.wallet.index) && Follows(w, Run(s, events)) && tx.outputs == old(tx.outputs)
    ensures fresh(w.index.repr - old(w.index.repr)) && fresh(w.ledger.repr - old(w.ledger.repr))
    ensures old(tx.inputs) == [] ==>
              FundResult(s, KeyHashSelector(keyType, keyIndex, keyHash),
                         FundingAmount(out.estimate, w.dustLimit, tx.outputs) > 0, tx.MsgTx(), e, events)
    ensures old(tx.inputs) == [] ==>
              Branches(s.wallet.ledger, KeyHashSelector(keyType, keyIndex, keyHash), out, tx.MsgTx(), e, events)
  {
    hide *;
    FollowsWellFormed(w, s);
    StateParts(tx);
    ghost var d, own, bitcoin := tx.State(), [], [];
    e, events, own, bitcoin := AddFunds(w, KeyHashSelector(keyType, keyIndex, keyHash), tx, out, s);
    if d.inputs == [] {
      FundCallResult(s, d, KeyHashSelector(keyType, keyIndex, keyHash), own, bitcoin, w.dustLimit, out);
    }
  }

  /** Funding from bitcoin funds alone. */
  method AddBitcoinFunding(w: Wallet, tx: TxBuilder, out: Outside, ghost s: RunState)
    returns (e: Option<FundingError>, ghost events: seq<Event>)
    requires Follows(w, s)
    modifies tx, w`txs, w.index, w.index.repr, w.ledger, w.ledger.repr
    ensures WellFormed(s.wallet.index) && Follows(w, Run(s, events)) && tx.outputs == old(tx.outputs)
    ensures fresh(w.index.repr - old(w.index.repr)) && fresh(w.ledger.repr - old(w.ledger.repr))
    ensures old(tx.inputs) == [] ==>
              && SelectedAll(s, events) && e != Some(KeysMissing)
              && (e.None? ==> Unclaimed(s.wallet.ledger, tx.MsgTx().inputs))
              && OnlyAbout(events, tx.MsgTx()) && (e.None? <==> Recorded(events, tx.MsgTx()))
              && (e.None? && LedgerSigns(s.wallet) ==> Unlocked(tx.MsgTx().inputs))
              && (e == Some(NoBitcoin) <==> NothingUnder(s.wallet.ledger, BitcoinSelector))
              && (!NothingUnder(s.wallet.ledger, BitcoinSelector) && TakesFirst(out.first) ==>
                    (e.None? <==> out.first.status == Funded && out.send.signs && out.send.accepted))
  {
    hide *;
    FollowsWellFormed(w, s);
    StateParts(tx);
    ghost var d := tx.State();
    var butxos := FetchUTXOs(w, BitcoinSelector, s);
    e, events := SendOffered(w, butxos, tx, out.first, out.send, s);
    if d.inputs == [] {
      BitcoinCallResult(s, d, Points(butxos), out);
    }
  }
}
