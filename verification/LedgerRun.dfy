/**
 Whole runs of the ledger: any interleaving of network feeds, local broadcasts, confirmations,
 reversals and index growth. The stored entries are compared with the history of the run.
 */
module LedgerRun {
  import opened Results
  import opened Bitcoin
  import opened AddressSpec
  import opened LedgerSpec
  import opened FeedOrder

  /**
   `handled` are the transactions the node keeps, `finalized` the promoted ones. The rest is history:
   `refused` are fed transactions the inspector refused, which the node processed and did not keep,
   `reverted` the reverted ones, `owned` every outpoint that was owned when its transaction was
   recorded, and `broadcasts` what the wallet sent.
   */
  datatype RunState = RunState(
    wallet: WalletState,
    handled: set<Tx>,
    finalized: set<Tx>,
    refused: set<Tx>,
    reverted: set<Tx>,
    owned: set<OutPoint>,
    broadcasts: seq<Tx>)

  datatype Event =
    | Feed(tx: Tx, kept: bool)   // HandleTx, for a transaction the inspector accepts or refuses
    | Broadcast(tx: Tx)          // the tail of a funding call
    | Confirm(tx: Tx)            // HandleTxState, safe or confirm
    | Reverse(tx: Tx)            // HandleTxState, cancel, unsafe or revert
    | Grow(index: IndexState)    // keys registered or addresses given out

  function OwnedOutputs(ix: IndexState, tx: Tx): set<OutPoint>
    requires WellFormed(ix)
  {
    set i | 0 <= i < |tx.outputs| && OwnedAtTurn(ix, tx, i) :: OutPoint(tx, i)
  }

  ghost predicate ValidGrowth(s: RunState, ix: IndexState) {
    WellFormed(ix) && Extends(s.wallet.index, ix)
  }

  ghost function Step(s: RunState, e: Event): (r: RunState)
    requires WellFormed(s.wallet.index)
    ensures WellFormed(r.wallet.index)
  {
    match e
    case Feed(tx, kept) =>
      if tx in s.handled then s
      else s.(wallet := Process(s.wallet, tx, true),
              handled := if kept then s.handled + {tx} else s.handled,
              refused := if kept then s.refused else s.refused + {tx},
              owned := s.owned + OwnedOutputs(s.wallet.index, tx))
    case Broadcast(tx) =>
      s.(wallet := Process(s.wallet, tx, false), broadcasts := s.broadcasts + [tx],
         owned := s.owned + OwnedOutputs(s.wallet.index, tx))
    case Confirm(tx) =>
      if tx !in s.handled || tx in s.finalized then s
      else s.(wallet := s.wallet.(ledger := FinalizeOutputs(s.wallet, tx, 0)),
              finalized := s.finalized + {tx})
    case Reverse(tx) =>
      if tx !in s.handled then s
      else s.(wallet := s.wallet.(ledger := Revert(s.wallet, tx, true)),
              reverted := s.reverted + {tx})
    case Grow(ix) =>
      if ValidGrowth(s, ix) then s.(wallet := s.wallet.(index := ix)) else s
  }

  ghost function Run(s: RunState, events: seq<Event>): (r: RunState)
    requires WellFormed(s.wallet.index)
    ensures WellFormed(r.wallet.index)
  {
    if events == [] then s else Step(Run(s, events[..|events| - 1]), events[|events| - 1])
  }

  function Start(ix: IndexState): RunState {
    RunState(WalletState(map[], ix), {}, {}, {}, {}, {}, [])
  }

  /** No event takes anything away from the index. */
  lemma StepExtends(s: RunState, e: Event)
    requires WellFormed(s.wallet.index)
    ensures Extends(s.wallet.index, Step(s, e).wallet.index)
  {
    ExtendsReflexive(s.wallet.index);
    match e
    case Feed(tx, _) => ProcessAt(s.wallet, tx, true); IndexAtExtends(s.wallet.index, tx, 0, |tx.outputs|);
    case Broadcast(tx) => ProcessAt(s.wallet, tx, false); IndexAtExtends(s.wallet.index, tx, 0, |tx.outputs|);
    case _ =>
  }

  lemma {:induction false} RunExtends(s: RunState, events: seq<Event>)
    requires WellFormed(s.wallet.index)
    ensures Extends(s.wallet.index, Run(s, events).wallet.index)
  {
    hide Step, Extends;
    ExtendsReflexive(s.wallet.index);
    if events != [] {
      var before := Run(s, events[..|events| - 1]);
      RunExtends(s, events[..|events| - 1]);
      StepExtends(before, events[|events| - 1]);
      ExtendsTransitive(s.wallet.index, before.wallet.index, Run(s, events).wallet.index);
    }
  }

  // ----- refinement -----

  /** Every transaction that was fed, kept or not. */
  function Seen(s: RunState): set<Tx> {
    s.handled + s.refused
  }

  /** A transaction that was fed and not reverted spends `p`. */
  ghost predicate SpentLive(s: RunState, p: OutPoint) {
    exists t :: t in Seen(s) && t !in s.reverted && Spends(t, p)
  }

  /** The same, leaving out one transaction. */
  ghost predicate SpentByOther(s: RunState, p: OutPoint, tx: Tx) {
    exists t :: t in Seen(s) && t !in s.reverted && t != tx && Spends(t, p)
  }

  ghost predicate EntryRefines(s: RunState, p: OutPoint)
    requires p in s.wallet.ledger
  {
    var u := s.wallet.ledger[p];
    && (!u.deleted <==> p.tx !in s.reverted && !SpentLive(s, p))
    && (!u.pending <==> p.tx in s.finalized)
  }

  ghost predicate EntryMatches(s: RunState, p: OutPoint)
    requires p in s.wallet.ledger
  {
    && PaysOwned(s.wallet.index, p.tx, p.index)
    && s.wallet.ledger[p].value == p.tx.outputs[p.index].value
  }

  /**
   The ledger holds exactly the owned outputs of the recorded transactions; an entry is undeleted
   exactly when its transaction stands and nothing that stands spends it; it stops being pending
   exactly when its transaction is confirmed.
   */
  ghost predicate Refines(s: RunState) {
    && s.wallet.ledger.Keys == s.owned
    && (forall p :: p in s.wallet.ledger ==> EntryRefines(s, p) && EntryMatches(s, p))
    && s.reverted <= s.handled && s.finalized <= s.handled
  }

  /**
   What an event must respect, judged before it happens. New outputs must not already be spent by a
   child that was fed; a reversal must come before the reversal of the parents it frees and must not
   free an outpoint that a conflicting transaction still spends.
   */
  ghost predicate Allowed(s: RunState, e: Event)
    requires WellFormed(s.wallet.index)
  {
    match e
    case Feed(tx, _) =>
      tx !in s.handled ==>
        forall p :: p in OwnedOutputs(s.wallet.index, tx) && p !in s.wallet.ledger ==> !SpentLive(s, p)
    case Broadcast(tx) =>
      forall p :: p in OwnedOutputs(s.wallet.index, tx) && p !in s.wallet.ledger ==>
        !SpentLive(s, p) && tx !in s.reverted && tx !in s.finalized
    case Confirm(_) => true
    case Reverse(tx) =>
      tx in s.handled ==>
        forall p :: p in s.wallet.ledger && Spends(tx, p) ==>
          p.tx !in s.reverted && !SpentByOther(s, p, tx)
    case Grow(_) => true
  }

  /** A new entry: recorded at this step, owned now and later. */
  lemma NewEntryMatches(w: WalletState, tx: Tx, isFinal: bool, p: OutPoint)
    requires WellFormed(w.index)
    requires p !in w.ledger && p in Process(w, tx, isFinal).ledger
    ensures var r := Process(w, tx, isFinal);
            && p in OwnedOutputs(w.index, tx) && p.tx == tx
            && PaysOwned(r.index, tx, p.index)
            && r.ledger[p].value == tx.outputs[p.index].value
            && r.ledger[p].pending && !r.ledger[p].reserved && !r.ledger[p].deleted
  {
    ProcessAt(w, tx, isFinal);
    IndexAtExtends(w.index, tx, p.index, |tx.outputs|);
    LookupExtends(IndexAt(w.index, tx, p.index), Process(w, tx, isFinal).index,
                  AddressOf(tx.outputs[p.index].script));
  }

  lemma ProcessKeys(w: WalletState, tx: Tx, isFinal: bool)
    requires WellFormed(w.index)
    ensures Process(w, tx, isFinal).ledger.Keys == w.ledger.Keys + OwnedOutputs(w.index, tx)
  {
    ProcessAt(w, tx, isFinal);
  }

  /** An entry stays matched as the index grows. */
  lemma MatchExtends(ix: IndexState, later: IndexState, tx: Tx, i: nat)
    requires Extends(ix, later) && PaysOwned(ix, tx, i)
    ensures PaysOwned(later, tx, i)
  {
    LookupExtends(ix, later, AddressOf(tx.outputs[i].script));
  }

  lemma ProcessMatches(s: RunState, tx: Tx, isFinal: bool)
    requires WellFormed(s.wallet.index) && Refines(s)
    ensures var w := Process(s.wallet, tx, isFinal);
            forall p :: p in w.ledger ==> EntryMatches(s.(wallet := w), p)
  {
    var w := Process(s.wallet, tx, isFinal);
    ProcessAt(s.wallet, tx, isFinal);
    IndexAtExtends(s.wallet.index, tx, 0, |tx.outputs|);
    forall p | p in w.ledger ensures EntryMatches(s.(wallet := w), p) {
      if p in s.wallet.ledger {
        MatchExtends(s.wallet.index, w.index, p.tx, p.index);
      } else {
        NewEntryMatches(s.wallet, tx, isFinal, p);
      }
    }
  }

  /** One more transaction fed: what is spent live changes exactly at its inputs. */
  lemma SpentLiveAfterFeed(s: RunState, r: RunState, tx: Tx, p: OutPoint)
    requires tx !in s.reverted && Seen(r) == Seen(s) + {tx} && r.reverted == s.reverted
    ensures SpentLive(r, p) <==> SpentLive(s, p) || Spends(tx, p)
  {
    if Spends(tx, p) {
      assert tx in Seen(r);
    }
    if SpentLive(s, p) {
      var t :| t in Seen(s) && t !in s.reverted && Spends(t, p);
      assert t in Seen(r);
    }
  }

  lemma SpentLiveAfterReverse(s: RunState, r: RunState, tx: Tx, p: OutPoint)
    requires Seen(r) == Seen(s) && r.reverted == s.reverted + {tx}
    ensures SpentLive(r, p) <==> SpentByOther(s, p, tx)
    ensures !Spends(tx, p) ==> (SpentByOther(s, p, tx) <==> SpentLive(s, p))
  {
    if SpentByOther(s, p, tx) {
      var t :| t in Seen(s) && t !in s.reverted && t != tx && Spends(t, p);
      assert t !in r.reverted;
    }
    if SpentLive(r, p) {
      var t :| t in Seen(r) && t !in r.reverted && Spends(t, p);
      assert t in Seen(s) && t !in s.reverted && t != tx;
    }
    if SpentLive(s, p) && !Spends(tx, p) {
      var t :| t in Seen(s) && t !in s.reverted && Spends(t, p);
      assert t != tx;
    }
  }

  lemma FeedKeepsRefinement(s: RunState, tx: Tx, kept: bool)
    requires WellFormed(s.wallet.index) && Refines(s) && tx !in s.handled
    ensures Refines(Step(s, Feed(tx, kept))) <==> Allowed(s, Feed(tx, kept))
  {
    var r := Step(s, Feed(tx, kept));
    assert Seen(r) == Seen(s) + {tx};
    ProcessAt(s.wallet, tx, true);
    ProcessKeys(s.wallet, tx, true);
    ProcessMatches(s, tx, true);
    forall p | p in r.wallet.ledger
      ensures p in s.wallet.ledger ==> EntryRefines(r, p)
      ensures p !in s.wallet.ledger ==> (EntryRefines(r, p) <==> !SpentLive(s, p))
    {
      SpentLiveAfterFeed(s, r, tx, p);
      if p !in s.wallet.ledger {
        NewEntryMatches(s.wallet, tx, true, p);
        OwnOutputsUnspent(tx, p.index);
      }
    }
    assert forall p :: p in r.wallet.ledger ==> EntryMatches(r, p) by {
      assert forall p :: p in r.wallet.ledger ==> EntryMatches(s.(wallet := r.wallet), p);
    }
  }

  lemma BroadcastKeepsRefinement(s: RunState, tx: Tx)
    requires WellFormed(s.wallet.index) && Refines(s)
    ensures Refines(Step(s, Broadcast(tx))) <==> Allowed(s, Broadcast(tx))
  {
    var r := Step(s, Broadcast(tx));
    ProcessAt(s.wallet, tx, false);
    ProcessKeys(s.wallet, tx, false);
    ProcessMatches(s, tx, false);
    forall p | p in r.wallet.ledger
      ensures p in s.wallet.ledger ==> EntryRefines(r, p)
      ensures p !in s.wallet.ledger ==>
                (EntryRefines(r, p) <==> !SpentLive(s, p) && tx !in s.reverted && tx !in s.finalized)
    {
      assert SpentLive(r, p) <==> SpentLive(s, p);
      if p !in s.wallet.ledger {
        NewEntryMatches(s.wallet, tx, false, p);
      }
    }
    assert forall p :: p in r.wallet.ledger ==> EntryMatches(r, p) by {
      assert forall p :: p in r.wallet.ledger ==> EntryMatches(s.(wallet := r.wallet), p);
    }
  }

  lemma ConfirmKeepsRefinement(s: RunState, tx: Tx)
    requires WellFormed(s.wallet.index) && Refines(s)
    ensures Refines(Step(s, Confirm(tx)))
  {
    var r := Step(s, Confirm(tx));
    FinalizeOutputsAt(s.wallet, tx, 0);
    forall p | p in r.wallet.ledger ensures EntryRefines(r, p) && EntryMatches(r, p) {
      assert EntryRefines(s, p) && EntryMatches(s, p);
      assert SpentLive(r, p) <==> SpentLive(s, p);
    }
  }

  /** What a reversal does to one stored entry. */
  lemma RevertAt(w: WalletState, tx: Tx, p: OutPoint)
    requires p in w.ledger && PaysOwned(w.index, p.tx, p.index)
    ensures Revert(w, tx, true).Keys == w.ledger.Keys
    ensures Revert(w, tx, true)[p] ==
            if p.tx == tx then w.ledger[p].(deleted := true)
            else if Spends(tx, p) then w.ledger[p].(deleted := false)
            else w.ledger[p]
  {
    UnspendInputsAt(w.ledger, tx, 0, true);
    DropOutputsAt(w.(ledger := UnspendInputs(w.ledger, tx, 0, true)), tx, 0);
  }

  lemma ReverseEntry(s: RunState, tx: Tx, p: OutPoint)
    requires WellFormed(s.wallet.index) && Refines(s) && tx in s.handled && p in s.wallet.ledger
    ensures var r := Step(s, Reverse(tx));
            && p in r.wallet.ledger && EntryMatches(r, p)
            && (EntryRefines(r, p) <==>
                  (Spends(tx, p) ==> p.tx !in s.reverted && !SpentByOther(s, p, tx)))
  {
    var r := Step(s, Reverse(tx));
    assert EntryRefines(s, p) && EntryMatches(s, p);
    RevertAt(s.wallet, tx, p);
    SpentLiveAfterReverse(s, r, tx, p);
    if p.tx == tx {
      OwnOutputsUnspent(tx, p.index);
    }
  }

  lemma ReverseKeepsRefinement(s: RunState, tx: Tx)
    requires WellFormed(s.wallet.index) && Refines(s) && tx in s.handled
    ensures Refines(Step(s, Reverse(tx))) <==> Allowed(s, Reverse(tx))
  {
    var r := Step(s, Reverse(tx));
    UnspendInputsAt(s.wallet.ledger, tx, 0, true);
    DropOutputsAt(s.wallet.(ledger := UnspendInputs(s.wallet.ledger, tx, 0, true)), tx, 0);
    assert r.wallet.ledger.Keys == s.wallet.ledger.Keys;
    forall p | p in s.wallet.ledger
      ensures EntryMatches(r, p)
      ensures EntryRefines(r, p) <==>
              (Spends(tx, p) ==> p.tx !in s.reverted && !SpentByOther(s, p, tx))
    {
      ReverseEntry(s, tx, p);
    }
  }

  lemma GrowKeepsRefinement(s: RunState, ix: IndexState)
    requires WellFormed(s.wallet.index) && Refines(s)
    ensures Refines(Step(s, Grow(ix)))
  {
    if ValidGrowth(s, ix) {
      var r := Step(s, Grow(ix));
      forall p | p in r.wallet.ledger ensures EntryRefines(r, p) && EntryMatches(r, p) {
        assert EntryRefines(s, p) && EntryMatches(s, p);
        MatchExtends(s.wallet.index, ix, p.tx, p.index);
        assert SpentLive(r, p) <==> SpentLive(s, p);
      }
    }
  }

  /** One event keeps the refinement if and only if it is allowed. */
  lemma StepKeepsRefinementIff(s: RunState, e: Event)
    requires WellFormed(s.wallet.index) && Refines(s)
    ensures Refines(Step(s, e)) <==> Allowed(s, e)
  {
    match e
    case Feed(tx, kept) => if tx !in s.handled { FeedKeepsRefinement(s, tx, kept); }
    case Broadcast(tx) => BroadcastKeepsRefinement(s, tx);
    case Confirm(tx) => ConfirmKeepsRefinement(s, tx);
    case Reverse(tx) => if tx in s.handled { ReverseKeepsRefinement(s, tx); }
    case Grow(ix) => GrowKeepsRefinement(s, ix);
  }

  ghost predicate RefinesThroughout(ix: IndexState, events: seq<Event>)
    requires WellFormed(ix)
  {
    forall n :: 0 <= n <= |events| ==> Refines(Run(Start(ix), events[..n]))
  }

  ghost predicate AllowedThroughout(ix: IndexState, events: seq<Event>)
    requires WellFormed(ix)
  {
    forall n :: 0 <= n < |events| ==> Allowed(Run(Start(ix), events[..n]), events[n])
  }

  lemma PrefixOfPrefix(events: seq<Event>, m: nat)
    requires m <= |events|
    ensures forall n :: 0 <= n <= m ==> events[..m][..n] == events[..n]
  {
  }

  lemma RunOneMore(ix: IndexState, events: seq<Event>)
    requires WellFormed(ix) && events != []
    ensures var m := |events| - 1;
            && Run(Start(ix), events) == Step(Run(Start(ix), events[..m]), events[m])
            && (RefinesThroughout(ix, events) <==>
                  RefinesThroughout(ix, events[..m]) && Refines(Run(Start(ix), events)))
            && (AllowedThroughout(ix, events) <==>
                  AllowedThroughout(ix, events[..m]) && Allowed(Run(Start(ix), events[..m]), events[m]))
  {
    hide Step, Run, Refines, Allowed;
    var m := |events| - 1;
    PrefixOfPrefix(events, m);
    assert events[..|events|] == events;
    assert Run(Start(ix), events) == Step(Run(Start(ix), events[..m]), events[m]) by { RunUnfold(ix, events); }
    assert forall n :: 0 <= n <= |events| ==> n <= m || events[..n] == events;
  }

  lemma RunUnfold(ix: IndexState, events: seq<Event>)
    requires WellFormed(ix) && events != []
    ensures Run(Start(ix), events) ==
            Step(Run(Start(ix), events[..|events| - 1]), events[|events| - 1])
  {
  }

  /**
   The ledger refines the history after every prefix of a run if and only if every event was allowed
   when it happened.
   */
  lemma {:induction false} RunRefinesIff(ix: IndexState, events: seq<Event>)
    requires WellFormed(ix)
    ensures RefinesThroughout(ix, events) <==> AllowedThroughout(ix, events)
  {
    if events == [] {
      assert events[..0] == [];
      assert Refines(Run(Start(ix), []));
    } else {
      hide Step, Run, Refines, Allowed, AllowedThroughout;
      var m := |events| - 1;
      RunOneMore(ix, events);
      RunRefinesIff(ix, events[..m]);
      if RefinesThroughout(ix, events[..m]) {
        assert events[..m][..m] == events[..m];
        StepKeepsRefinementIff(Run(Start(ix), events[..m]), events[m]);
      }
    }
  }

  // ----- no double selection -----

  /** What the funding code guarantees of a transaction it broadcasts. */
  ghost predicate Selected(s: RunState, tx: Tx) {
    && (forall i, j :: 0 <= i < j < |tx.inputs| ==> tx.inputs[i].point != tx.inputs[j].point)
    && (forall i :: 0 <= i < |tx.inputs| ==>
          var p := tx.inputs[i].point;
          p in s.wallet.ledger && !s.wallet.ledger[p].reserved)
  }

  ghost predicate Reserved(s: RunState, p: OutPoint) {
    p in s.wallet.ledger && s.wallet.ledger[p].reserved
  }

  /** No event ever frees a reserved entry. */
  lemma ReservedStays(s: RunState, e: Event, p: OutPoint)
    requires WellFormed(s.wallet.index) && Reserved(s, p)
    ensures Reserved(Step(s, e), p)
  {
    match e
    case Feed(tx, _) => ProcessAt(s.wallet, tx, true);
    case Broadcast(tx) => ProcessAt(s.wallet, tx, false);
    case Confirm(tx) => FinalizeOutputsAt(s.wallet, tx, 0);
    case Reverse(tx) =>
      UnspendInputsAt(s.wallet.ledger, tx, 0, true);
      DropOutputsAt(s.wallet.(ledger := UnspendInputs(s.wallet.ledger, tx, 0, true)), tx, 0);
    case Grow(_) =>
  }

  /** Every input of every broadcast is reserved, and no two broadcasts share one. */
  ghost predicate NoDoubleSelection(s: RunState) {
    && (forall b, p :: 0 <= b < |s.broadcasts| && Spends(s.broadcasts[b], p) ==> Reserved(s, p))
    && (forall a, b, p :: 0 <= a < b < |s.broadcasts| && Spends(s.broadcasts[a], p) ==>
          !Spends(s.broadcasts[b], p))
  }

  lemma SelectedSpends(s: RunState, tx: Tx, p: OutPoint)
    requires Selected(s, tx) && Spends(tx, p)
    ensures p in s.wallet.ledger && !s.wallet.ledger[p].reserved
  {
    SpendsFromAt(tx, 0, p);
  }

  lemma StepKeepsSelection(s: RunState, e: Event)
    requires WellFormed(s.wallet.index) && NoDoubleSelection(s)
    requires e.Broadcast? ==> Selected(s, e.tx)
    ensures NoDoubleSelection(Step(s, e))
  {
    var r := Step(s, e);
    forall b, p | 0 <= b < |r.broadcasts| && Spends(r.broadcasts[b], p) ensures Reserved(r, p) {
      if b < |s.broadcasts| {
        assert r.broadcasts[b] == s.broadcasts[b];
        ReservedStays(s, e, p);
      } else {
        SelectedSpends(s, e.tx, p);
        ProcessAt(s.wallet, e.tx, false);
      }
    }
    forall a, b, p | 0 <= a < b < |r.broadcasts| && Spends(r.broadcasts[a], p)
      ensures !Spends(r.broadcasts[b], p)
    {
      assert r.broadcasts[a] == s.broadcasts[a] && Reserved(s, p);
      if b < |s.broadcasts| {
        assert r.broadcasts[b] == s.broadcasts[b];
      } else if Spends(r.broadcasts[b], p) {
        SelectedSpends(s, e.tx, p);
      }
    }
  }

  /** Over any run whose broadcasts were selected from the ledger, no outpoint is spent twice. */
  lemma {:induction false} RunNeverSelectsTwice(ix: IndexState, events: seq<Event>)
    requires WellFormed(ix)
    requires forall n :: 0 <= n < |events| && events[n].Broadcast? ==>
               Selected(Run(Start(ix), events[..n]), events[n].tx)
    ensures NoDoubleSelection(Run(Start(ix), events))
  {
    if events != [] {
      var last := |events| - 1;
      var before := events[..last];
      assert forall n :: 0 <= n < last ==> before[n] == events[n] && before[..n] == events[..n];
      RunNeverSelectsTwice(ix, before);
      StepKeepsSelection(Run(Start(ix), before), events[last]);
    }
  }

  // ----- exact gaps over a run -----

  lemma {:induction false} IndexAtExactGap(ix: IndexState, tx: Tx, k: nat)
    requires WellFormed(ix) && ExactGap(ix) && k <= |tx.outputs|
    ensures ExactGap(IndexAt(ix, tx, k))
  {
    hide ExactGap, Mark, Lookup;
    if k > 0 {
      IndexAtExactGap(ix, tx, k - 1);
      var before := IndexAt(ix, tx, k - 1);
      match Lookup(before, AddressOf(tx.outputs[k - 1].script)) {
        case Present(ref) =>
          FoundIsValid(before, AddressOf(tx.outputs[k - 1].script));
          MarkKeepsExactGap(before, ref);
        case _ =>
      }
    }
  }

  lemma FoundIsValid(ix: IndexState, ra: RawAddress)
    requires Lookup(ix, ra).Present?
    ensures ValidRef(ix, Lookup(ix, ra).ref)
  {
  }

  lemma StepExactGap(s: RunState, e: Event)
    requires WellFormed(s.wallet.index) && ExactGap(s.wallet.index) && (e.Grow? ==> ExactGap(e.index))
    ensures ExactGap(Step(s, e).wallet.index)
  {
    hide ExactGap, IndexAt;
    match e
    case Feed(tx, _) => ProcessAt(s.wallet, tx, true); IndexAtExactGap(s.wallet.index, tx, |tx.outputs|);
    case Broadcast(tx) => ProcessAt(s.wallet, tx, false); IndexAtExactGap(s.wallet.index, tx, |tx.outputs|);
    case _ =>
  }

  /**
   After every event of every run each list is exactly one gap longer than its last used address, if it
   was so at the start, as it is on a prepared new wallet, and other growth of the index keeps it so.
   */
  lemma {:induction false} RunExactGap(s: RunState, events: seq<Event>)
    requires WellFormed(s.wallet.index) && ExactGap(s.wallet.index)
    requires forall n :: 0 <= n < |events| && events[n].Grow? ==> ExactGap(events[n].index)
    ensures ExactGap(Run(s, events).wallet.index)
  {
    hide Step, ExactGap;
    if events != [] {
      RunExactGap(s, events[..|events| - 1]);
      StepExactGap(Run(s, events[..|events| - 1]), events[|events| - 1]);
    }
  }

  // ----- runs in a sensible order -----

  /** Does one transaction spend an output of the other? */
  ghost predicate SpendsOutputOf(child: Tx, parent: Tx) {
    exists p: OutPoint :: p.tx == parent && Spends(child, p)
  }

  ghost predicate Conflict(a: Tx, b: Tx) {
    a != b && exists p: OutPoint :: Spends(a, p) && Spends(b, p)
  }

  /**
   Judged on the events alone: an event fits those before it when no child was fed before its parent is
   recorded, nothing is broadcast after its confirmation or reversal, and a reversal comes before those
   of its parents and after no conflicting transaction.
   */
  ghost predicate Fits(before: seq<Event>, e: Event) {
    match e
    case Feed(tx, _) =>
      (exists m :: 0 <= m < |before| && before[m] == Feed(tx, true))
      || forall m :: 0 <= m < |before| && before[m].Feed? ==> !SpendsOutputOf(before[m].tx, tx)
    case Broadcast(tx) =>
      forall m :: 0 <= m < |before| ==>
        && (before[m].Feed? ==> !SpendsOutputOf(before[m].tx, tx))
        && before[m] != Confirm(tx) && before[m] != Reverse(tx)
    case Confirm(_) => true
    case Reverse(tx) =>
      forall m :: 0 <= m < |before| ==>
        && (before[m].Feed? ==> !Conflict(before[m].tx, tx))
        && (before[m].Reverse? ==> !SpendsOutputOf(tx, before[m].tx))
    case Grow(_) => true
  }

  /** What the sets of a run state say about the events that led to it. */
  ghost predicate Explained(s: RunState, events: seq<Event>) {
    && (forall t :: t in Seen(s) ==> exists m :: 0 <= m < |events| && events[m].Feed? && events[m].tx == t)
    && (forall t :: t in s.reverted ==> exists m :: 0 <= m < |events| && events[m] == Reverse(t))
    && (forall t :: t in s.finalized ==> exists m :: 0 <= m < |events| && events[m] == Confirm(t))
    && (forall m :: 0 <= m < |events| && events[m].Feed? && events[m].kept ==> events[m].tx in s.handled)
  }

  lemma StepExplained(s: RunState, events: seq<Event>, e: Event)
    requires WellFormed(s.wallet.index) && Explained(s, events)
    ensures Explained(Step(s, e), events + [e])
  {
    hide Process, FinalizeOutputs, Revert, WellFormed, OwnedOutputs;
    var r, more := Step(s, e), events + [e];
    assert forall m :: 0 <= m < |events| ==> more[m] == events[m];
    assert more[|events|] == e;
    forall t | t in Seen(r) ensures exists m :: 0 <= m < |more| && more[m].Feed? && more[m].tx == t {
      if t in Seen(s) {
        var m :| 0 <= m < |events| && events[m].Feed? && events[m].tx == t;
        assert more[m].Feed? && more[m].tx == t;
      }
    }
    forall t | t in r.reverted ensures exists m :: 0 <= m < |more| && more[m] == Reverse(t) {
      if t in s.reverted {
        var m :| 0 <= m < |events| && events[m] == Reverse(t);
        assert more[m] == Reverse(t);
      }
    }
    forall t | t in r.finalized ensures exists m :: 0 <= m < |more| && more[m] == Confirm(t) {
      if t in s.finalized {
        var m :| 0 <= m < |events| && events[m] == Confirm(t);
        assert more[m] == Confirm(t);
      }
    }
  }

  lemma {:induction false} RunExplained(ix: IndexState, events: seq<Event>)
    requires WellFormed(ix)
    ensures Explained(Run(Start(ix), events), events)
  {
    hide Step, Explained, WellFormed;
    if events == [] {
      NothingExplained(ix);
    } else {
      var m := |events| - 1;
      RunExplained(ix, events[..m]);
      RunUnfold(ix, events);
      StepExplained(Run(Start(ix), events[..m]), events[..m], events[m]);
      assert events == events[..m] + [events[m]];
    }
  }

  lemma NothingExplained(ix: IndexState)
    requires WellFormed(ix)
    ensures Explained(Run(Start(ix), []), [])
  {
  }

  /** An event that fits those before it is allowed. */
  lemma FitsIsAllowed(s: RunState, before: seq<Event>, e: Event)
    requires WellFormed(s.wallet.index) && Explained(s, before) && Fits(before, e)
    ensures Allowed(s, e)
  {
    hide OwnedAtTurn, WellFormed;
    match e
    case Feed(tx, _) =>
      if tx !in s.handled {
        forall p | p in OwnedOutputs(s.wallet.index, tx) && p !in s.wallet.ledger ensures !SpentLive(s, p) {
          NoEarlyChild(s, before, tx, p);
        }
      }
    case Broadcast(tx) =>
      forall p | p in OwnedOutputs(s.wallet.index, tx) && p !in s.wallet.ledger ensures !SpentLive(s, p) {
        NoEarlyChild(s, before, tx, p);
      }
    case Reverse(tx) =>
      forall p | p in s.wallet.ledger && Spends(tx, p) ensures p.tx !in s.reverted && !SpentByOther(s, p, tx) {
        assert SpendsOutputOf(tx, p.tx);
        forall t | t in s.reverted ensures t != p.tx {
          var m :| 0 <= m < |before| && before[m] == Reverse(t);
          assert !SpendsOutputOf(tx, t);
        }
        forall t | t in Seen(s) && t != tx ensures !Spends(t, p) {
          var m :| 0 <= m < |before| && before[m].Feed? && before[m].tx == t;
          assert !Conflict(t, tx);
        }
      }
    case _ =>
  }

  lemma NoEarlyChild(s: RunState, before: seq<Event>, tx: Tx, p: OutPoint)
    requires Explained(s, before) && p.tx == tx
    requires forall m :: 0 <= m < |before| && before[m].Feed? ==> !SpendsOutputOf(before[m].tx, tx)
    ensures !SpentLive(s, p)
  {
    forall t | t in Seen(s) ensures !Spends(t, p) {
      var m :| 0 <= m < |before| && before[m].Feed? && before[m].tx == t;
      assert !SpendsOutputOf(t, tx);
    }
  }

  /**
   When every event fits those before it, the ledger refines the history after every prefix of the run:
   parents before children, no conflicts at a reversal, children reverted before parents.
   */
  lemma OrderlyRunRefines(ix: IndexState, events: seq<Event>)
    requires WellFormed(ix) && forall n :: 0 <= n < |events| ==> Fits(events[..n], events[n])
    ensures RefinesThroughout(ix, events)
  {
    hide Run, Fits, Allowed, RefinesThroughout;
    forall n | 0 <= n < |events| ensures Allowed(Run(Start(ix), events[..n]), events[n]) {
      RunExplained(ix, events[..n]);
      FitsIsAllowed(Run(Start(ix), events[..n]), events[..n], events[n]);
    }
    RunRefinesIff(ix, events);
  }
}
