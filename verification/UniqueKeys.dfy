/**
 A key that was never marked has no entry of its own in the ledger, so a relationship key is marked
 used before the relationship it initiates is stored, and no two relationships share one, even when a
 reload forgets which keys were given out.
 */
module UniqueKeys {
  import opened Results
  import opened Bitcoin
  import opened AddressSpec
  import opened LedgerSpec
  import opened FeedOrder
  import opened LedgerRun
  import opened Signing

  predicate MarkedAt(ix: IndexState, t: nat, i: nat) {
    t < |ix.lists| && i < |ix.lists[t]| && ix.lists[t][i].used
  }

  /** The list address of every entry of a list key is marked. */
  ghost predicate EntriesMarked(w: WalletState) {
    forall p :: p in w.ledger && w.ledger[p].keyHash.None? ==>
      MarkedAt(w.index, w.ledger[p].keyType, w.ledger[p].keyIndex)
  }

  lemma MarkedExtends(ix: IndexState, later: IndexState, t: nat, i: nat)
    requires Extends(ix, later) && MarkedAt(ix, t, i)
    ensures MarkedAt(later, t, i)
  {
  }

  /** An output recorded for a list key leaves that key marked. */
  lemma TurnMarked(ix: IndexState, tx: Tx, i: nat)
    requires WellFormed(ix) && OwnedAtTurn(ix, tx, i)
    ensures var u := EntryAtTurn(ix, tx, i);
            u.keyHash.None? ==> MarkedAt(IndexAt(ix, tx, |tx.outputs|), u.keyType, u.keyIndex)
  {
    hide IndexAt, Lookup, Extends, WellFormed, FoundUsed, NewUtxo, MarkedAt;
    var at, end := IndexAt(ix, tx, i), IndexAt(ix, tx, |tx.outputs|);
    var ra := AddressOf(tx.outputs[i].script);
    FoundIsUsed(ix, tx, i);
    IndexAtExtends(ix, tx, i, |tx.outputs|);
    LookupExtends(at, end, ra);
    NewEntryMarked(at, end, tx.outputs[i]);
  }

  lemma NewEntryMarked(at: IndexState, end: IndexState, output: TxOut)
    requires Lookup(at, AddressOf(output.script)).Present?
    requires Lookup(end, AddressOf(output.script)) == Lookup(at, AddressOf(output.script))
    requires FoundUsed(end, AddressOf(output.script))
    ensures var u := NewUtxo(at, Lookup(at, AddressOf(output.script)).ref, output);
            u.keyHash.None? ==> MarkedAt(end, u.keyType, u.keyIndex)
  {
  }

  lemma ProcessMarked(w: WalletState, tx: Tx, isFinal: bool)
    requires WellFormed(w.index) && EntriesMarked(w)
    ensures EntriesMarked(Process(w, tx, isFinal))
  {
    hide Process, IndexAt, OwnedAtTurn, EntryAtTurn, MarkedAt, Extends, WellFormed;
    var r := Process(w, tx, isFinal);
    ProcessAt(w, tx, isFinal);
    IndexAtExtends(w.index, tx, 0, |tx.outputs|);
    IndexStart(w.index, tx);
    forall p | p in r.ledger && r.ledger[p].keyHash.None?
      ensures MarkedAt(r.index, r.ledger[p].keyType, r.ledger[p].keyIndex)
    {
      if p in w.ledger {
        MarkedExtends(w.index, r.index, w.ledger[p].keyType, w.ledger[p].keyIndex);
      } else {
        TurnMarked(w.index, tx, p.index);
      }
    }
  }

  lemma IndexStart(ix: IndexState, tx: Tx)
    requires WellFormed(ix)
    ensures IndexAt(ix, tx, 0) == ix
  {
  }

  lemma StepMarked(s: RunState, e: Event)
    requires WellFormed(s.wallet.index) && EntriesMarked(s.wallet)
    ensures EntriesMarked(Step(s, e).wallet)
  {
    match e
    case Feed(tx, _) => ProcessMarked(s.wallet, tx, true);
    case Broadcast(tx) => ProcessMarked(s.wallet, tx, false);
    case Confirm(tx) => FinalizeOutputsAt(s.wallet, tx, 0);
    case Reverse(tx) =>
      UnspendInputsAt(s.wallet.ledger, tx, 0, true);
      DropOutputsAt(s.wallet.(ledger := UnspendInputs(s.wallet.ledger, tx, 0, true)), tx, 0);
    case Grow(ix) =>
  }

  /** In every reachable state an unmarked list key has no entry. */
  lemma {:induction false} RunMarked(s: RunState, events: seq<Event>)
    requires WellFormed(s.wallet.index) && EntriesMarked(s.wallet)
    ensures EntriesMarked(Run(s, events).wallet)
  {
    hide Step, EntriesMarked;
    if events != [] {
      RunMarked(s, events[..|events| - 1]);
      StepMarked(Run(s, events[..|events| - 1]), events[|events| - 1]);
    }
  }

  // ----- restarts -----

  /** The wallet after a save and a load: no address holds its key or remembers being given. */
  function Reloaded(ix: IndexState): (r: IndexState)
    ensures |r.lists| == |ix.lists|
    ensures forall t :: 0 <= t < |ix.lists| ==> |r.lists[t]| == |ix.lists[t]|
    ensures forall t, i :: 0 <= t < |ix.lists| && 0 <= i < |ix.lists[t]| ==>
              r.lists[t][i] == Slot(false, ix.lists[t][i].used, false)
  {
    ix.(lists := seq(|ix.lists|, t requires 0 <= t < |ix.lists| =>
                   seq(|ix.lists[t]|, i requires 0 <= i < |ix.lists[t]| => Slot(false, ix.lists[t][i].used, false))),
        derived := map k | k in ix.derived ::
                     ix.derived[k].(slot := Slot(false, ix.derived[k].slot.used, false)))
  }

  /** A restarted node, whatever transactions it still knows. */
  function Restarted(s: RunState, handled: set<Tx>, finalized: set<Tx>): RunState {
    s.(wallet := s.wallet.(index := Reloaded(s.wallet.index)), handled := handled, finalized := finalized)
  }

  function PickedKey(ix: IndexState): Option<nat> {
    if KEY_TYPE_RELATE_OUT < |ix.lists| then FirstFree(ix.lists[KEY_TYPE_RELATE_OUT]) else None
  }

  lemma ReloadedMarks(ix: IndexState, t: nat, i: nat)
    ensures MarkedAt(Reloaded(ix), t, i) <==> MarkedAt(ix, t, i)
  {
  }

  /** Used addresses stay used, so a restart moves no gap. */
  lemma ReloadedGap(ix: IndexState)
    ensures forall t :: 0 <= t < |ix.lists| ==> UsedBound(Reloaded(ix).lists[t]) == UsedBound(ix.lists[t])
    ensures ExactGap(ix) ==> ExactGap(Reloaded(ix))
  {
    forall t | 0 <= t < |ix.lists| ensures UsedBound(Reloaded(ix).lists[t]) == UsedBound(ix.lists[t]) {
      UsedBoundUnique(Reloaded(ix).lists[t], UsedBound(ix.lists[t]));
    }
  }

  lemma ReloadedCoherent(ix: IndexState)
    requires WellFormed(ix)
    ensures WellFormed(Reloaded(ix)) && Reloaded(ix).wallet == ix.wallet
    ensures KeysCoherent(ix) ==> KeysCoherent(Reloaded(ix))
  {
    var r := Reloaded(ix);
    if KeysCoherent(ix) {
      forall k | k in r.derived ensures RegisteredRight(r, k) {
        assert RegisteredRight(ix, k);
      }
    }
  }

  lemma ReloadedSigns(w: WalletState)
    requires LedgerSigns(w) && Reloaded(w.index).wallet == w.index.wallet
    ensures LedgerSigns(w.(index := Reloaded(w.index)))
  {
    hide Signs;
  }

  lemma ReloadedMarked(w: WalletState)
    requires EntriesMarked(w)
    ensures EntriesMarked(w.(index := Reloaded(w.index)))
  {
    hide MarkedAt;
    forall p | p in w.ledger && w.ledger[p].keyHash.None?
      ensures MarkedAt(Reloaded(w.index), w.ledger[p].keyType, w.ledger[p].keyIndex)
    {
      ReloadedMarks(w.index, w.ledger[p].keyType, w.ledger[p].keyIndex);
    }
  }

  /** A restart keeps what signing, the gaps and the uniqueness of keys depend on. */
  lemma ReloadedKeeps(w: WalletState)
    requires WellFormed(w.index)
    ensures WellFormed(Reloaded(w.index)) && Reloaded(w.index).wallet == w.index.wallet
    ensures KeysCoherent(w.index) ==> KeysCoherent(Reloaded(w.index))
    ensures LedgerSigns(w) ==> LedgerSigns(w.(index := Reloaded(w.index)))
    ensures EntriesMarked(w) ==> EntriesMarked(w.(index := Reloaded(w.index)))
    ensures ExactGap(w.index) ==> ExactGap(Reloaded(w.index))
  {
    hide *;
    ReloadedCoherent(w.index);
    ReloadedGap(w.index);
    if LedgerSigns(w) {
      ReloadedSigns(w);
    }
    if EntriesMarked(w) {
      ReloadedMarked(w);
    }
  }
}
