/**
 A transaction the wallet broadcasts is processed twice: once by the network feed, which deletes what
 it spends, and once by the funding code, which reserves it. These lemmas say what one pass leaves
 behind, that the order of the two passes does not matter, and exactly when a repeated pass is idle.
 */
module FeedOrder {
  import opened Results
  import opened Bitcoin
  import opened AddressSpec
  import opened LedgerSpec

  function SpentBy(tx: Tx, p: OutPoint, u: Utxo, isFinal: bool): Utxo {
    if !Spends(tx, p) then u else if isFinal then u.(deleted := true) else u.(reserved := true)
  }

  /** Everything one pass does to the wallet, entry by entry. */
  lemma ProcessAt(w: WalletState, tx: Tx, isFinal: bool)
    requires WellFormed(w.index)
    ensures var r := Process(w, tx, isFinal);
            && r.index == IndexAt(w.index, tx, |tx.outputs|)
            && (forall p :: p in w.ledger ==>
                  p in r.ledger && r.ledger[p] == SpentBy(tx, p, w.ledger[p], isFinal))
            && (forall p :: p in r.ledger && p !in w.ledger ==>
                  && p.tx == tx && OwnedAtTurn(w.index, tx, p.index)
                  && r.ledger[p] == EntryAtTurn(w.index, tx, p.index))
            && (forall i :: 0 <= i < |tx.outputs| && OwnedAtTurn(w.index, tx, i) ==>
                  OutPoint(tx, i) in r.ledger)
  {
    var spent := w.(ledger := SpendInputs(w.ledger, tx, 0, isFinal));
    SpendInputsAt(w.ledger, tx, 0, isFinal);
    RecordOutputsAt(spent, w.index, tx, 0);
  }

  lemma OwnOutputsUnspent(tx: Tx, i: nat)
    ensures !Spends(tx, OutPoint(tx, i))
  {
    forall k | 0 <= k < |tx.inputs| ensures tx.inputs[k].point.tx != tx {
      NoSelfSpend(tx, k);
    }
    SpendsFromAt(tx, 0, OutPoint(tx, i));
  }

  /** It does not matter whether the feed or the funding code records a transaction first. */
  lemma ProcessCommutes(w: WalletState, tx: Tx)
    requires WellFormed(w.index)
    ensures Process(Process(w, tx, true), tx, false) == Process(Process(w, tx, false), tx, true)
  {
    var a, b := Process(w, tx, true), Process(w, tx, false);
    ProcessAt(w, tx, true);
    ProcessAt(w, tx, false);
    ProcessAt(a, tx, false);
    ProcessAt(b, tx, true);
    var ab, ba := Process(a, tx, false), Process(b, tx, true);
    forall p | p in ab.ledger || p in ba.ledger
      ensures p in ab.ledger && p in ba.ledger && ab.ledger[p] == ba.ledger[p]
    {
      if p.tx == tx {
        OwnOutputsUnspent(tx, p.index);
      }
    }
    assert ab.ledger == ba.ledger;
  }

  // ----- when a repeated pass changes nothing -----

  /** Output `i` was not owned at its turn, but the marks of this transaction made it owned. */
  predicate OwnedLate(ix: IndexState, tx: Tx, i: nat)
    requires WellFormed(ix) && i < |tx.outputs|
  {
    var ra := AddressOf(tx.outputs[i].script);
    !Lookup(IndexAt(ix, tx, i), ra).Present? && Lookup(IndexAt(ix, tx, |tx.outputs|), ra).Present?
  }

  /** No output is owned late, except one that leaves neither an entry nor a mark to make. */
  predicate NoLateOutput(w: WalletState, tx: Tx)
    requires WellFormed(w.index)
  {
    var end := IndexAt(w.index, tx, |tx.outputs|);
    forall i :: 0 <= i < |tx.outputs| && OwnedLate(w.index, tx, i) ==>
      && SlotOf(end, Lookup(end, AddressOf(tx.outputs[i].script)).ref).used
      && (tx.outputs[i].value == 0 || OutPoint(tx, i) in w.ledger)
  }

  lemma MarkKeepsUsed(ix: IndexState, ref: AddressRef, other: AddressRef)
    requires WellFormed(ix) && ValidRef(ix, ref) && ValidRef(ix, other) && SlotOf(ix, other).used
    ensures ValidRef(Mark(ix, ref), other) && SlotOf(Mark(ix, ref), other).used
  {
  }

  lemma MarkOutputKeepsUsed(ix: IndexState, output: TxOut, ref: AddressRef)
    requires WellFormed(ix) && ValidRef(ix, ref) && SlotOf(ix, ref).used
    ensures ValidRef(MarkOutput(ix, output), ref) && SlotOf(MarkOutput(ix, output), ref).used
  {
    var found := Lookup(ix, AddressOf(output.script));
    if found.Present? {
      MarkKeepsUsed(ix, found.ref, ref);
    }
  }

  /** An address found, by an entry already marked. */
  predicate FoundUsed(ix: IndexState, ra: RawAddress) {
    var found := Lookup(ix, ra);
    found.Present? && SlotOf(ix, found.ref).used
  }

  lemma FoundUsedStays(ix: IndexState, output: TxOut, ra: RawAddress)
    requires WellFormed(ix) && FoundUsed(ix, ra)
    ensures FoundUsed(MarkOutput(ix, output), ra)
  {
    MarkOutputExtends(ix, output);
    LookupExtends(ix, MarkOutput(ix, output), ra);
    MarkOutputKeepsUsed(ix, output, Lookup(ix, ra).ref);
  }

  lemma FoundIsMarked(ix: IndexState, output: TxOut)
    requires WellFormed(ix) && Lookup(ix, AddressOf(output.script)).Present?
    ensures FoundUsed(MarkOutput(ix, output), AddressOf(output.script))
  {
    var ref := Lookup(ix, AddressOf(output.script)).ref;
    MarkExtends(ix, ref);
    LookupExtends(ix, Mark(ix, ref), AddressOf(output.script));
  }

  lemma {:induction false} FoundUsedUntil(ix: IndexState, tx: Tx, i: nat, k: nat, ra: RawAddress)
    requires WellFormed(ix) && i <= k <= |tx.outputs| && FoundUsed(IndexAt(ix, tx, i), ra)
    ensures FoundUsed(IndexAt(ix, tx, k), ra)
    decreases k - i
  {
    hide MarkOutput, FoundUsed;
    if i < k {
      FoundUsedUntil(ix, tx, i, k - 1, ra);
      FoundUsedStays(IndexAt(ix, tx, k - 1), tx.outputs[k - 1], ra);
    }
  }

  /** An output found at its turn is found, used, when the loop is done. */
  lemma FoundIsUsed(ix: IndexState, tx: Tx, i: nat)
    requires WellFormed(ix) && i < |tx.outputs|
    requires Lookup(IndexAt(ix, tx, i), AddressOf(tx.outputs[i].script)).Present?
    ensures FoundUsed(IndexAt(ix, tx, |tx.outputs|), AddressOf(tx.outputs[i].script))
  {
    FoundIsMarked(IndexAt(ix, tx, i), tx.outputs[i]);
    FoundUsedUntil(ix, tx, i + 1, |tx.outputs|, AddressOf(tx.outputs[i].script));
  }

  /** Every output found in `ix` is already marked. */
  predicate AllMarked(ix: IndexState, tx: Tx) {
    forall i :: 0 <= i < |tx.outputs| ==>
      var found := Lookup(ix, AddressOf(tx.outputs[i].script));
      found.Present? ==> SlotOf(ix, found.ref).used
  }

  lemma {:induction false} AllMarkedIdle(ix: IndexState, tx: Tx, k: nat)
    requires WellFormed(ix) && AllMarked(ix, tx) && k <= |tx.outputs|
    ensures IndexAt(ix, tx, k) == ix
  {
    if k > 0 {
      AllMarkedIdle(ix, tx, k - 1);
    }
  }

  /** A pass that leaves the index alone found every output marked. */
  lemma IdleMeansMarked(ix: IndexState, tx: Tx)
    requires WellFormed(ix) && IndexAt(ix, tx, |tx.outputs|) == ix
    ensures AllMarked(ix, tx)
  {
    forall i | 0 <= i < |tx.outputs| && Lookup(ix, AddressOf(tx.outputs[i].script)).Present?
      ensures SlotOf(ix, Lookup(ix, AddressOf(tx.outputs[i].script)).ref).used
    {
      IndexAtExtends(ix, tx, 0, i);
      LookupExtends(ix, IndexAt(ix, tx, i), AddressOf(tx.outputs[i].script));
      FoundIsUsed(ix, tx, i);
    }
  }

  lemma NoLateOutputMarked(w: WalletState, tx: Tx)
    requires WellFormed(w.index)
    requires NoLateOutput(w, tx)
    ensures AllMarked(IndexAt(w.index, tx, |tx.outputs|), tx)
  {
    forall i | 0 <= i < |tx.outputs| && !OwnedLate(w.index, tx, i)
               && Lookup(IndexAt(w.index, tx, |tx.outputs|), AddressOf(tx.outputs[i].script)).Present?
      ensures var end := IndexAt(w.index, tx, |tx.outputs|);
              SlotOf(end, Lookup(end, AddressOf(tx.outputs[i].script)).ref).used
    {
      FoundIsUsed(w.index, tx, i);
    }
  }

  /** Once everything found is marked, all that a turn finds is found at the end of the pass. */
  lemma MarkedTurn(ix: IndexState, tx: Tx, i: nat)
    requires WellFormed(ix) && i < |tx.outputs|
    requires AllMarked(IndexAt(ix, tx, |tx.outputs|), tx)
    requires OwnedAtTurn(IndexAt(ix, tx, |tx.outputs|), tx, i)
    ensures OwnedAtTurn(ix, tx, i) || OwnedLate(ix, tx, i)
  {
    AllMarkedIdle(IndexAt(ix, tx, |tx.outputs|), tx, i);
  }

  lemma NoLateOutputIdle(w: WalletState, tx: Tx, isFinal: bool)
    requires WellFormed(w.index) && NoLateOutput(w, tx)
    ensures Process(Process(w, tx, isFinal), tx, isFinal) == Process(w, tx, isFinal)
  {
    var once := Process(w, tx, isFinal);
    var twice := Process(once, tx, isFinal);
    ProcessAt(w, tx, isFinal);
    ProcessAt(once, tx, isFinal);
    NoLateOutputMarked(w, tx);
    AllMarkedIdle(once.index, tx, |tx.outputs|);
    forall p | p in twice.ledger ensures p in once.ledger && once.ledger[p] == twice.ledger[p] {
      if p !in once.ledger {
        MarkedTurn(w.index, tx, p.index);
        assert false;
      }
      if p !in w.ledger {
        OwnOutputsUnspent(tx, p.index);
      }
    }
    assert twice.ledger == once.ledger;
  }

  lemma IdleMeansNoLateOutput(w: WalletState, tx: Tx, isFinal: bool)
    requires WellFormed(w.index)
    requires Process(Process(w, tx, isFinal), tx, isFinal) == Process(w, tx, isFinal)
    ensures NoLateOutput(w, tx)
  {
    var once := Process(w, tx, isFinal);
    ProcessAt(w, tx, isFinal);
    ProcessAt(once, tx, isFinal);
    IdleMeansMarked(once.index, tx);
    forall i | 0 <= i < |tx.outputs| && OwnedLate(w.index, tx, i) && tx.outputs[i].value > 0
      ensures OutPoint(tx, i) in w.ledger
    {
      AllMarkedIdle(once.index, tx, i);
      assert OwnedAtTurn(once.index, tx, i);
      assert !OwnedAtTurn(w.index, tx, i);
    }
  }

  /** Repeating a pass changes nothing if and only if no output becomes owned late. */
  lemma ProcessIdempotentIff(w: WalletState, tx: Tx, isFinal: bool)
    requires WellFormed(w.index)
    ensures NoLateOutput(w, tx) <==>
            Process(Process(w, tx, isFinal), tx, isFinal) == Process(w, tx, isFinal)
  {
    if NoLateOutput(w, tx) {
      NoLateOutputIdle(w, tx, isFinal);
    }
    if Process(Process(w, tx, isFinal), tx, isFinal) == Process(w, tx, isFinal) {
      IdleMeansNoLateOutput(w, tx, isFinal);
    }
  }

  /** A payment to address 1 listed before a payment to address 0, with a gap of one. */
  function LateTx(wallet: nat): Tx {
    Tx([], [TxOut(5, Pay(PayToKeyHash(Hash160(ChildKey(wallet, 0, 1))))),
            TxOut(5, Pay(PayToKeyHash(Hash160(ChildKey(wallet, 0, 0)))))])
  }

  /** On a new wallet, the payment to address 1 is owned only after the other one is marked. */
  lemma LateTxIsLate(wallet: nat)
    ensures WellFormed(Prepared(wallet, 1))
    ensures OwnedLate(Prepared(wallet, 1), LateTx(wallet), 0)
  {
    var ix := Prepared(wallet, 1);
    var tx := LateTx(wallet);
    PreparedExactGap(wallet, 1);
    UsedBoundUnique(ix.lists[0], 0);
    MarkListedLength(ix, 0, 0);
    var late, first := AddressOf(tx.outputs[0].script), AddressOf(tx.outputs[1].script);
    assert Lookup(ix, late) == Absent;
    assert Lookup(ix, first) == Present(Listed(0, 0));
    assert IndexAt(ix, tx, 0) == ix;
    assert IndexAt(ix, tx, 1) == ix;
    assert IndexAt(ix, tx, 2) == Mark(ix, Listed(0, 0));
    var end := Mark(ix, Listed(0, 0));
    assert end.wallet == wallet && ValidRef(end, Listed(0, 1));
    assert Lookup(end, late).Present?;
  }

  /** So that transaction is recorded differently when it is processed again. */
  lemma ProcessNotIdempotent(wallet: nat, isFinal: bool)
    ensures WellFormed(Prepared(wallet, 1))
    ensures var w := WalletState(map[], Prepared(wallet, 1));
            var tx := LateTx(wallet);
            Process(Process(w, tx, isFinal), tx, isFinal) != Process(w, tx, isFinal)
  {
    var w := WalletState(map[], Prepared(wallet, 1));
    LateTxIsLate(wallet);
    ProcessIdempotentIff(w, LateTx(wallet), isFinal);
  }
}
