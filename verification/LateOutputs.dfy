/**
 When a repeated pass over a transaction is idle, judged from the positions its outputs pay and the
 lengths of the address lists before the call, on an index with exact gaps.
 */
module LateOutputs {
  import opened Results
  import opened Bitcoin
  import opened AddressSpec
  import opened LedgerSpec
  import opened FeedOrder
  import opened LedgerRun

  /** The position an output pays in list `t`, if it pays a key of that list in a form it answers to. */
  function PaidPosition(ix: IndexState, output: TxOut, t: nat): Option<nat> {
    match PaidKey(AddressOf(output.script))
    case Some(ChildKey(w, kt, i)) =>
      if w == ix.wallet && kt == t && Answered(ix, AddressOf(output.script), t, i) then Some(i) else None
    case _ => None
  }

  /** Entries still to come hold their public key and answer to both forms. */
  predicate Answered(ix: IndexState, ra: RawAddress, t: nat, i: nat) {
    ValidRef(ix, Listed(t, i)) && !SlotOf(ix, Listed(t, i)).keyed ==> StoredAddress(ix.wallet, Listed(t, i)) == ra
  }

  /** The length of list `t` when the loop reaches output `k`, from positions and the first length alone. */
  function GrownLength(ix: IndexState, tx: Tx, t: nat, k: nat): nat
    requires t < |ix.lists| && k <= |tx.outputs|
  {
    if k == 0 then |ix.lists[t]|
    else
      var length := GrownLength(ix, tx, t, k - 1);
      match PaidPosition(ix, tx.outputs[k - 1], t)
      case Some(i) => if i < length < i + 1 + ix.gap then i + 1 + ix.gap else length
      case None => length
  }

  /** Entry `i` of list `t` is paid by output `j` when it exists. */
  predicate PaidInTime(ix: IndexState, tx: Tx, t: nat, i: nat, j: nat)
    requires t < |ix.lists|
  {
    j < |tx.outputs| && PaidPosition(ix, tx.outputs[j], t) == Some(i) && i < GrownLength(ix, tx, t, j)
  }

  /** Output `i` pays position `n` of list `t` before that entry exists, and a later output makes it. */
  predicate LatePosition(ix: IndexState, tx: Tx, i: nat, t: nat, n: nat) {
    && t < |ix.lists| && i < |tx.outputs| && PaidPosition(ix, tx.outputs[i], t) == Some(n)
    && GrownLength(ix, tx, t, i) <= n < GrownLength(ix, tx, t, |tx.outputs|)
  }

  /** No output comes too early, unless a later one pays the same entry and it leaves no new entry. */
  ghost predicate NoLatePosition(w: WalletState, tx: Tx) {
    forall i: nat, t: nat, n: nat :: LatePosition(w.index, tx, i, t, n) ==>
      && (exists j: nat :: PaidInTime(w.index, tx, t, n, j))
      && (tx.outputs[i].value == 0 || OutPoint(tx, i) in w.ledger)
  }

  /** What the index is at output `k`: exact lengths, and new entries hold their keys. */
  ghost predicate Grown(ix: IndexState, at: IndexState, tx: Tx, k: nat)
    requires k <= |tx.outputs|
  {
    && WellFormed(ix) && WellFormed(at) && ExactGap(at) && Extends(ix, at) && at.derived.Keys == ix.derived.Keys
    && (forall t :: 0 <= t < KEY_TYPE_COUNT ==> |at.lists[t]| == GrownLength(ix, tx, t, k))
    && (forall t: nat, n: nat :: t < KEY_TYPE_COUNT && |ix.lists[t]| <= n < |at.lists[t]| ==>
          at.lists[t][n].keyed && (at.lists[t][n].used <==> PaidBefore(ix, tx, t, n, k)))
    && (forall key :: key in ix.derived ==> at.derived[key].slot.keyed == ix.derived[key].slot.keyed)
  }

  /** An address is found at output `k` exactly as position and lengths say. */
  lemma FoundByPosition(ix: IndexState, at: IndexState, tx: Tx, k: nat, output: TxOut, t: nat, n: nat)
    requires k <= |tx.outputs| && Grown(ix, at, tx, k) && t < KEY_TYPE_COUNT
    requires PaidKey(AddressOf(output.script)) == Some(ChildKey(ix.wallet, t, n))
    ensures Lookup(at, AddressOf(output.script)) ==
            if PaidPosition(ix, output, t) == Some(n) && n < GrownLength(ix, tx, t, k) then Present(Listed(t, n)) else Absent
  {
  }

  /** Any other address is found at output `k` exactly as before the call. */
  lemma FoundOtherwise(ix: IndexState, at: IndexState, tx: Tx, k: nat, output: TxOut)
    requires k <= |tx.outputs| && Grown(ix, at, tx, k)
    requires forall t: nat, n: nat :: t < KEY_TYPE_COUNT ==> PaidKey(AddressOf(output.script)) != Some(ChildKey(ix.wallet, t, n))
    ensures Lookup(at, AddressOf(output.script)).Present? <==> Lookup(ix, AddressOf(output.script)).Present?
    ensures Lookup(at, AddressOf(output.script)).Present? ==> Lookup(at, AddressOf(output.script)).ref.Registered?
    ensures forall t: nat :: t < KEY_TYPE_COUNT ==> PaidPosition(ix, output, t).None?
  {
    hide ExactGap, GrownLength, PaidInTime;
    var key := PaidKey(AddressOf(output.script));
    if key.Some? && key.value.ChildKey? && key.value.wallet == ix.wallet {
      assert key != Some(ChildKey(ix.wallet, key.value.keyType, key.value.keyIndex)) || key.value.keyType >= KEY_TYPE_COUNT;
    }
  }

  lemma {:induction false} GrownMonotone(ix: IndexState, tx: Tx, t: nat, a: nat, b: nat)
    requires t < |ix.lists| && a <= b <= |tx.outputs|
    ensures GrownLength(ix, tx, t, a) <= GrownLength(ix, tx, t, b)
    decreases b - a
  {
    if a < b {
      GrownMonotone(ix, tx, t, a, b - 1);
    }
  }

  ghost predicate PaidBefore(ix: IndexState, tx: Tx, t: nat, n: nat, k: nat)
    requires t < |ix.lists|
  {
    exists j: nat :: j < k && PaidInTime(ix, tx, t, n, j)
  }

  lemma PaidBeforeNext(ix: IndexState, tx: Tx, t: nat, n: nat, k: nat)
    requires t < |ix.lists| && k < |tx.outputs|
    ensures PaidBefore(ix, tx, t, n, k + 1) <==> PaidBefore(ix, tx, t, n, k) || PaidInTime(ix, tx, t, n, k)
    ensures PaidBefore(ix, tx, t, n, k) ==> n < GrownLength(ix, tx, t, k)
  {
    hide GrownLength;
    if PaidBefore(ix, tx, t, n, k) {
      var j: nat :| j < k && PaidInTime(ix, tx, t, n, j);
      GrownMonotone(ix, tx, t, j, k);
    }
  }

  /** A turn that changes no list: nothing is paid in time. */
  lemma IdleTurn(ix: IndexState, at: IndexState, later: IndexState, tx: Tx, k: nat)
    requires k < |tx.outputs| && Grown(ix, at, tx, k)
    requires WellFormed(later) && ExactGap(later) && Extends(ix, later) && later.derived.Keys == at.derived.Keys
    requires later.lists == at.lists
    requires forall key :: key in at.derived ==> later.derived[key].slot.keyed == at.derived[key].slot.keyed
    requires forall t: nat, n: nat :: t < KEY_TYPE_COUNT ==> !PaidInTime(ix, tx, t, n, k)
    ensures Grown(ix, later, tx, k + 1)
  {
    hide ExactGap, Extends, PaidInTime, PaidPosition, GrownLength, PaidBefore;
    forall t: nat | t < KEY_TYPE_COUNT
      ensures GrownLength(ix, tx, t, k + 1) == GrownLength(ix, tx, t, k)
      ensures forall n: nat :: PaidBefore(ix, tx, t, n, k + 1) <==> PaidBefore(ix, tx, t, n, k)
    {
      UnpaidLength(ix, tx, t, k);
      forall n: nat ensures PaidBefore(ix, tx, t, n, k + 1) <==> PaidBefore(ix, tx, t, n, k) {
        PaidBeforeNext(ix, tx, t, n, k);
      }
    }
  }

  lemma UnpaidLength(ix: IndexState, tx: Tx, t: nat, k: nat)
    requires t < |ix.lists| && k < |tx.outputs|
    ensures (forall n: nat :: !PaidInTime(ix, tx, t, n, k)) ==> GrownLength(ix, tx, t, k + 1) == GrownLength(ix, tx, t, k)
    ensures forall n: nat :: PaidInTime(ix, tx, t, n, k) ==>
              var length := GrownLength(ix, tx, t, k);
              GrownLength(ix, tx, t, k + 1) == if length < n + 1 + ix.gap then n + 1 + ix.gap else length
  {
    var paid := PaidPosition(ix, tx.outputs[k], t);
    if paid.Some? && paid.value < GrownLength(ix, tx, t, k) {
      assert PaidInTime(ix, tx, t, paid.value, k);
    }
  }

  /** What marking list entry `n` leaves of the list: itself used, fresh entries behind, nothing else changed. */
  lemma ListedSlots(at: IndexState, t: nat, n: nat)
    requires WellFormed(at) && ExactGap(at) && ValidRef(at, Listed(t, n))
    ensures var r := Mark(at, Listed(t, n));
            && r.derived == at.derived && |r.lists| == |at.lists|
            && |r.lists[t]| == (if |at.lists[t]| < n + 1 + at.gap then n + 1 + at.gap else |at.lists[t]|)
            && r.lists[t][n].used && r.lists[t][n].keyed == at.lists[t][n].keyed
            && (forall m :: 0 <= m < |at.lists[t]| && m != n ==> r.lists[t][m] == at.lists[t][m])
            && (forall m :: |at.lists[t]| <= m < |r.lists[t]| ==> r.lists[t][m] == FreshSlot)
            && (forall o :: 0 <= o < |at.lists| && o != t ==> r.lists[o] == at.lists[o])
  {
    MarkListedLength(at, t, n);
  }

  /** A turn that pays entry `n` of list `t`. */
  lemma ListedTurn(ix: IndexState, at: IndexState, tx: Tx, k: nat, t: nat, n: nat)
    requires k < |tx.outputs| && Grown(ix, at, tx, k) && t < KEY_TYPE_COUNT && ValidRef(at, Listed(t, n))
    requires forall o: nat, m: nat :: o < KEY_TYPE_COUNT ==> (PaidInTime(ix, tx, o, m, k) <==> o == t && m == n)
    ensures Grown(ix, Mark(at, Listed(t, n)), tx, k + 1)
  {
    hide ExactGap, Extends, PaidInTime, PaidPosition, GrownLength, PaidBefore, Mark;
    var later := Mark(at, Listed(t, n));
    MarkKeepsExactGap(at, Listed(t, n));
    MarkExtends(at, Listed(t, n));
    ExtendsTransitive(ix, at, later);
    ListedSlots(at, t, n);
    SameGap(ix, at);
    forall o: nat | o < KEY_TYPE_COUNT
      ensures |later.lists[o]| == GrownLength(ix, tx, o, k + 1)
    {
      UnpaidLength(ix, tx, o, k);
      assert o == t ==> PaidInTime(ix, tx, o, n, k);
    }
    forall o: nat, m: nat | o < KEY_TYPE_COUNT && |ix.lists[o]| <= m < |later.lists[o]|
      ensures later.lists[o][m].keyed && (later.lists[o][m].used <==> PaidBefore(ix, tx, o, m, k + 1))
    {
      PaidBeforeNext(ix, tx, o, m, k);
      if o == t && m != n && m < |at.lists[t]| {
        assert later.lists[t][m] == at.lists[t][m];
      }
    }
  }

  lemma SameGap(ix: IndexState, at: IndexState)
    requires Extends(ix, at)
    ensures at.gap == ix.gap && at.wallet == ix.wallet
  {
  }

  /** Marking a derived entry leaves the lists alone. */
  lemma DerivedMark(at: IndexState, ref: AddressRef)
    requires WellFormed(at) && ExactGap(at) && ValidRef(at, ref) && ref.Registered?
    ensures Mark(at, ref).lists == at.lists && Mark(at, ref).derived.Keys == at.derived.Keys
    ensures forall key :: key in at.derived ==> Mark(at, ref).derived[key].slot.keyed == at.derived[key].slot.keyed
  {
  }

  /** One turn of the output loop. */
  lemma Turn(ix: IndexState, at: IndexState, tx: Tx, k: nat)
    requires k < |tx.outputs| && Grown(ix, at, tx, k)
    ensures Grown(ix, MarkOutput(at, tx.outputs[k]), tx, k + 1)
  {
    hide ExactGap, Extends, GrownLength, PaidBefore, Mark, Lookup, WellFormed;
    var output := tx.outputs[k];
    var key := PaidKey(AddressOf(output.script));
    GrownShape(ix, at, tx, k);
    if key.Some? && key.value.ChildKey? && key.value.wallet == ix.wallet && key.value.keyType < KEY_TYPE_COUNT {
      var t, n := key.value.keyType, key.value.keyIndex;
      FoundByPosition(ix, at, tx, k, output, t, n);
      if Lookup(at, AddressOf(output.script)).Present? {
        ListedTurn(ix, at, tx, k, t, n);
      } else {
        IdleTurn(ix, at, at, tx, k);
      }
    } else {
      FoundOtherwise(ix, at, tx, k, output);
      var later := MarkOutput(at, output);
      if Lookup(at, AddressOf(output.script)).Present? {
        var ref := Lookup(at, AddressOf(output.script)).ref;
        FoundIsValid(at, AddressOf(output.script));
        DerivedMark(at, ref);
        MarkKeepsExactGap(at, ref);
        MarkExtends(at, ref);
        ExtendsTransitive(ix, at, later);
      }
      IdleTurn(ix, at, later, tx, k);
    }
  }

  lemma GrownShape(ix: IndexState, at: IndexState, tx: Tx, k: nat)
    requires k <= |tx.outputs| && Grown(ix, at, tx, k)
    ensures WellFormed(at) && ExactGap(at) && Extends(ix, at) && at.derived.Keys == ix.derived.Keys
    ensures |ix.lists| == |at.lists| == KEY_TYPE_COUNT
    ensures forall t: nat :: t < KEY_TYPE_COUNT ==> |at.lists[t]| == GrownLength(ix, tx, t, k)
  {
  }

  lemma {:induction false} GrownAt(ix: IndexState, tx: Tx, k: nat)
    requires WellFormed(ix) && ExactGap(ix) && k <= |tx.outputs|
    ensures Grown(ix, IndexAt(ix, tx, k), tx, k)
  {
    hide Grown, MarkOutput, WellFormed, ExactGap;
    if k == 0 {
      GrownStart(ix, tx);
    } else {
      GrownAt(ix, tx, k - 1);
      Turn(ix, IndexAt(ix, tx, k - 1), tx, k - 1);
    }
  }

  lemma GrownStart(ix: IndexState, tx: Tx)
    requires WellFormed(ix) && ExactGap(ix)
    ensures Grown(ix, ix, tx, 0)
  {
    ExtendsReflexive(ix);
  }

  /** An output is owned late if and only if it pays a position that a later output brings into being. */
  lemma OwnedLateIff(ix: IndexState, tx: Tx, i: nat)
    requires WellFormed(ix) && ExactGap(ix) && i < |tx.outputs|
    ensures OwnedLate(ix, tx, i) <==> exists t: nat, n: nat :: LatePosition(ix, tx, i, t, n)
    ensures forall t: nat, n: nat :: LatePosition(ix, tx, i, t, n) ==>
              var end := IndexAt(ix, tx, |tx.outputs|);
              && Lookup(end, AddressOf(tx.outputs[i].script)) == Present(Listed(t, n)) && ValidRef(end, Listed(t, n))
              && (SlotOf(end, Listed(t, n)).used <==> exists j: nat :: PaidInTime(ix, tx, t, n, j))
  {
    hide IndexAt, ExactGap, Extends, GrownLength, Lookup, PaidInTime, Grown;
    var output, last := tx.outputs[i], |tx.outputs|;
    var at, end := IndexAt(ix, tx, i), IndexAt(ix, tx, last);
    GrownAt(ix, tx, i);
    GrownAt(ix, tx, last);
    GrownShape(ix, end, tx, last);
    var key := PaidKey(AddressOf(output.script));
    if key.Some? && key.value.ChildKey? && key.value.wallet == ix.wallet && key.value.keyType < KEY_TYPE_COUNT {
      var t, n := key.value.keyType, key.value.keyIndex;
      FoundByPosition(ix, at, tx, i, output, t, n);
      FoundByPosition(ix, end, tx, last, output, t, n);
      GrownMonotone(ix, tx, t, i, last);
      LateIs(ix, tx, i, t, n);
      if LatePosition(ix, tx, i, t, n) {
        UsedIffPaid(ix, end, tx, t, n);
      }
    } else {
      FoundOtherwise(ix, at, tx, i, output);
      FoundOtherwise(ix, end, tx, last, output);
    }
  }

  lemma LateIs(ix: IndexState, tx: Tx, i: nat, t: nat, n: nat)
    requires |ix.lists| == KEY_TYPE_COUNT && t < KEY_TYPE_COUNT && i < |tx.outputs|
    requires PaidKey(AddressOf(tx.outputs[i].script)) == Some(ChildKey(ix.wallet, t, n))
    ensures forall o: nat, m: nat :: LatePosition(ix, tx, i, o, m) ==> o == t && m == n
    ensures LatePosition(ix, tx, i, t, n) <==>
            PaidPosition(ix, tx.outputs[i], t) == Some(n)
            && GrownLength(ix, tx, t, i) <= n < GrownLength(ix, tx, t, |tx.outputs|)
    ensures LatePosition(ix, tx, i, t, n) ==> |ix.lists[t]| <= n
  {
    GrownMonotone(ix, tx, t, 0, i);
  }

  lemma UsedIffPaid(ix: IndexState, end: IndexState, tx: Tx, t: nat, n: nat)
    requires Grown(ix, end, tx, |tx.outputs|) && t < KEY_TYPE_COUNT && |ix.lists[t]| <= n < |end.lists[t]|
    ensures end.lists[t][n].used <==> exists j: nat :: PaidInTime(ix, tx, t, n, j)
  {
  }

  /**
   On an index with exact gaps, repeating a pass over a transaction changes nothing if and only if no
   output pays a position before a later output brings it into being, or another one pays the same
   entry once it exists and the early output leaves no entry of its own.
   */
  lemma IdempotentByPositions(w: WalletState, tx: Tx, isFinal: bool)
    requires WellFormed(w.index) && ExactGap(w.index)
    ensures NoLatePosition(w, tx) <==> Process(Process(w, tx, isFinal), tx, isFinal) == Process(w, tx, isFinal)
  {
    hide Process, IndexAt, ExactGap, WellFormed, LatePosition, PaidInTime, Lookup, OwnedLate;
    forall i: nat | i < |tx.outputs|
      ensures OwnedLate(w.index, tx, i) <==> exists t: nat, n: nat :: LatePosition(w.index, tx, i, t, n)
    {
      OwnedLateIff(w.index, tx, i);
    }
    PositionsDecide(w, tx);
    ProcessIdempotentIff(w, tx, isFinal);
  }

  lemma PositionsDecide(w: WalletState, tx: Tx)
    requires WellFormed(w.index) && ExactGap(w.index)
    ensures NoLatePosition(w, tx) <==> NoLateOutput(w, tx)
  {
    hide IndexAt, ExactGap, WellFormed, GrownLength, PaidInTime, Lookup, OwnedLate, PaidPosition;
    forall i: nat, t: nat, n: nat | LatePosition(w.index, tx, i, t, n)
      ensures i < |tx.outputs| && OwnedLate(w.index, tx, i)
      ensures var end := IndexAt(w.index, tx, |tx.outputs|);
              && Lookup(end, AddressOf(tx.outputs[i].script)) == Present(Listed(t, n)) && ValidRef(end, Listed(t, n))
              && (SlotOf(end, Listed(t, n)).used <==> exists j: nat :: PaidInTime(w.index, tx, t, n, j))
    {
      OwnedLateIff(w.index, tx, i);
    }
    forall i: nat | i < |tx.outputs| && OwnedLate(w.index, tx, i)
      ensures exists t: nat, n: nat :: LatePosition(w.index, tx, i, t, n)
    {
      OwnedLateIff(w.index, tx, i);
    }
  }
}
