/**
 The UTXO ledger as a value: what internal/wallet/utxos.go does to the stored entries and, through
 MarkAddress, to the address index. The classes in Ledger.dfy and Wallet.dfy are proved against
 these functions.
 */
module LedgerSpec {
  import opened Results
  import opened Bitcoin
  import opened AddressSpec

  datatype Utxo = Utxo(
    value: nat,
    address: RawAddress,
    keyType: nat,
    keyIndex: nat,
    keyHash: Option<Hash32>,
    pending: bool,
    reserved: bool,
    deleted: bool)

  type LedgerState = map<OutPoint, Utxo>

  /** The private key that signs for an entry. */
  function SigningKey(wallet: nat, u: Utxo): PrivateKey {
    var child := PrivateChild(wallet, u.keyType, u.keyIndex);
    if u.keyHash.Some? then NextKey(child, u.keyHash.value) else child
  }

  datatype WalletState = WalletState(ledger: LedgerState, index: IndexState)

  // ----- one entry -----

  function Reserve(l: LedgerState, p: OutPoint): LedgerState {
    if p in l then l[p := l[p].(reserved := true)] else l
  }

  function Unreserve(l: LedgerState, p: OutPoint): LedgerState {
    if p in l then l[p := l[p].(reserved := false)] else l
  }

  function Delete(l: LedgerState, p: OutPoint): LedgerState {
    if p in l then l[p := l[p].(deleted := true)] else l
  }

  function Undelete(l: LedgerState, p: OutPoint): LedgerState {
    if p in l then l[p := l[p].(deleted := false)] else l
  }

  function Finalize(l: LedgerState, p: OutPoint): LedgerState {
    if p in l then l[p := l[p].(pending := false)] else l
  }

  /** An existing entry wins, even a deleted one. */
  function Create(l: LedgerState, p: OutPoint, u: Utxo): LedgerState {
    if p in l then l else l[p := u]
  }

  // ----- processing a transaction -----

  /** The input loop of ProcessUTXOs, from input `k` on. */
  function SpendInputs(l: LedgerState, tx: Tx, k: nat, isFinal: bool): LedgerState
    requires k <= |tx.inputs|
    decreases |tx.inputs| - k
  {
    if k == |tx.inputs| then l
    else
      var p := tx.inputs[k].point;
      SpendInputs(if isFinal then Delete(l, p) else Reserve(l, p), tx, k + 1, isFinal)
  }

  function NewUtxo(ix: IndexState, ref: AddressRef, output: TxOut): Utxo
    requires ValidRef(ix, ref)
  {
    var info := InfoOf(ix, ref);
    Utxo(output.value, AddressOf(output.script), info.keyType, info.keyIndex, info.keyHash,
         true, false, false)
  }

  /** Output `i` of `tx` pays an owned address something. */
  predicate PaysOwned(ix: IndexState, tx: Tx, i: nat) {
    i < |tx.outputs| && tx.outputs[i].value > 0
    && Lookup(ix, AddressOf(tx.outputs[i].script)).Present?
  }

  /** What recording one output does to the index. */
  function MarkOutput(ix: IndexState, output: TxOut): (r: IndexState)
    requires WellFormed(ix)
    ensures WellFormed(r)
  {
    match Lookup(ix, AddressOf(output.script))
    case Present(ref) => MarkExtends(ix, ref); Mark(ix, ref)
    case _ => ix
  }

  /** What recording one output does to the ledger. */
  function StoreOutput(w: WalletState, tx: Tx, k: nat): LedgerState
    requires k < |tx.outputs|
  {
    if PaysOwned(w.index, tx, k) then
      var output := tx.outputs[k];
      var ref := Lookup(w.index, AddressOf(output.script)).ref;
      Create(w.ledger, OutPoint(tx, k), NewUtxo(w.index, ref, output))
    else w.ledger
  }

  /** The output loop of ProcessUTXOs, from output `k` on. */
  function RecordOutputs(w: WalletState, tx: Tx, k: nat): (r: WalletState)
    requires WellFormed(w.index) && k <= |tx.outputs|
    ensures WellFormed(r.index)
    decreases |tx.outputs| - k
  {
    if k == |tx.outputs| then w
    else
      RecordOutputs(WalletState(StoreOutput(w, tx, k), MarkOutput(w.index, tx.outputs[k])), tx, k + 1)
  }

  function Process(w: WalletState, tx: Tx, isFinal: bool): (r: WalletState)
    requires WellFormed(w.index)
    ensures WellFormed(r.index)
  {
    RecordOutputs(w.(ledger := SpendInputs(w.ledger, tx, 0, isFinal)), tx, 0)
  }

  // ----- finalizing and reverting -----

  /** FinalizeUTXOs, from output `k` on. */
  function FinalizeOutputs(w: WalletState, tx: Tx, k: nat): LedgerState
    requires k <= |tx.outputs|
    decreases |tx.outputs| - k
  {
    if k == |tx.outputs| then w.ledger
    else
      FinalizeOutputs(if PaysOwned(w.index, tx, k) then w.(ledger := Finalize(w.ledger, OutPoint(tx, k))) else w, tx, k + 1)
  }

  /** The input loop of RevertUTXOs, from input `k` on. */
  function UnspendInputs(l: LedgerState, tx: Tx, k: nat, isFinal: bool): LedgerState
    requires k <= |tx.inputs|
    decreases |tx.inputs| - k
  {
    if k == |tx.inputs| then l
    else
      var p := tx.inputs[k].point;
      UnspendInputs(if isFinal then Undelete(l, p) else Unreserve(l, p), tx, k + 1, isFinal)
  }

  /** The output loop of RevertUTXOs, from output `k` on. */
  function DropOutputs(w: WalletState, tx: Tx, k: nat): LedgerState
    requires k <= |tx.outputs|
    decreases |tx.outputs| - k
  {
    if k == |tx.outputs| then w.ledger
    else
      DropOutputs(if PaysOwned(w.index, tx, k) then w.(ledger := Delete(w.ledger, OutPoint(tx, k))) else w, tx, k + 1)
  }

  function Revert(w: WalletState, tx: Tx, isFinal: bool): LedgerState {
    DropOutputs(w.(ledger := UnspendInputs(w.ledger, tx, 0, isFinal)), tx, 0)
  }

  // ----- what the loops do to one entry -----

  /** Some input at position `k` or later spends `p`. */
  predicate SpendsFrom(tx: Tx, k: nat, p: OutPoint)
    requires k <= |tx.inputs|
    decreases |tx.inputs| - k
  {
    k < |tx.inputs| && (tx.inputs[k].point == p || SpendsFrom(tx, k + 1, p))
  }

  predicate Spends(tx: Tx, p: OutPoint) {
    SpendsFrom(tx, 0, p)
  }

  lemma {:induction false} SpendsFromAt(tx: Tx, k: nat, p: OutPoint)
    requires k <= |tx.inputs|
    ensures SpendsFrom(tx, k, p) <==> exists i :: k <= i < |tx.inputs| && tx.inputs[i].point == p
    decreases |tx.inputs| - k
  {
    if k < |tx.inputs| {
      SpendsFromAt(tx, k + 1, p);
    }
  }

  lemma {:induction false} SpendInputsAt(l: LedgerState, tx: Tx, k: nat, isFinal: bool)
    requires k <= |tx.inputs|
    ensures var r := SpendInputs(l, tx, k, isFinal);
            && r.Keys == l.Keys
            && forall p :: p in l ==>
                 r[p] == if !SpendsFrom(tx, k, p) then l[p]
                         else if isFinal then l[p].(deleted := true)
                         else l[p].(reserved := true)
    decreases |tx.inputs| - k
  {
    if k < |tx.inputs| {
      var q := tx.inputs[k].point;
      SpendInputsAt(if isFinal then Delete(l, q) else Reserve(l, q), tx, k + 1, isFinal);
    }
  }

  lemma {:induction false} UnspendInputsAt(l: LedgerState, tx: Tx, k: nat, isFinal: bool)
    requires k <= |tx.inputs|
    ensures var r := UnspendInputs(l, tx, k, isFinal);
            && r.Keys == l.Keys
            && forall p :: p in l ==>
                 r[p] == if !SpendsFrom(tx, k, p) then l[p]
                         else if isFinal then l[p].(deleted := false)
                         else l[p].(reserved := false)
    decreases |tx.inputs| - k
  {
    if k < |tx.inputs| {
      var q := tx.inputs[k].point;
      UnspendInputsAt(if isFinal then Undelete(l, q) else Unreserve(l, q), tx, k + 1, isFinal);
    }
  }

  lemma {:induction false} FinalizeOutputsAt(w: WalletState, tx: Tx, k: nat)
    requires k <= |tx.outputs|
    ensures var r := FinalizeOutputs(w, tx, k);
            && r.Keys == w.ledger.Keys
            && forall p :: p in w.ledger ==>
                 r[p] == if p.tx == tx && k <= p.index && PaysOwned(w.index, tx, p.index)
                         then w.ledger[p].(pending := false) else w.ledger[p]
    decreases |tx.outputs| - k
  {
    if k < |tx.outputs| {
      var p := OutPoint(tx, k);
      var next := if PaysOwned(w.index, tx, k) then w.(ledger := Finalize(w.ledger, p)) else w;
      FinalizeOutputsAt(next, tx, k + 1);
    }
  }

  lemma {:induction false} DropOutputsAt(w: WalletState, tx: Tx, k: nat)
    requires k <= |tx.outputs|
    ensures var r := DropOutputs(w, tx, k);
            && r.Keys == w.ledger.Keys
            && forall p :: p in w.ledger ==>
                 r[p] == if p.tx == tx && k <= p.index && PaysOwned(w.index, tx, p.index)
                         then w.ledger[p].(deleted := true) else w.ledger[p]
    decreases |tx.outputs| - k
  {
    if k < |tx.outputs| {
      var p := OutPoint(tx, k);
      var next := if PaysOwned(w.index, tx, k) then w.(ledger := Delete(w.ledger, p)) else w;
      DropOutputsAt(next, tx, k + 1);
    }
  }

  // ----- which outputs a transaction records -----

  /** The index when the output loop reaches output `k`. */
  function IndexAt(ix: IndexState, tx: Tx, k: nat): (r: IndexState)
    requires WellFormed(ix) && k <= |tx.outputs|
    ensures WellFormed(r)
  {
    if k == 0 then ix else MarkOutput(IndexAt(ix, tx, k - 1), tx.outputs[k - 1])
  }

  lemma MarkOutputExtends(ix: IndexState, output: TxOut)
    requires WellFormed(ix)
    ensures Extends(ix, MarkOutput(ix, output))
    ensures MarkOutput(ix, output).derived.Keys == ix.derived.Keys
  {
    var found := Lookup(ix, AddressOf(output.script));
    if found.Present? {
      MarkExtends(ix, found.ref);
    }
  }

  lemma {:induction false} IndexAtExtends(ix: IndexState, tx: Tx, i: nat, k: nat)
    requires WellFormed(ix) && i <= k <= |tx.outputs|
    ensures Extends(IndexAt(ix, tx, i), IndexAt(ix, tx, k))
    ensures IndexAt(ix, tx, k).derived.Keys == IndexAt(ix, tx, i).derived.Keys
    decreases k - i
  {
    hide MarkOutput, Extends;
    ExtendsReflexive(IndexAt(ix, tx, i));
    if i < k {
      IndexAtExtends(ix, tx, i, k - 1);
      MarkOutputExtends(IndexAt(ix, tx, k - 1), tx.outputs[k - 1]);
      ExtendsTransitive(IndexAt(ix, tx, i), IndexAt(ix, tx, k - 1), IndexAt(ix, tx, k));
    }
  }

  /** Output `i` is owned when the loop reaches it. */
  predicate OwnedAtTurn(ix: IndexState, tx: Tx, i: nat)
    requires WellFormed(ix)
  {
    i < |tx.outputs| && PaysOwned(IndexAt(ix, tx, i), tx, i)
  }

  /** The entry that output `i` becomes when it is owned at its turn. */
  function EntryAtTurn(ix: IndexState, tx: Tx, i: nat): Utxo
    requires WellFormed(ix) && OwnedAtTurn(ix, tx, i)
  {
    var at := IndexAt(ix, tx, i);
    NewUtxo(at, Lookup(at, AddressOf(tx.outputs[i].script)).ref, tx.outputs[i])
  }

  /**
   Recording outputs adds exactly the outputs owned at their turn that were not stored before, and
   changes no stored entry.
   */
  lemma {:induction false} RecordOutputsAt(w: WalletState, start: IndexState, tx: Tx, k: nat)
    requires WellFormed(start) && k <= |tx.outputs| && w.index == IndexAt(start, tx, k)
    ensures var r := RecordOutputs(w, tx, k);
            && r.index == IndexAt(start, tx, |tx.outputs|)
            && (forall p :: p in w.ledger ==> p in r.ledger && r.ledger[p] == w.ledger[p])
            && (forall p :: p in r.ledger && p !in w.ledger ==>
                  && p.tx == tx && k <= p.index && OwnedAtTurn(start, tx, p.index)
                  && r.ledger[p] == EntryAtTurn(start, tx, p.index))
            && (forall i :: k <= i < |tx.outputs| && OwnedAtTurn(start, tx, i) ==>
                  OutPoint(tx, i) in r.ledger)
    decreases |tx.outputs| - k
  {
    hide MarkOutput, NewUtxo, PaysOwned;
    if k < |tx.outputs| {
      var next := WalletState(StoreOutput(w, tx, k), MarkOutput(w.index, tx.outputs[k]));
      assert next.index == IndexAt(start, tx, k + 1);
      RecordOutputsAt(next, start, tx, k + 1);
    }
  }
}
