/**
 The key that GetInputKeys picks for an entry is the key of the address the entry pays, in every
 state a run can reach, as long as the derived keys were registered under what they derive from.
 */
module Signing {
  import opened Results
  import opened Bitcoin
  import opened AddressSpec
  import opened LedgerSpec
  import opened FeedOrder
  import opened LedgerRun

  /** A derived key is registered under the list key and the hash it derives from. */
  ghost predicate RegisteredRight(ix: IndexState, k: PublicKey)
    requires k in ix.derived
  {
    var d := ix.derived[k];
    k == NextPublicKey(ChildKey(ix.wallet, d.keyType, d.keyIndex), d.keyHash)
  }

  ghost predicate KeysCoherent(ix: IndexState) {
    WellFormed(ix) && forall k :: k in ix.derived ==> RegisteredRight(ix, k)
  }

  /** The key picked for an entry unlocks the address it pays. */
  ghost predicate Signs(wallet: nat, u: Utxo) {
    PaidKey(u.address) == Some(PublicOf(SigningKey(wallet, u)))
  }

  /** An entry holds the address its outpoint pays. */
  predicate Addressed(p: OutPoint, u: Utxo) {
    p.index < |p.tx.outputs| && u.address == AddressOf(p.tx.outputs[p.index].script)
  }

  /** Every entry can be signed for, and its list address exists. */
  ghost predicate LedgerSigns(w: WalletState) {
    forall p :: p in w.ledger ==>
      && Addressed(p, w.ledger[p])
      && Signs(w.index.wallet, w.ledger[p])
      && ValidRef(w.index, Listed(w.ledger[p].keyType, w.ledger[p].keyIndex))
  }

  /** Registering a key keeps the keys right exactly when it derives from what it is filed under. */
  lemma AddKeyCoherentIff(ix: IndexState, key: PublicKey, t: nat, i: nat, hash: Hash32)
    requires KeysCoherent(ix) && key.NextPublicKey? && ValidRef(ix, Listed(t, i))
    ensures KeysCoherent(AddKey(ix, key, t, i, hash)) <==> key == NextPublicKey(ChildKey(ix.wallet, t, i), hash)
  {
    var later := AddKey(ix, key, t, i, hash);
    forall k | k in later.derived && k != key ensures RegisteredRight(later, k) {
      assert RegisteredRight(ix, k);
    }
    assert RegisteredRight(later, key) <==> key == NextPublicKey(ChildKey(ix.wallet, t, i), hash);
  }

  /** Registering a key that derives from what it is filed under takes nothing away. */
  lemma RightKeyGrows(ix: IndexState, key: PublicKey, t: nat, i: nat, hash: Hash32)
    requires KeysCoherent(ix) && key == NextPublicKey(ChildKey(ix.wallet, t, i), hash)
    ensures Extends(ix, AddKey(ix, key, t, i, hash))
    ensures ValidRef(ix, Listed(t, i)) ==> KeysCoherent(AddKey(ix, key, t, i, hash))
  {
    if key in ix.derived {
      assert RegisteredRight(ix, key);
    }
    if ValidRef(ix, Listed(t, i)) {
      AddKeyCoherentIff(ix, key, t, i, hash);
    }
  }

  /** An index that extends another, with no further derived keys, is as right as it was. */
  lemma ExtendsCoherent(ix: IndexState, later: IndexState)
    requires KeysCoherent(ix) && WellFormed(later) && Extends(ix, later) && later.derived.Keys == ix.derived.Keys
    ensures KeysCoherent(later)
  {
    forall k | k in later.derived ensures RegisteredRight(later, k) {
      assert RegisteredRight(ix, k);
    }
  }

  /** A new entry is signed for rightly exactly when its address is listed or registered rightly. */
  lemma NewEntrySignsIff(ix: IndexState, output: TxOut)
    requires WellFormed(ix) && Lookup(ix, AddressOf(output.script)).Present?
    ensures var ref := Lookup(ix, AddressOf(output.script)).ref;
            var u := NewUtxo(ix, ref, output);
            && (Signs(ix.wallet, u) <==> (ref.Registered? ==> RegisteredRight(ix, ref.key)))
            && ValidRef(ix, Listed(u.keyType, u.keyIndex))
  {
    var ref := Lookup(ix, AddressOf(output.script)).ref;
    var u := NewUtxo(ix, ref, output);
    assert PaidKey(u.address) == Some(KeyBehind(ix.wallet, ref));
    assert PublicOf(PrivateChild(ix.wallet, u.keyType, u.keyIndex)) == ChildKey(ix.wallet, u.keyType, u.keyIndex);
  }

  lemma ProcessKeepsSigning(w: WalletState, tx: Tx, isFinal: bool)
    requires KeysCoherent(w.index) && LedgerSigns(w)
    ensures var r := Process(w, tx, isFinal);
            KeysCoherent(r.index) && LedgerSigns(r) && Extends(w.index, r.index)
  {
    var r := Process(w, tx, isFinal);
    ProcessAt(w, tx, isFinal);
    IndexAtExtends(w.index, tx, 0, |tx.outputs|);
    ExtendsCoherent(w.index, r.index);
    hide Process, RegisteredRight, Signs, IndexAt, SpentBy, OwnedAtTurn, EntryAtTurn;
    forall p | p in r.ledger
      ensures Addressed(p, r.ledger[p])
      ensures Signs(r.index.wallet, r.ledger[p])
      ensures ValidRef(r.index, Listed(r.ledger[p].keyType, r.ledger[p].keyIndex))
    {
      if p in w.ledger {
        SpentSigns(tx, p, w.ledger[p], isFinal, w.index.wallet);
      } else {
        TurnEntrySigns(w.index, tx, p.index);
      }
    }
  }

  lemma SpentSigns(tx: Tx, p: OutPoint, u: Utxo, isFinal: bool, wallet: nat)
    ensures var v := SpentBy(tx, p, u, isFinal);
            v.keyType == u.keyType && v.keyIndex == u.keyIndex && (Signs(wallet, v) <==> Signs(wallet, u))
    ensures SpentBy(tx, p, u, isFinal).address == u.address
  {
  }

  lemma TurnEntrySigns(ix: IndexState, tx: Tx, i: nat)
    requires KeysCoherent(ix) && OwnedAtTurn(ix, tx, i)
    ensures var u := EntryAtTurn(ix, tx, i);
            && Signs(ix.wallet, u) && Addressed(OutPoint(tx, i), u)
            && ValidRef(IndexAt(ix, tx, |tx.outputs|), Listed(u.keyType, u.keyIndex))
  {
    IndexAtExtends(ix, tx, 0, i);
    IndexAtExtends(ix, tx, i, |tx.outputs|);
    ExtendsCoherent(ix, IndexAt(ix, tx, i));
    NewEntrySignsIff(IndexAt(ix, tx, i), tx.outputs[i]);
  }

  /** Only flags change. */
  ghost predicate SameButFlags(a: LedgerState, b: LedgerState) {
    && a.Keys == b.Keys
    && forall p :: p in a ==>
         && a[p].address == b[p].address && a[p].keyHash == b[p].keyHash
         && a[p].keyType == b[p].keyType && a[p].keyIndex == b[p].keyIndex
  }

  lemma FlagsKeepSigning(w: WalletState, l: LedgerState)
    requires LedgerSigns(w) && SameButFlags(w.ledger, l)
    ensures LedgerSigns(w.(ledger := l))
  {
  }

  lemma FinalizeKeepsFlags(w: WalletState, tx: Tx)
    ensures SameButFlags(w.ledger, FinalizeOutputs(w, tx, 0))
  {
    FinalizeOutputsAt(w, tx, 0);
  }

  lemma RevertKeepsFlags(w: WalletState, tx: Tx)
    ensures SameButFlags(w.ledger, Revert(w, tx, true))
  {
    UnspendInputsAt(w.ledger, tx, 0, true);
    DropOutputsAt(w.(ledger := UnspendInputs(w.ledger, tx, 0, true)), tx, 0);
  }

  lemma GrowKeepsSigning(w: WalletState, ix: IndexState)
    requires LedgerSigns(w) && KeysCoherent(w.index) && Extends(w.index, ix)
    ensures LedgerSigns(w.(index := ix))
  {
    hide Signs;
  }

  lemma StepKeepsSigning(s: RunState, e: Event)
    requires KeysCoherent(s.wallet.index) && LedgerSigns(s.wallet)
    requires e.Grow? && ValidGrowth(s, e.index) ==> KeysCoherent(e.index)
    ensures var r := Step(s, e); KeysCoherent(r.wallet.index) && LedgerSigns(r.wallet)
  {
    hide Process, KeysCoherent, LedgerSigns, SameButFlags, FinalizeOutputs, Revert, WellFormed, Extends;
    match e
    case Feed(tx, _) => ProcessKeepsSigning(s.wallet, tx, true);
    case Broadcast(tx) => ProcessKeepsSigning(s.wallet, tx, false);
    case Confirm(tx) => FinalizeKeepsFlags(s.wallet, tx); FlagsKeepSigning(s.wallet, FinalizeOutputs(s.wallet, tx, 0));
    case Reverse(tx) => RevertKeepsFlags(s.wallet, tx); FlagsKeepSigning(s.wallet, Revert(s.wallet, tx, true));
    case Grow(ix) => if ValidGrowth(s, ix) { GrowKeepsSigning(s.wallet, ix); }
  }

  /**
   In every reachable state each entry can be signed for with the key GetInputKeys picks, provided
   every key registered on the way derives from what it is filed under.
   */
  lemma {:induction false} RunSigns(ix: IndexState, events: seq<Event>)
    requires KeysCoherent(ix)
    requires forall n :: 0 <= n < |events| && events[n].Grow? && WellFormed(events[n].index) ==> KeysCoherent(events[n].index)
    ensures var r := Run(Start(ix), events); KeysCoherent(r.wallet.index) && LedgerSigns(r.wallet)
  {
    if events != [] {
      var last := |events| - 1;
      RunSigns(ix, events[..last]);
      StepKeepsSigning(Run(Start(ix), events[..last]), events[last]);
      RunUnfold(ix, events);
    }
  }
}
