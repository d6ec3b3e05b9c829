/**
 The wallet's handling of a transaction in internal/wallet/utxos.go: the loops over inputs and
 outputs that change the ledger and, by marking addresses, the index.
 */
module Wallets {
  import opened Results
  import opened Bitcoin
  import opened AddressSpec
  import opened LedgerSpec
  import opened AddressIndexes
  import opened Ledgers
  import Signing

  /** The list address of every entry exists: the log lines of the loops may use it. */
  ghost predicate Indexed(entries: Entries, ix: IndexState) {
    forall p :: p in entries ==> ValidRef(ix, Listed(entries[p].keyType, entries[p].keyIndex))
  }

  lemma IndexedExtends(entries: Entries, ix: IndexState, later: IndexState)
    requires Indexed(entries, ix) && Extends(ix, later)
    ensures Indexed(entries, later)
  {
  }

  /** A stored transaction; it is promoted once, when it is processed. */
  class Transaction {
    const tx: Tx
    var promoted: bool

    constructor (tx: Tx)
      ensures this.tx == tx && !promoted
    {
      this.tx, promoted := tx, false;
    }
  }

  class Wallet {
    const index: AddressIndex
    const ledger: Ledger
    const dustLimit: nat
    var txs: map<Tx, Transaction>

    ghost predicate Valid()
      reads index, index.repr, ledger
    {
      index.Valid() && ledger.Valid() && Indexed(ledger.entries, index.state)
    }

    ghost function State(): (w: WalletState)
      requires Valid()
      reads index, index.repr, ledger, ledger.repr
      ensures WellFormed(w.index)
    {
      WalletState(ledger.State(), index.state)
    }

    constructor (wallet: nat, gap: nat, dustLimit: nat)
      ensures Valid() && fresh(index) && fresh(index.repr) && fresh(ledger) && fresh(ledger.repr)
      ensures State() == WalletState(map[], Prepared(wallet, gap)) && txs == map[] && this.dustLimit == dustLimit
    {
      index := new AddressIndex(wallet, gap);
      ledger := new Ledger();
      txs := map[];
      this.dustLimit := dustLimit;
    }

    /** A loaded wallet, with the transactions it still knows. */
    constructor Loaded(index: AddressIndex, ledger: Ledger, dustLimit: nat, txs: map<Tx, Transaction>)
      requires index.Valid() && ledger.Valid() && Indexed(ledger.entries, index.state)
      ensures Valid() && this.index == index && this.ledger == ledger && this.dustLimit == dustLimit && this.txs == txs
    {
      this.index, this.ledger, this.dustLimit, this.txs := index, ledger, dustLimit, txs;
    }

    /** AddWireTx: a transaction the inspector refuses is not stored. */
    method AddWireTx(tx: Tx, accepted: bool)
      modifies this`txs
      ensures !accepted ==> txs == old(txs)
      ensures accepted ==> tx in txs && fresh(txs[tx]) && !txs[tx].promoted && txs[tx].tx == tx
      ensures accepted ==> txs == old(txs)[tx := txs[tx]]
    {
      if accepted {
        var t := new Transaction(tx);
        txs := txs[tx := t];
      }
    }

    /** Delete what a transaction of the network spends; reserve what one of our own spends. */
    method SpendInputs(tx: Tx, isFinal: bool)
      requires Valid()
      modifies ledger.repr
      ensures Valid()
      ensures State() == old(State()).(ledger := LedgerSpec.SpendInputs(old(State().ledger), tx, 0, isFinal))
    {
      hide AddressIndex.Valid, Ledger.Valid, Ledger.State, WellFormed, ListsShared, MapFiled, Lookup, InfoOf;
      ghost var before := ledger.State();
      for k := 0 to |tx.inputs|
        invariant Valid()
        invariant LedgerSpec.SpendInputs(ledger.State(), tx, k, isFinal) == LedgerSpec.SpendInputs(before, tx, 0, isFinal)
      {
        var p := tx.inputs[k].point;
        if isFinal {
          var utxo := ledger.DeleteUTXO(p);
        } else {
          var utxo := ledger.ReserveUTXO(p);
          if utxo != null {
            // The log line below would dereference a missing address.
            var address := index.GetAddress(utxo.keyType, utxo.keyIndex);
            assert address != null;
          }
        }
      }
    }

    /** One turn of the output loop of ProcessUTXOs. */
    method RecordOutput(tx: Tx, k: nat)
      requires Valid() && k < |tx.outputs|
      modifies index, index.repr, ledger
      ensures Valid() && fresh(index.repr - old(index.repr)) && fresh(ledger.repr - old(ledger.repr))
      ensures State() == WalletState(StoreOutput(old(State()), tx, k), MarkOutput(old(State()).index, tx.outputs[k]))
    {
      hide AddressIndex.Valid, Ledger.Valid, Ledger.State, WellFormed, Lookup, InfoOf, Mark, Extends, Address.Represents;
      var output := tx.outputs[k];
      var address, known := index.FindAddress(AddressOf(output.script));
      if address == null {
        return;
      }
      ghost var ix, ref := index.state, Lookup(index.state, AddressOf(output.script)).ref;
      FoundInfo(address, ref);
      MarkExtends(ix, ref);
      if output.value > 0 {
        StoreUTXO(tx, k, address, ref);
      }
      index.MarkAddress(address, ref);
      IndexedExtends(ledger.entries, ix, index.state);
    }

    method StoreUTXO(tx: Tx, k: nat, address: Address, ghost ref: AddressRef)
      requires Valid() && k < |tx.outputs| && index.Holds(address, ref)
      modifies ledger
      ensures Valid() && fresh(ledger.repr - old(ledger.repr))
      ensures ValidRef(index.state, ref)
      ensures ledger.State() == Create(old(ledger.State()), OutPoint(tx, k), NewUtxo(index.state, ref, tx.outputs[k]))
    {
      hide AddressIndex.Valid, Ledger.Valid, Ledger.State, WellFormed, InfoOf, Address.Represents;
      FoundInfo(address, ref);
      var utxo := new UTXO(OutPoint(tx, k), tx.outputs[k], address.keyType, address.keyIndex, address.keyHash);
      ledger.CreateUTXO(utxo);
    }

    lemma FoundInfo(a: Address, ref: AddressRef)
      requires index.Valid() && index.Holds(a, ref)
      ensures ValidRef(index.state, ref) && WellFormed(index.state) && a in index.repr
      ensures var info := InfoOf(index.state, ref);
              && info.keyType == a.keyType && info.keyIndex == a.keyIndex && info.keyHash == a.keyHash
      ensures ValidRef(index.state, Listed(a.keyType, a.keyIndex))
    {
      index.HoldsRepresents(a, ref);
    }

    method ProcessUTXOs(tx: Tx, isFinal: bool)
      requires Valid()
      modifies index, index.repr, ledger, ledger.repr
      ensures Valid() && fresh(index.repr - old(index.repr)) && fresh(ledger.repr - old(ledger.repr))
      ensures State() == Process(old(State()), tx, isFinal)
    {
      hide AddressIndex.Valid, Ledger.Valid, Ledger.State, WellFormed, ListsShared, MapFiled, Lookup, InfoOf;
      SpendInputs(tx, isFinal);
      ghost var spent := State();
      for k := 0 to |tx.outputs|
        invariant Valid() && fresh(index.repr - old(index.repr)) && fresh(ledger.repr - old(ledger.repr))
        invariant RecordOutputs(State(), tx, k) == RecordOutputs(spent, tx, 0)
      {
        RecordOutput(tx, k);
      }
    }

    method FinalizeUTXOs(tx: Tx)
      requires Valid()
      modifies ledger.repr
      ensures Valid()
      ensures State() == old(State()).(ledger := FinalizeOutputs(old(State()), tx, 0))
    {
      hide AddressIndex.Valid, Ledger.Valid, Ledger.State, WellFormed, ListsShared, MapFiled, Lookup, InfoOf;
      ghost var before := State();
      for k := 0 to |tx.outputs|
        invariant Valid() && FinalizeOutputs(State(), tx, k) == FinalizeOutputs(before, tx, 0)
      {
        var output := tx.outputs[k];
        var address, known := index.FindAddress(AddressOf(output.script));
        if address != null && output.value > 0 {
          var utxo := ledger.FinalizeUTXO(OutPoint(tx, k));
        }
      }
    }

    /** Undelete what a reverted transaction spent; the other branch has no caller. */
    method FreeInputs(tx: Tx, isFinal: bool)
      requires Valid()
      modifies ledger.repr
      ensures Valid()
      ensures State() == old(State()).(ledger := UnspendInputs(old(State()).ledger, tx, 0, isFinal))
    {
      hide AddressIndex.Valid, Ledger.Valid, Ledger.State, WellFormed, ListsShared, MapFiled, Lookup, InfoOf;
      ghost var before := ledger.State();
      for k := 0 to |tx.inputs|
        invariant Valid()
        invariant UnspendInputs(ledger.State(), tx, k, isFinal) == UnspendInputs(before, tx, 0, isFinal)
      {
        var p := tx.inputs[k].point;
        if isFinal {
          var utxo := ledger.UndeleteUTXO(p);
        } else {
          var utxo := ledger.UnreserveUTXO(p);
          if utxo != null {
            // The log line below would dereference a missing address.
            var address := index.GetAddress(utxo.keyType, utxo.keyIndex);
            assert address != null;
          }
        }
      }
    }

    method RevertUTXOs(tx: Tx, isFinal: bool)
      requires Valid()
      modifies ledger.repr
      ensures Valid()
      ensures State() == old(State()).(ledger := Revert(old(State()), tx, isFinal))
    {
      hide AddressIndex.Valid, Ledger.Valid, Ledger.State, WellFormed, ListsShared, MapFiled, Lookup, InfoOf;
      FreeInputs(tx, isFinal);
      ghost var freed := State();
      for k := 0 to |tx.outputs|
        invariant Valid() && DropOutputs(State(), tx, k) == DropOutputs(freed, tx, 0)
      {
        var output := tx.outputs[k];
        var address, known := index.FindAddress(AddressOf(output.script));
        if address != null && output.value > 0 {
          var utxo := ledger.DeleteUTXO(OutPoint(tx, k));
        }
      }
    }

    /** The keys that sign for a transaction are, in order, the keys of the addresses its inputs spend. */
    method GetInputKeys(tx: Tx) returns (keys: Result<seq<PrivateKey>, KeyError>)
      requires Valid()
      ensures keys.Ok? <==> forall n :: 0 <= n < |tx.inputs| ==> tx.inputs[n].point in State().ledger
      ensures keys.Ok? ==> |keys.value| == |tx.inputs|
      ensures keys.Ok? ==>
                forall n :: 0 <= n < |tx.inputs| ==>
                  keys.value[n] == SigningKey(State().index.wallet, State().ledger[tx.inputs[n].point])
      ensures keys.Ok? && Signing.LedgerSigns(State()) ==>
                forall n :: 0 <= n < |tx.inputs| ==>
                  PaidKey(State().ledger[tx.inputs[n].point].address) == Some(PublicOf(keys.value[n]))
    {
      hide Bucketed, Filed, SigningKey, MapFiled, ListsShared, Monitored, WellFormed;
      keys := ledger.GetInputKeys(index.wallet, tx.inputs);
    }
  }
}
