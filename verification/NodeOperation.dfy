/**
 The operations of a node are the events of its runs: each method leads from one state of a run in
 NodeRun.dfy to the next, so everything proved of those runs holds of the objects.
 */
module NodeOperations {
  import opened Results
  import opened Bitcoin
  import opened AddressSpec
  import opened AddressIndexes
  import opened LedgerSpec
  import opened Ledgers
  import opened LedgerRun
  import opened Signing
  import opened Wallets
  import opened FundingSpec
  import opened Funding
  import opened UniqueKeys
  import opened Ratchet
  import opened RatchetLaws
  import opened RelationshipManager
  import opened KeyGrowth
  import opened Initiate
  import opened Initiating
  import opened MessageSending
  import opened Nodes
  import opened NodeRuns
  import Codec
  import RelationshipStore
  import WalletRestore
  import P = Protocol

  /** The node's objects stand where the run does. */
  ghost predicate Stands(n: Node, k: NodeState)
    reads n.wallet, n.wallet.txs.Values, n.wallet.index, n.wallet.index.repr, n.wallet.ledger, n.wallet.ledger.repr
    reads n.rs, n.rs.list, n.rs.own
  {
    n.At(k.run) && n.rs.states == k.relationships
  }

  lemma StandsParts(n: Node, k: NodeState)
    requires Stands(n, k)
    ensures n.At(k.run) && n.rs.states == k.relationships && n.rs.Parties() == PartyOf(k)
    ensures Follows(n.wallet, k.run) && n.rs.index == n.wallet.index && n.rs.Valid()
    ensures n.wallet.Valid() && WellFormed(k.run.wallet.index) && n.wallet.txs.Keys == k.run.handled
  {
  }

  lemma StandsAgain(n: Node, k: NodeState)
    requires Follows(n.wallet, k.run) && n.rs.index == n.wallet.index && n.rs.Valid() && n.rs.states == k.relationships
    ensures Stands(n, k)
  {
  }

  lemma NextKeeps(k: NodeState, e: NodeEvent)
    requires WellFormed(k.run.wallet.index) && NodeInv(k) && Happens(k, e)
    ensures NodeInv(NodeStep(k, e))
  {
    StepKeepsNode(k, e);
  }

  /** HandleTx. */
  method FeedNext(n: Node, tx: Tx, accepted: bool, ghost k: NodeState) returns (keep: bool, failed: bool, ghost next: NodeState)
    requires Stands(n, k) && NodeInv(k)
    modifies n.wallet`txs, n.wallet.index, n.wallet.index.repr, n.wallet.ledger, n.wallet.ledger.repr
    ensures WellFormed(k.run.wallet.index) && next == (if keep then NodeStep(k, Feeds(tx, accepted)) else k)
    ensures Stands(n, next) && NodeInv(next)
  {
    hide *;
    StandsParts(n, k);
    keep, failed := n.HandleTx(tx, accepted, k.run);
    FeedSteps(k, tx, accepted);
    next := if keep then NodeStep(k, Feeds(tx, accepted)) else k;
    n.AtParts(next.run);
    StandsAgain(n, next);
    NextKeeps(k, Feeds(tx, accepted));
  }

  lemma FeedSteps(k: NodeState, tx: Tx, accepted: bool)
    requires WellFormed(k.run.wallet.index)
    ensures Happens(k, Feeds(tx, accepted))
    ensures NodeStep(k, Feeds(tx, accepted)) == k.(run := Step(k.run, Feed(tx, accepted)))
  {
  }

  /** HandleTxState for a cancelled, unsafe or reverted transaction. */
  method ReverseNext(n: Node, tx: Tx, ghost k: NodeState) returns (ghost next: NodeState)
    requires Stands(n, k) && NodeInv(k) && tx in k.run.handled
    modifies n.wallet.ledger.repr
    ensures WellFormed(k.run.wallet.index) && next == NodeStep(k, Reverses(tx))
    ensures Stands(n, next) && NodeInv(next)
  {
    hide *;
    StandsParts(n, k);
    n.RevertTx(tx, k.run);
    ReverseSteps(k, tx);
    next := NodeStep(k, Reverses(tx));
    n.AtParts(next.run);
    StandsAgain(n, next);
    NextKeeps(k, Reverses(tx));
  }

  lemma ReverseSteps(k: NodeState, tx: Tx)
    requires WellFormed(k.run.wallet.index)
    ensures Happens(k, Reverses(tx))
    ensures NodeStep(k, Reverses(tx)) == k.(run := Step(k.run, Reverse(tx)))
  {
  }

  /** HandleTxState for a safe or confirmed transaction that can be promoted. */
  method ProcessNext(n: Node, tx: Tx, contents: Contents, ghost k: NodeState) returns (ok: bool, ghost next: NodeState)
    requires Stands(n, k) && NodeInv(k) && tx in k.run.handled
    requires WellFormed(k.run.wallet.index) && Happens(k, Processes(tx, contents))
    modifies n.wallet.txs[tx], n.wallet.ledger.repr, n.wallet.index, n.rs, Objects(n.rs), n.rs.own
    ensures next == NodeStep(k, Processes(tx, contents))
    ensures Stands(n, next) && NodeInv(next)
  {
    hide *;
    StandsParts(n, k);
    MessageSending.PartiesAre(n.rs);
    ghost var before := n.rs.Parties();
    ok := n.ProcessTx(tx, true, contents, k.run);
    MessageSending.PartiesAre(n.rs);
    next := NodeStep(k, Processes(tx, contents));
    ProcessSteps(k, tx, contents);
    if tx !in k.run.finalized {
      PartyEnded(Processed(k, tx, contents), n.rs.Parties(), ok);
    }
    n.AtParts(next.run);
    StandsAgain(n, next);
    NextKeeps(k, Processes(tx, contents));
  }

  lemma PartyEnded(o: Outcome, p: Party, ok: bool)
    requires Ended(o, p, ok) && !o.Crashed?
    ensures p == o.party
  {
  }

  lemma ProcessSteps(k: NodeState, tx: Tx, contents: Contents)
    requires WellFormed(k.run.wallet.index) && NodeInv(k) && tx in k.run.handled && Happens(k, Processes(tx, contents))
    ensures Processed(k, tx, contents) == ProcessAll(PartyOf(k), tx, FlagOf(tx.outputs), contents, 0)
    ensures tx in k.run.finalized ==> NodeStep(k, Processes(tx, contents)) == k
    ensures tx !in k.run.finalized ==>
              var o := Processed(k, tx, contents);
              && !o.Crashed? && OutputsGrow(k.run.wallet.index, PartyOf(k), tx, contents)
              && Extends(k.run.wallet.index, o.party.index)
              && NodeStep(k, Processes(tx, contents)) ==
                 k.(run := Step(Step(k.run, Confirm(tx)), Grow(o.party.index)), relationships := o.party.relationships)
  {
    hide Step, NodeInv, WellFormed, Grew, ProcessAll, JoinsByListKeys, DistinctChains, Extends;
    if tx !in k.run.finalized {
      NodeSound(k);
      AllGrow(PartyOf(k), tx, FlagOf(tx.outputs), contents, 0);
      GrewExtends(PartyOf(k), Processed(k, tx, contents).party);
    }
  }

  lemma GrewExtends(p: Party, q: Party)
    requires Grew(p, q)
    ensures Extends(p.index, q.index)
  {
  }

  /** GetUnusedRawAddress for a type in range: an address to receive with. */
  method GiveNext(n: Node, keyType: nat, ghost k: NodeState) returns (ra: Option<RawAddress>, ghost next: NodeState)
    requires Stands(n, k) && NodeInv(k) && keyType < KEY_TYPE_COUNT
    modifies n.wallet.index`state, n.wallet.index.repr
    ensures WellFormed(k.run.wallet.index) && next == NodeStep(k, Gives(keyType))
    ensures Stands(n, next) && NodeInv(next)
    ensures ra.None? ==> next == k
  {
    hide *;
    StandsParts(n, k);
    FollowsParts(n.wallet, k.run);
    MessageSending.FollowsIndex(n.wallet, k.run);
    MessageSending.ValidParts(n.rs);
    var address := n.wallet.index.GetUnusedAddress(keyType);
    ra := if address == null then None else Some(address.address);
    GiveSteps(k, keyType);
    next := NodeStep(k, Gives(keyType));
    if address == null {
      FollowsAgain(n.wallet, k.run);
    } else {
      FollowsGrown(n.wallet, k.run);
    }
    MessageSending.FollowsIndex(n.wallet, next.run);
    MessageSending.StillValid(n.rs, k.run.wallet.index);
    StandsAgain(n, next);
    NextKeeps(k, Gives(keyType));
  }

  lemma GiveSteps(k: NodeState, t: nat)
    requires WellFormed(k.run.wallet.index) && t < KEY_TYPE_COUNT
    ensures Happens(k, Gives(t)) && |k.run.wallet.index.lists| == KEY_TYPE_COUNT
    ensures var ix := k.run.wallet.index;
            var free := FirstFree(ix.lists[t]);
            && Extends(ix, ix)
            && (free.None? ==> NodeStep(k, Gives(t)) == k)
            && (free.Some? ==>
                  && ValidRef(ix, Listed(t, free.value)) && Extends(ix, Give(ix, Listed(t, free.value)))
                  && NodeStep(k, Gives(t)) == k.(run := Step(k.run, Grow(Give(ix, Listed(t, free.value))))))
  {
    var ix := k.run.wallet.index;
    ExtendsReflexive(ix);
    if FirstFree(ix.lists[t]).Some? {
      GiveGrows(k.run, Listed(t, FirstFree(ix.lists[t]).value));
    }
  }

  /**
   InitiateRelationship, with a fresh random seed: the relationship it stores is under a key that no
   earlier initiation used.
   */
  method InitiateNext(n: Node, receivers: seq<PublicKey>, seed: Bytes, flag: Bytes, key: Hash32, out: Outside, ghost k: NodeState)
    returns (e: Option<InitiateError>, msg: Tx, ghost event: NodeEvent, ghost next: NodeState)
    requires Stands(n, k) && NodeInv(k)
    requires forall j :: 0 <= j < |k.relationships| ==> k.relationships[j].seed != seed
    modifies n.rs, n.wallet`txs, n.wallet.index, n.wallet.index.repr, n.wallet.ledger, n.wallet.ledger.repr
    ensures WellFormed(k.run.wallet.index) && event.Initiates? && Happens(k, event) && next == NodeStep(k, event)
    ensures Stands(n, next) && NodeInv(next)
    ensures e.Some? ==> next.relationships == k.relationships && next.initiated == k.initiated
    ensures e.None? ==>
              && event.what.picked !in k.initiated
              && next.relationships == k.relationships + [InitiatedBy(k, event.what, msg)]
  {
    hide *;
    StandsParts(n, k);
    MessageSending.PartiesAre(n.rs);
    ghost var picked, events;
    e, msg, picked, events := InitiateRelationship(n.wallet, n.rs, receivers, seed, flag, key, out, k.run);
    MessageSending.PartiesAre(n.rs);
    ghost var what := Initiation(receivers, seed, flag, key, picked);
    event := Initiates(what, msg, e, events);
    FreshSeedDistinct(k, what, msg);
    InitiateSteps(k, what, msg, e, events);
    SignedNode(k);
    next := NodeStep(k, event);
    InitiateKeepsNode(k, event);
    StandsAgain(n, next);
  }

  lemma SignedNode(k: NodeState)
    requires NodeInv(k)
    ensures Signed(k.run.wallet) && DistinctChains(k.relationships)
  {
  }

  lemma FreshSeedDistinct(k: NodeState, what: Initiation, msg: Tx)
    requires NodeInv(k) && forall j :: 0 <= j < |k.relationships| ==> k.relationships[j].seed != what.seed
    ensures DistinctChains(k.relationships + [InitiatedBy(k, what, msg)])
  {
    hide WalletInv, ReservedBehind;
  }

  lemma InitiateSteps(k: NodeState, what: Initiation, msg: Tx, e: Option<InitiateError>, events: seq<LedgerRun.Event>)
    requires WellFormed(k.run.wallet.index) && InitiateGuarantee(k.run, what.receivers, what.picked, msg, e, events)
    requires events != [] ==> PickedKey(k.run.wallet.index) == Some(what.picked)
    requires DistinctChains(k.relationships + [InitiatedBy(k, what, msg)])
    ensures var event := Initiates(what, msg, e, events);
            && Happens(k, event)
            && (e.Some? ==> NodeStep(k, event) == k.(run := Run(k.run, events)))
            && (e.None? ==>
                  var q := Enroll(Party(Run(k.run, events).wallet.index, k.relationships),
                                  Initiated(TxId(msg), k.run.wallet.index.wallet, what.picked, what.seed, what.flag, what.key,
                                            what.receivers));
                  && q.relationships == k.relationships + [InitiatedBy(k, what, msg)]
                  && NodeStep(k, event) == NodeState(Step(Run(k.run, events), Grow(q.index)), q.relationships,
                                                     k.initiated + [what.picked]))
  {
    hide Run, Step, WellFormed, InitiateGuarantee;
  }

  /** AcceptRelationship and SendMessage. */
  method SendNext(n: Node, r: Relationship, ghost j: nat, kind: P.Kind, out: Outside, ghost k: NodeState)
    returns (e: Option<SendError>, msg: Tx, ghost event: NodeEvent, ghost next: NodeState)
    requires Stands(n, k) && NodeInv(k) && Tracks(n.rs.list, r, Some(j))
    modifies n.wallet`txs, n.wallet.index, n.wallet.index.repr, n.wallet.ledger, n.wallet.ledger.repr, n.rs`states, r, n.rs.own
    ensures WellFormed(k.run.wallet.index) && event.Sends? && event.at == j
    ensures Happens(k, event) && next == NodeStep(k, event)
    ensures Stands(n, next) && NodeInv(next) && n.rs.list == old(n.rs.list)
    ensures j < |k.relationships| && (P.MaySend(k.relationships[j], kind) <==> e != Some(NotAllowed))
    ensures e.Some? ==> next.relationships == k.relationships
  {
    hide *;
    StandsParts(n, k);
    MessageSending.PartiesAre(n.rs);
    var receivers, sealedWith;
    ghost var events, funded;
    e, msg, receivers, sealedWith, events, funded := MessageSending.SendMessage(n.wallet, n.rs, r, j, kind, out, k.run);
    MessageSending.PartiesAre(n.rs);
    event := Sends(j, kind, n.wallet.dustLimit, msg, e, events);
    SendSteps(k, j, kind, n.wallet.dustLimit, msg, e, events);
    SignedNode(k);
    next := NodeStep(k, event);
    NextKeeps(k, event);
    StandsAgain(n, next);
  }

  lemma SendSteps(k: NodeState, j: nat, kind: P.Kind, dust: nat, msg: Tx, e: Option<SendError>, events: seq<LedgerRun.Event>)
    requires WellFormed(k.run.wallet.index) && j < |k.relationships|
    requires SendGuarantee(k.run, k.relationships[j], dust, msg, e, events)
    ensures var event := Sends(j, kind, dust, msg, e, events);
            && Happens(k, event)
            && (e.Some? ==> NodeStep(k, event) == k.(run := Run(k.run, events)))
            && (e.None? ==>
                  var q := P.AfterSend(Party(Run(k.run, events).wallet.index, k.relationships), j, kind);
                  NodeStep(k, event) == k.(run := Step(Run(k.run, events), Grow(q.index)), relationships := q.relationships))
  {
    hide Run, Step, WellFormed, SendGuarantee, P.AfterSend;
  }

  // ----- restarts -----

  /** Everything the node stores can be written: the library reads its terms back and its counts fit. */
  ghost predicate Writable(c: Codec.Library, n: Node)
    reads n.wallet.index, n.wallet.ledger, n.rs
  {
    && WalletRestore.WritableIndex(c, n.wallet.index.state, n.wallet.index.hashes)
    && WalletRestore.WritableLedger(c, n.wallet.ledger.utxos)
    && |n.rs.states| < Codec.Pow256(8)
    && forall j :: 0 <= j < |n.rs.states| ==>
         RelationshipStore.Storable(c, n.rs.states[j]) && RelationshipStore.ShortTerms(n.rs.states[j])
  }

  /** Prepare, after a load: the gaps were exact, so nothing is added. */
  method PrepareLoaded(index: AddressIndex, ghost ix: IndexState)
    requires index.Valid() && index.state == Reloaded(ix) && WellFormed(ix) && ExactGap(ix)
    modifies index
    ensures index.Valid() && index.state == Reloaded(ix) && fresh(index.repr - old(index.repr))
  {
    hide AddressIndex.Valid, WellFormed, ExactGap, Reloaded, AddressSpec.Scan;
    for t := 0 to KEY_TYPE_COUNT
      invariant index.Valid() && index.state == Reloaded(ix) && fresh(index.repr - old(index.repr))
    {
      WalletRestore.ReloadedScanIdle(ix, t);
      index.ForwardScan(t);
    }
  }

  /** The relationships, saved and loaded over the reloaded index. */
  method ReloadRelationships(c: Codec.Library, before: Relationships, index: AddressIndex) returns (rs: Relationships)
    requires before.Valid() && index.Valid() && index.wallet == before.index.wallet
    requires index.state == Reloaded(before.index.state)
    requires |before.states| < Codec.Pow256(8)
    requires forall j :: 0 <= j < |before.states| ==>
               && RelationshipStore.Storable(c, before.states[j]) && RelationshipStore.ShortTerms(before.states[j])
               && OnChain(before.states[j], index.wallet)
    ensures fresh(rs) && rs.Valid() && rs.index == index && rs.states == before.states
  {
    hide *;
    var data := RelationshipStore.Serialize(c, before);
    rs := new Relationships(index);
    RelationshipStore.LoadRestores(c, index.wallet, before.states);
    var ok := RelationshipStore.Load(c, rs, data);
    LoadedValid(before, rs);
  }

  lemma LoadedValid(before: Relationships, rs: Relationships)
    requires before.Valid() && RelationshipStore.Held(rs) && rs.states == before.states
    requires rs.index.Valid() && rs.index.state == Reloaded(before.index.state)
    ensures rs.Valid()
  {
    hide AddressIndex.Valid, StatesOf;
    forall i | 0 <= i < |rs.list| ensures ValidRef(rs.index.state, Listed(rs.list[i].keyType, rs.list[i].keyIndex)) {
      assert rs.list[i].State() == before.list[i].State();
      MessageSending.StateFields(rs.list[i]);
      MessageSending.StateFields(before.list[i]);
    }
  }

  lemma ReloadedIndexed(before: Wallet, index: AddressIndex, ledger: Ledger)
    requires before.Valid() && index.state == Reloaded(before.index.state)
    requires ledger.Valid() && ledger.State() == before.ledger.State()
    ensures Indexed(ledger.entries, index.state)
  {
    hide AddressIndex.Valid, Bucketed, Filed;
    forall p | p in ledger.entries ensures ValidRef(index.state, Listed(ledger.entries[p].keyType, ledger.entries[p].keyIndex)) {
      assert p in ledger.State() && ledger.State()[p] == ledger.entries[p].Entry();
      assert p in before.ledger.State() && before.ledger.State()[p] == before.ledger.entries[p].Entry();
    }
  }

  /** The promoted ones among the transactions that are still known. */
  ghost function PromotedOf(known: map<Tx, Transaction>): set<Tx>
    reads known.Values
  {
    set t | t in known && known[t].promoted
  }

  /** Index and ledger, saved, loaded and prepared. */
  method ReloadStores(c: Codec.Library, before: Wallet, ghost s: RunState) returns (index: AddressIndex, ledger: Ledger)
    requires Follows(before, s) && ExactGap(s.wallet.index)
    requires WalletRestore.WritableIndex(c, before.index.state, before.index.hashes)
    requires WalletRestore.WritableLedger(c, before.ledger.utxos)
    ensures index.Valid() && ledger.Valid() && Indexed(ledger.entries, index.state)
    ensures index.state == Reloaded(s.wallet.index) && ledger.State() == s.wallet.ledger
  {
    hide *;
    WalletParts(before, s);
    index, ledger := WalletRestore.Restart(c, before.index, before.ledger);
    ReloadedIndexed(before, index, ledger);
    PrepareLoaded(index, s.wallet.index);
  }

  lemma WalletParts(w: Wallet, s: RunState)
    requires Follows(w, s)
    ensures w.Valid() && w.index.Valid() && w.ledger.Valid() && WellFormed(s.wallet.index)
    ensures w.index.state == s.wallet.index && w.ledger.State() == s.wallet.ledger
    ensures w.index.wallet == s.wallet.index.wallet
  {
  }

  method ReloadWallet(c: Codec.Library, before: Wallet, known: map<Tx, Transaction>, ghost s: RunState) returns (w: Wallet)
    requires Follows(before, s) && ExactGap(s.wallet.index)
    requires WalletRestore.WritableIndex(c, before.index.state, before.index.hashes)
    requires WalletRestore.WritableLedger(c, before.ledger.utxos)
    requires forall t :: t in known ==> known[t].tx == t
    ensures Follows(w, Restarted(s, known.Keys, PromotedOf(known))) && w.dustLimit == before.dustLimit
  {
    hide *;
    var index, ledger := ReloadStores(c, before, s);
    w := new Wallet.Loaded(index, ledger, before.dustLimit, known);
    LoadedFollows(w, s);
  }

  lemma LoadedFollows(w: Wallet, s: RunState)
    requires w.Valid() && w.index.state == Reloaded(s.wallet.index) && w.ledger.State() == s.wallet.ledger
    requires forall t :: t in w.txs ==> w.txs[t].tx == t
    ensures Follows(w, Restarted(s, w.txs.Keys, PromotedOf(w.txs)))
  {
    hide AddressIndex.Valid, Ledger.Valid, Ledger.State;
  }

  /**
   Saving and loading wallet and relationships: the node that starts again, whatever transactions it still
   knows, stands in the next state of the run, and every other operation can follow.
   */
  method RestartNext(c: Codec.Library, n: Node, known: map<Tx, Transaction>, ghost k: NodeState)
    returns (m: Node, ghost next: NodeState)
    requires Stands(n, k) && NodeInv(k) && Writable(c, n)
    requires forall t :: t in known ==> known[t].tx == t
    ensures WellFormed(k.run.wallet.index) && next == NodeStep(k, Restarts(known.Keys, PromotedOf(known)))
    ensures Stands(m, next) && NodeInv(next)
  {
    hide *;
    StandsParts(n, k);
    RestartSteps(k, known.Keys, PromotedOf(known));
    WalletParts(n.wallet, k.run);
    WritableParts(c, n);
    NodeOnChain(k);
    next := NodeStep(k, Restarts(known.Keys, PromotedOf(known)));
    var w := ReloadWallet(c, n.wallet, known, k.run);
    WalletParts(w, next.run);
    var rs := ReloadRelationships(c, n.rs, w.index);
    m := new Node(w, rs);
    StandsAgain(m, next);
    NextKeeps(k, Restarts(known.Keys, PromotedOf(known)));
  }

  lemma WritableParts(c: Codec.Library, n: Node)
    requires Writable(c, n)
    ensures WalletRestore.WritableIndex(c, n.wallet.index.state, n.wallet.index.hashes)
    ensures WalletRestore.WritableLedger(c, n.wallet.ledger.utxos)
    ensures |n.rs.states| < Codec.Pow256(8)
    ensures forall j :: 0 <= j < |n.rs.states| ==>
              RelationshipStore.Storable(c, n.rs.states[j]) && RelationshipStore.ShortTerms(n.rs.states[j])
  {
  }

  lemma NodeOnChain(k: NodeState)
    requires NodeInv(k)
    ensures forall j :: 0 <= j < |k.relationships| ==> OnChain(k.relationships[j], k.run.wallet.index.wallet)
  {
    forall j | 0 <= j < |k.relationships| ensures OnChain(k.relationships[j], k.run.wallet.index.wallet) {
      assert Chained(k.relationships[j], k.run.wallet.index);
    }
  }

  lemma RestartSteps(k: NodeState, handled: set<Tx>, finalized: set<Tx>)
    requires WellFormed(k.run.wallet.index) && NodeInv(k)
    ensures Happens(k, Restarts(handled, finalized)) && ExactGap(k.run.wallet.index)
    ensures Restarted(k.run, handled, finalized).wallet.index == Reloaded(k.run.wallet.index)
    ensures Reloaded(k.run.wallet.index).wallet == k.run.wallet.index.wallet
    ensures NodeStep(k, Restarts(handled, finalized)) == k.(run := Restarted(k.run, handled, finalized))
  {
  }
}
