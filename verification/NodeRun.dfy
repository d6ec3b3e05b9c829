/**
 Whole runs of a node: transactions fed, confirmed and reversed by the network, their messages processed,
 addresses given out, restarts, and every call of InitiateRelationship, AcceptRelationship and
 SendMessage, successful or not. The wallet and the stored relationships move together.
 */
module NodeRuns {
  import opened Results
  import opened Bitcoin
  import opened AddressSpec
  import opened LedgerSpec
  import opened FeedOrder
  import opened LedgerRun
  import opened Signing
  import opened FundingSpec
  import opened UniqueKeys
  import opened Ratchet
  import opened RatchetLaws
  import opened KeyGrowth
  import opened Initiate
  import opened Initiating
  import opened MessageSending
  import opened Ledgers
  import F = FundingRuns
  import N = Nodes
  import P = Protocol

  /** `initiated` is history: the keys of the initiated relationships, in order. */
  datatype NodeState = NodeState(run: RunState, relationships: seq<RelationshipState>, initiated: seq<nat>)

  /** What an initiation is about: the receivers, the fresh seed, flag and key, and the key picked. */
  datatype Initiation = Initiation(receivers: seq<PublicKey>, seed: Bytes, flag: Bytes, key: Hash32, picked: nat)

  datatype NodeEvent =
    | Feeds(tx: Tx, kept: bool)
    | Processes(tx: Tx, contents: N.Contents)
    | Reverses(tx: Tx)
    | Gives(keyType: nat)
    | Restarts(handled: set<Tx>, finalized: set<Tx>)
    | Initiates(what: Initiation, msg: Tx, initiateError: Option<InitiateError>, events: seq<Event>)
    | Sends(at: nat, kind: P.Kind, dust: nat, msg: Tx, sendError: Option<SendError>, events: seq<Event>)

  function PartyOf(s: NodeState): Party {
    Party(s.run.wallet.index, s.relationships)
  }

  /** No two relationships are under the same key with the same seed. */
  predicate DistinctChains(rs: seq<RelationshipState>) {
    forall i, j :: 0 <= i < j < |rs| ==>
      !(rs[i].keyType == rs[j].keyType && rs[i].keyIndex == rs[j].keyIndex && rs[i].seed == rs[j].seed)
  }

  function Processed(s: NodeState, tx: Tx, contents: N.Contents): N.Outcome {
    N.ProcessAll(PartyOf(s), tx, FlagOf(tx.outputs), contents, 0)
  }

  function InitiatedBy(s: NodeState, what: Initiation, msg: Tx): RelationshipState {
    Initiated(TxId(msg), s.run.wallet.index.wallet, what.picked, what.seed, what.flag, what.key, what.receivers)
  }

  /**
   Calls do what their methods promise and nothing else is asked of them. Of the messages of others it is
   asked that they crash nothing, join by list keys, and bring no seed that is already in use under the
   same key; of our own seeds, which are random, the same.
   */
  ghost predicate Happens(s: NodeState, e: NodeEvent)
    requires WellFormed(s.run.wallet.index)
  {
    match e
    case Processes(tx, contents) =>
      tx in s.run.handled && tx !in s.run.finalized ==>
        var o := Processed(s, tx, contents);
        && !o.Crashed? && N.JoinsByListKeys(PartyOf(s), tx, FlagOf(tx.outputs), contents, 0)
        && DistinctChains(o.party.relationships)
    case Initiates(what, msg, error, events) =>
      && InitiateGuarantee(s.run, what.receivers, what.picked, msg, error, events)
      && (events != [] ==> PickedKey(s.run.wallet.index) == Some(what.picked))
      && (error.None? ==> DistinctChains(s.relationships + [InitiatedBy(s, what, msg)]))
    case Sends(at, kind, dust, msg, error, events) =>
      at < |s.relationships| && SendGuarantee(s.run, s.relationships[at], dust, msg, error, events)
    case _ => true
  }

  /** The index and relationships of `q`, as a growth of the index in the run. */
  ghost function WithParty(s: NodeState, q: Party): (r: NodeState)
    requires WellFormed(s.run.wallet.index)
    ensures WellFormed(r.run.wallet.index)
  {
    s.(run := Step(s.run, Grow(q.index)), relationships := q.relationships)
  }

  ghost function NodeStep(s: NodeState, e: NodeEvent): (r: NodeState)
    requires WellFormed(s.run.wallet.index)
    ensures WellFormed(r.run.wallet.index)
  {
    match e
    case Feeds(tx, kept) => s.(run := Step(s.run, Feed(tx, kept)))
    case Processes(tx, contents) =>
      if tx !in s.run.handled || tx in s.run.finalized || Processed(s, tx, contents).Crashed? then s
      else WithParty(s.(run := Step(s.run, Confirm(tx))), Processed(s, tx, contents).party)
    case Reverses(tx) => s.(run := Step(s.run, Reverse(tx)))
    case Gives(t) =>
      if t < |s.run.wallet.index.lists| && FirstFree(s.run.wallet.index.lists[t]).Some?
      then WithParty(s, PartyOf(s).(index := Give(s.run.wallet.index, Listed(t, FirstFree(s.run.wallet.index.lists[t]).value))))
      else s
    case Restarts(handled, finalized) =>
      ReloadedKeeps(s.run.wallet);
      s.(run := Restarted(s.run, handled, finalized))
    case Initiates(what, msg, error, events) =>
      var t := s.(run := Run(s.run, events));
      if error.Some? then t
      else WithParty(t.(initiated := t.initiated + [what.picked]), Enroll(PartyOf(t), InitiatedBy(s, what, msg)))
    case Sends(at, kind, _, _, error, events) =>
      var t := s.(run := Run(s.run, events));
      if error.Some? || at >= |s.relationships| then t else WithParty(t, P.AfterSend(PartyOf(t), at, kind))
  }

  ghost function NodeRun(s: NodeState, events: seq<NodeEvent>): (r: NodeState)
    requires WellFormed(s.run.wallet.index)
    ensures WellFormed(r.run.wallet.index)
  {
    if events == [] then s else NodeStep(NodeRun(s, events[..|events| - 1]), events[|events| - 1])
  }

  // ----- the invariant -----

  /** Every initiated key is used, and no two are the same. */
  ghost predicate KeysUnique(ix: IndexState, initiated: seq<nat>) {
    && (forall n :: 0 <= n < |initiated| ==> MarkedAt(ix, KEY_TYPE_RELATE_OUT, initiated[n]))
    && (forall m, n :: 0 <= m < n < |initiated| ==> initiated[m] != initiated[n])
  }

  /** What holds of the wallet. */
  ghost predicate WalletInv(run: RunState, initiated: seq<nat>) {
    && Signed(run.wallet) && EntriesMarked(run.wallet) && ExactGap(run.wallet.index)
    && KeysUnique(run.wallet.index, initiated) && SpentOnce(run)
  }

  /** Position `k` of relationship `j` is the derived key, and lies behind its next one. */
  predicate Behind(rs: seq<RelationshipState>, j: nat, k: nat, t: nat, i: nat, h: Hash32) {
    && j < |rs| && 1 <= k < rs[j].nextIndex
    && rs[j].keyType == t && rs[j].keyIndex == i && h == Chain(rs[j].seed, k)
  }

  /** A reserved entry of a derived relationship key is under a key its relationship is done with. */
  ghost predicate ReservedBehind(run: RunState, rs: seq<RelationshipState>) {
    forall p, t, i, h ::
      Reserved(run, p) && IsRelateType(t) && PaysTo(p, NextPublicKey(ChildKey(run.wallet.index.wallet, t, i), h)) ==>
        exists j: nat, k: nat :: Behind(rs, j, k, t, i, h)
  }

  /** What holds of the relationships. */
  ghost predicate ChainsInv(rs: seq<RelationshipState>, ix: IndexState) {
    && (forall j :: 0 <= j < |rs| ==> Chained(rs[j], ix) && ValidRef(ix, Listed(rs[j].keyType, rs[j].keyIndex)))
    && DistinctChains(rs)
  }

  ghost predicate NodeInv(s: NodeState) {
    && WalletInv(s.run, s.initiated) && ChainsInv(s.relationships, s.run.wallet.index)
    && ReservedBehind(s.run, s.relationships)
  }

  // ----- unique keys -----

  lemma UniqueExtends(ix: IndexState, later: IndexState, initiated: seq<nat>)
    requires KeysUnique(ix, initiated) && Extends(ix, later)
    ensures KeysUnique(later, initiated)
  {
    hide Extends;
    forall n | 0 <= n < |initiated| ensures MarkedAt(later, KEY_TYPE_RELATE_OUT, initiated[n]) {
      MarkedExtends(ix, later, KEY_TYPE_RELATE_OUT, initiated[n]);
    }
  }

  lemma UniqueReloads(ix: IndexState, initiated: seq<nat>)
    requires KeysUnique(ix, initiated)
    ensures KeysUnique(Reloaded(ix), initiated)
  {
    forall n | 0 <= n < |initiated| ensures MarkedAt(Reloaded(ix), KEY_TYPE_RELATE_OUT, initiated[n]) {
      ReloadedMarks(ix, KEY_TYPE_RELATE_OUT, initiated[n]);
    }
  }

  /** The key picked is unmarked, so it is none of the earlier ones. */
  lemma UniqueAppend(ix: IndexState, later: IndexState, initiated: seq<nat>, picked: nat)
    requires KeysUnique(ix, initiated) && Extends(ix, later)
    requires PickedKey(ix) == Some(picked) && MarkedAt(later, KEY_TYPE_RELATE_OUT, picked)
    ensures KeysUnique(later, initiated + [picked]) && picked !in initiated
  {
    hide Extends;
    UniqueExtends(ix, later, initiated);
    PickedUnmarked(ix, picked);
  }

  lemma PickedUnmarked(ix: IndexState, picked: nat)
    requires PickedKey(ix) == Some(picked)
    ensures !MarkedAt(ix, KEY_TYPE_RELATE_OUT, picked) && ValidRef(ix, Listed(KEY_TYPE_RELATE_OUT, picked))
  {
  }

  // ----- keys of chains -----

  /** Chains of different seeds never meet. */
  lemma {:induction false} ChainsApart(a: Bytes, i: nat, b: Bytes, j: nat)
    requires i >= 1 && j >= 1
    ensures Chain(a, i) == Chain(b, j) <==> a == b && i == j
  {
    if i > 1 && j > 1 {
      ChainsApart(a, i - 1, b, j - 1);
    }
  }

  /** Nothing reserved pays the next key of a relationship. */
  lemma NextKeyFree(s: NodeState, at: nat)
    requires NodeInv(s) && at < |s.relationships|
    ensures var r := s.relationships[at];
            && IsRelateType(r.keyType)
            && NoneReserved(s.run.wallet.ledger,
                            NextPublicKey(ChildKey(s.run.wallet.index.wallet, r.keyType, r.keyIndex), r.nextHash))
  {
    hide WalletInv, PaysTo;
    var r := s.relationships[at];
    var key := NextPublicKey(ChildKey(s.run.wallet.index.wallet, r.keyType, r.keyIndex), r.nextHash);
    assert Chained(r, s.run.wallet.index);
    forall p | p in s.run.wallet.ledger && s.run.wallet.ledger[p].reserved ensures !PaysTo(p, key) {
      if PaysTo(p, key) {
        assert Reserved(s.run, p);
        var j: nat, k: nat :| Behind(s.relationships, j, k, r.keyType, r.keyIndex, r.nextHash);
        ChainsApart(s.relationships[j].seed, k, r.seed, r.nextIndex);
      }
    }
  }

  /** Chains that moved forward leave behind what they left behind. */
  lemma BehindAdvances(rs: seq<RelationshipState>, later: seq<RelationshipState>, j: nat, k: nat, t: nat, i: nat, h: Hash32)
    requires Behind(rs, j, k, t, i, h) && |rs| <= |later| && Advanced(rs[j], later[j])
    ensures Behind(later, j, k, t, i, h)
  {
  }

  /** What is reserved stays behind when nothing but bitcoin and one used key is reserved in addition. */
  lemma ReservedStaysBehind(run: RunState, rs: seq<RelationshipState>, next: RunState, later: seq<RelationshipState>,
                            sent: bool, key: PublicKey)
    requires ReservedBehind(run, rs) && next.wallet.index.wallet == run.wallet.index.wallet
    requires |rs| <= |later| && forall j :: 0 <= j < |rs| ==> Advanced(rs[j], later[j])
    requires forall p :: Reserved(next, p) ==> Reserved(run, p) || PaysBitcoin(p) || (sent && PaysTo(p, key))
    requires forall t, i, h :: sent && key == NextPublicKey(ChildKey(run.wallet.index.wallet, t, i), h) ==>
               exists j: nat, k: nat :: Behind(later, j, k, t, i, h)
    ensures ReservedBehind(next, later)
  {
    hide Reserved, Advanced, Behind;
    var wallet := run.wallet.index.wallet;
    forall p, t, i, h | Reserved(next, p) && IsRelateType(t) && PaysTo(p, NextPublicKey(ChildKey(wallet, t, i), h))
      ensures exists j: nat, k: nat :: Behind(later, j, k, t, i, h)
    {
      RelateIsNotBitcoin(p, wallet, t, i, h);
      if Reserved(run, p) {
        var j: nat, k: nat :| Behind(rs, j, k, t, i, h);
        BehindIn(rs, j, k, t, i, h);
        BehindAdvances(rs, later, j, k, t, i, h);
      }
    }
  }

  lemma BehindIn(rs: seq<RelationshipState>, j: nat, k: nat, t: nat, i: nat, h: Hash32)
    requires Behind(rs, j, k, t, i, h)
    ensures j < |rs|
  {
  }

  lemma RelateIsNotBitcoin(p: OutPoint, wallet: nat, t: nat, i: nat, h: Hash32)
    requires IsRelateType(t) && PaysTo(p, NextPublicKey(ChildKey(wallet, t, i), h))
    ensures !PaysBitcoin(p)
  {
    assert RootType(ChildKey(wallet, t, i)) == Some(t);
  }

  // ----- the wallet's share of each event -----

  /** An event of the network, or rightly registered keys, keep what holds of the wallet. */
  lemma WorkKeeps(run: RunState, initiated: seq<nat>, e: Event)
    requires WellFormed(run.wallet.index) && WalletInv(run, initiated) && !e.Broadcast?
    requires e.Grow? && ValidGrowth(run, e.index) ==> KeysCoherent(e.index) && ExactGap(e.index)
    ensures WalletInv(Step(run, e), initiated)
    ensures Step(run, e).wallet.index.wallet == run.wallet.index.wallet
    ensures forall p :: Reserved(Step(run, e), p) ==> Reserved(run, p)
  {
    hide Step, KeysUnique, EntriesMarked, KeysCoherent, LedgerSigns, WellFormed, ExactGap, SpentOnce, Reserved;
    StepKeepsSigning(run, e);
    StepMarked(run, e);
    StepExtends(run, e);
    WalletKept(run.wallet.index, Step(run, e).wallet.index);
    StepKeepsGap(run, e);
    UniqueExtends(run.wallet.index, Step(run, e).wallet.index, initiated);
    StepKeepsOnce(run, e);
    forall p | Reserved(Step(run, e), p) ensures Reserved(run, p) {
      ReservedFrom(run, e, p);
    }
  }

  lemma WalletKept(ix: IndexState, later: IndexState)
    requires Extends(ix, later)
    ensures later.wallet == ix.wallet && later.gap == ix.gap
    ensures forall t: nat, i: nat :: ValidRef(ix, Listed(t, i)) ==> ValidRef(later, Listed(t, i))
  {
  }

  lemma StepKeepsGap(run: RunState, e: Event)
    requires WellFormed(run.wallet.index) && ExactGap(run.wallet.index)
    requires e.Grow? && ValidGrowth(run, e.index) ==> ExactGap(e.index)
    ensures ExactGap(Step(run, e).wallet.index)
  {
    if !e.Grow? {
      StepExactGap(run, e);
    }
  }

  /** So does a call that selects safely. */
  lemma CallKeeps(run: RunState, initiated: seq<nat>, events: seq<Event>)
    requires WellFormed(run.wallet.index) && WalletInv(run, initiated)
    requires SelectedAll(run, events) && KeepsGap(run, events) && Signed(Run(run, events).wallet)
    ensures WalletInv(Run(run, events), initiated)
    ensures Extends(run.wallet.index, Run(run, events).wallet.index)
  {
    hide Run, KeysUnique, EntriesMarked, Signed, WellFormed, ExactGap, SpentOnce, SelectedAll, Extends;
    RunMarked(run, events);
    RunExtends(run, events);
    UniqueExtends(run.wallet.index, Run(run, events).wallet.index, initiated);
    CallKeepsOnce(run, events);
  }

  // ----- each event -----

  lemma ChainsExtend(rs: seq<RelationshipState>, ix: IndexState, later: IndexState)
    requires ChainsInv(rs, ix) && Extends(ix, later)
    ensures ChainsInv(rs, later)
  {
    hide Extends, ValidRef, Chained, DistinctChains;
    WalletKept(ix, later);
    forall j | 0 <= j < |rs| ensures Chained(rs[j], later) {
      ChainedExtends(rs[j], ix, later);
    }
  }

  lemma SameAdvanced(rs: seq<RelationshipState>)
    ensures forall j :: 0 <= j < |rs| ==> Advanced(rs[j], rs[j])
  {
  }

  /** Events that leave the relationships alone. */
  lemma WorkKeepsNode(s: NodeState, e: Event)
    requires NodeInv(s) && WellFormed(s.run.wallet.index) && !e.Broadcast?
    requires e.Grow? && ValidGrowth(s.run, e.index) ==> KeysCoherent(e.index) && ExactGap(e.index)
    ensures NodeInv(s.(run := Step(s.run, e)))
  {
    hide Step, WalletInv, ChainsInv, KeysCoherent, ExactGap, WellFormed, Extends, ReservedBehind, Reserved, Advanced;
    WorkKeeps(s.run, s.initiated, e);
    StepExtends(s.run, e);
    ChainsExtend(s.relationships, s.run.wallet.index, Step(s.run, e).wallet.index);
    SameAdvanced(s.relationships);
    ReservedStaysBehind(s.run, s.relationships, Step(s.run, e), s.relationships, false, NoKey);
  }

  /** Relationships that moved forward, with keys registered rightly for them. */
  lemma PartyKeeps(s: NodeState, q: Party)
    requires NodeInv(s) && WellFormed(s.run.wallet.index) && Grew(PartyOf(s), q) && DistinctChains(q.relationships)
    ensures NodeInv(WithParty(s, q))
  {
    hide Step, WalletInv, KeysCoherent, Extends, ReservedBehind, Reserved, Advanced, ExactGap, DistinctChains, WellFormed;
    GrewParts(s, q);
    WorkKeeps(s.run, s.initiated, Grow(q.index));
    ReservedStaysBehind(s.run, s.relationships, WithParty(s, q).run, q.relationships, false, NoKey);
  }

  lemma GrewParts(s: NodeState, q: Party)
    requires NodeInv(s) && WellFormed(s.run.wallet.index) && Grew(PartyOf(s), q) && DistinctChains(q.relationships)
    ensures ValidGrowth(s.run, q.index) && KeysCoherent(q.index) && ExactGap(q.index)
    ensures Step(s.run, Grow(q.index)).wallet.index == q.index
    ensures |s.relationships| <= |q.relationships|
    ensures forall j :: 0 <= j < |s.relationships| ==> Advanced(s.relationships[j], q.relationships[j])
    ensures ChainsInv(q.relationships, q.index)
  {
    hide Chained;
    forall j | 0 <= j < |q.relationships| ensures Chained(q.relationships[j], q.index) {
      if j < |s.relationships| {
        assert Chained(s.relationships[j], s.run.wallet.index);
      }
    }
  }

  lemma ProcessKeepsNode(s: NodeState, tx: Tx, contents: N.Contents)
    requires NodeInv(s) && WellFormed(s.run.wallet.index) && Happens(s, Processes(tx, contents))
    ensures NodeInv(NodeStep(s, Processes(tx, contents)))
  {
    hide Step, NodeInv, WellFormed, Grew, N.ProcessAll, N.JoinsByListKeys, DistinctChains;
    if tx in s.run.handled && tx !in s.run.finalized {
      NodeSound(s);
      N.AllGrow(PartyOf(s), tx, FlagOf(tx.outputs), contents, 0);
      var t := s.(run := Step(s.run, Confirm(tx)));
      WorkKeepsNode(s, Confirm(tx));
      ConfirmIndex(s.run, tx);
      PartyKeeps(t, Processed(s, tx, contents).party);
    }
  }

  lemma ConfirmIndex(run: RunState, tx: Tx)
    requires WellFormed(run.wallet.index)
    ensures Step(run, Confirm(tx)).wallet.index == run.wallet.index
  {
  }

  lemma NodeSound(s: NodeState)
    requires NodeInv(s)
    ensures Sound(PartyOf(s))
  {
  }

  lemma GiveKeepsNode(s: NodeState, t: nat)
    requires NodeInv(s) && WellFormed(s.run.wallet.index)
    ensures NodeInv(NodeStep(s, Gives(t)))
  {
    var ix := s.run.wallet.index;
    if t < |ix.lists| && FirstFree(ix.lists[t]).Some? {
      var ref := Listed(t, FirstFree(ix.lists[t]).value);
      GiveGrows(s.run, ref);
      ExtendsCoherent(ix, Give(ix, ref));
      WorkKeepsNode(s, Grow(Give(ix, ref)));
    }
  }

  lemma RestartKeepsNode(s: NodeState, handled: set<Tx>, finalized: set<Tx>)
    requires NodeInv(s) && WellFormed(s.run.wallet.index)
    ensures NodeInv(NodeStep(s, Restarts(handled, finalized)))
  {
    hide KeysUnique, EntriesMarked, KeysCoherent, LedgerSigns, ExactGap, WellFormed, Advanced;
    var next := Restarted(s.run, handled, finalized);
    ReloadedKeeps(s.run.wallet);
    UniqueReloads(s.run.wallet.index, s.initiated);
    assert forall p :: Reserved(next, p) <==> Reserved(s.run, p);
    assert SpentOnce(next);
    assert ChainsInv(s.relationships, next.wallet.index);
    SameAdvanced(s.relationships);
    ReservedStaysBehind(s.run, s.relationships, next, s.relationships, false, NoKey);
  }

  /** What an initiation leaves of the wallet, whether or not it succeeds. */
  lemma InitiateKeepsWallet(s: NodeState, e: NodeEvent)
    requires NodeInv(s) && WellFormed(s.run.wallet.index) && e.Initiates? && Happens(s, e)
    ensures var t := Run(s.run, e.events);
            && WalletInv(t, s.initiated) && Extends(s.run.wallet.index, t.wallet.index)
            && ReservedBehind(t, s.relationships)
  {
    hide Run, KeysUnique, EntriesMarked, Signed, WellFormed, ExactGap, SpentOnce, SelectedAll, Extends, ChainsInv, Reserved,
         PaysTo, PaysBitcoin, ReservedBehind, Advanced, KeepsGap, SafeExactly, InitiateShape;
    var what := e.what;
    var t := Run(s.run, e.events);
    if e.events == [] {
      RunStart(s.run);
      ExtendsReflexive(s.run.wallet.index);
    } else {
      PickedUnmarked(s.run.wallet.index, what.picked);
      CallKeeps(s.run, s.initiated, e.events);
      WalletKept(s.run.wallet.index, t.wallet.index);
      SameAdvanced(s.relationships);
      ReservedStaysBehind(s.run, s.relationships, t, s.relationships, e.initiateError.None?,
                          ChildKey(s.run.wallet.index.wallet, KEY_TYPE_RELATE_OUT, what.picked));
    }
  }

  /** The relationship an initiation stores, and the key it registers for it. */
  lemma EnrollGrows(p: Party, r: RelationshipState)
    requires Sound(p) && IsRelateType(r.keyType) && ValidRef(p.index, Listed(r.keyType, r.keyIndex))
    requires OnChain(r, p.index.wallet) && r.nextIndex == 1
    ensures Grew(p, Enroll(p, r))
  {
    hide KeysCoherent, Extends, OnChain;
    StartsOnChain(r, p.index.wallet);
    RightKeyGrows(p.index, r.nextKey, r.keyType, r.keyIndex, r.nextHash);
    KeptRelationships(p, Enroll(p, r));
    assert OwnKey(r, p.index.wallet, 1) == r.nextKey;
  }

  lemma StartsOnChain(r: RelationshipState, wallet: nat)
    requires OnChain(r, wallet) && r.nextIndex == 1
    ensures r.nextKey == NextPublicKey(ChildKey(wallet, r.keyType, r.keyIndex), r.nextHash) == OwnKey(r, wallet, 1)
  {
  }

  lemma InitiatedOnChain(s: NodeState, what: Initiation, msg: Tx)
    ensures var r := InitiatedBy(s, what, msg);
            OnChain(r, s.run.wallet.index.wallet) && r.nextIndex == 1 && IsRelateType(r.keyType)
  {
  }

  lemma InitiateKeepsNode(s: NodeState, e: NodeEvent)
    requires NodeInv(s) && WellFormed(s.run.wallet.index) && e.Initiates? && Happens(s, e)
    ensures NodeInv(NodeStep(s, e))
    ensures e.initiateError.None? ==> e.what.picked !in s.initiated
  {
    hide Run, WalletInv, Signed, WellFormed, Extends, ReservedBehind, InitiateGuarantee, ChainsInv, DistinctChains, Grew,
         PickedKey, MarkedAt, EntriesMarked, Step;
    var t := s.(run := Run(s.run, e.events));
    InitiateKeepsWallet(s, e);
    ChainsExtend(s.relationships, s.run.wallet.index, t.run.wallet.index);
    if e.initiateError.None? {
      InitiatedMarks(s, e);
      var u := t.(initiated := t.initiated + [e.what.picked]);
      var r := InitiatedBy(s, e.what, e.msg);
      NodeSound(u);
      InitiatedOnChain(s, e.what, e.msg);
      WalletKept(s.run.wallet.index, t.run.wallet.index);
      EnrollGrows(PartyOf(u), r);
      PartyKeeps(u, Enroll(PartyOf(u), r));
    }
  }

  /** The key of a successful initiation was unused and is used now. */
  lemma InitiatedMarks(s: NodeState, e: NodeEvent)
    requires NodeInv(s) && WellFormed(s.run.wallet.index) && e.Initiates? && Happens(s, e) && e.initiateError.None?
    requires WalletInv(Run(s.run, e.events), s.initiated)
    requires Extends(s.run.wallet.index, Run(s.run, e.events).wallet.index)
    ensures WalletInv(Run(s.run, e.events), s.initiated + [e.what.picked]) && e.what.picked !in s.initiated
    ensures ValidRef(Run(s.run, e.events).wallet.index, Listed(KEY_TYPE_RELATE_OUT, e.what.picked))
  {
    hide Run, KeysUnique, EntriesMarked, KeysCoherent, LedgerSigns, WellFormed, ExactGap, SpentOnce, SelectedAll, Extends,
         ChainsInv, ReservedBehind, KeepsGap, SafeExactly, InitiateShape, ReservesOnly, DistinctChains;
    UniqueAppend(s.run.wallet.index, Run(s.run, e.events).wallet.index, s.initiated, e.what.picked);
  }

  /** A send moves our chain by one and, in direct mode, the members' too. */
  lemma AfterSendGrows(p: Party, j: nat, kind: P.Kind)
    requires Sound(p) && j < |p.relationships|
    ensures var q := P.AfterSend(p, j, kind);
            && Grew(p, q) && |q.relationships| == |p.relationships|
            && q.relationships[j].nextIndex == p.relationships[j].nextIndex + 1
  {
    hide Grew, Sound, Chained, MembersOnChain;
    AdvanceGrows(p, j);
    var q := AdvanceOwn(p, j);
    GrewSound(p, q);
    if p.relationships[j].encryptionType == 0 {
      if Chained(q.relationships[j], q.index) {
        ChainedMembers(q.relationships[j], q.index);
        AllAdvanceOnChain(q.relationships[j].members, q.relationships[j].seed);
      }
      MembersKeepSound(q, j, AdvanceMembers(q.relationships[j].members));
      GrewMore(p, q, SendStep(p, j));
    }
    AcceptedGrows(p, SendStep(p, j), j);
  }

  lemma AllAdvanceOnChain(ms: seq<MemberState>, seed: Bytes)
    requires MembersOnChain(ms, seed)
    ensures MembersOnChain(AdvanceMembers(ms), seed)
  {
  }

  lemma SameKeysDistinct(rs: seq<RelationshipState>, later: seq<RelationshipState>)
    requires DistinctChains(rs) && |later| == |rs| && forall j :: 0 <= j < |rs| ==> Advanced(rs[j], later[j])
    ensures DistinctChains(later)
  {
    forall i, j | 0 <= i < j < |later|
      ensures !(later[i].keyType == later[j].keyType && later[i].keyIndex == later[j].keyIndex && later[i].seed == later[j].seed)
    {
      assert Advanced(rs[i], later[i]) && Advanced(rs[j], later[j]);
    }
  }

  /** A send that failed reserves nothing under the key; the wallet's invariant is kept either way. */
  lemma SendKeepsWallet(s: NodeState, e: NodeEvent)
    requires NodeInv(s) && WellFormed(s.run.wallet.index) && e.Sends? && Happens(s, e)
    ensures var t := Run(s.run, e.events);
            && WalletInv(t, s.initiated) && Extends(s.run.wallet.index, t.wallet.index)
            && (forall p :: Reserved(t, p) ==>
                  || Reserved(s.run, p) || PaysBitcoin(p)
                  || (e.sendError.None? && PaysTo(p, NextKeyOf(s, e.at))))
  {
    hide Run, KeysUnique, EntriesMarked, Signed, WellFormed, ExactGap, SpentOnce, SelectedAll, Extends, ChainsInv, Reserved,
         PaysTo, PaysBitcoin, ReservedBehind, KeepsGap, SafeExactly, IsMessage, NoneReserved;
    NextKeyFree(s, e.at);
    CallKeeps(s.run, s.initiated, e.events);
  }

  function NextKeyOf(s: NodeState, at: nat): PublicKey
    requires at < |s.relationships|
  {
    var r := s.relationships[at];
    NextPublicKey(ChildKey(s.run.wallet.index.wallet, r.keyType, r.keyIndex), r.nextHash)
  }

  /** The key a sent message was funded from lies behind the chain that then moved. */
  lemma SentBehind(s: NodeState, at: nat, later: seq<RelationshipState>)
    requires at < |s.relationships| <= |later| && Chained(s.relationships[at], s.run.wallet.index)
    requires Advanced(s.relationships[at], later[at]) && later[at].nextIndex == s.relationships[at].nextIndex + 1
    ensures forall t, i, h :: NextKeyOf(s, at) == NextPublicKey(ChildKey(s.run.wallet.index.wallet, t, i), h) ==>
              exists j: nat, k: nat :: Behind(later, j, k, t, i, h)
  {
    var r := s.relationships[at];
    assert Behind(later, at, r.nextIndex, r.keyType, r.keyIndex, r.nextHash);
  }

  lemma SendKeepsNode(s: NodeState, e: NodeEvent)
    requires NodeInv(s) && WellFormed(s.run.wallet.index) && e.Sends? && Happens(s, e)
    ensures NodeInv(NodeStep(s, e))
  {
    hide Run, WalletInv, WellFormed, Extends, SendGuarantee, Grew, Reserved, PaysTo, PaysBitcoin, Advanced, Step, DistinctChains,
         P.AfterSend, Chained, ReservedBehind, Behind;
    var t := s.(run := Run(s.run, e.events));
    SendKeepsWallet(s, e);
    WalletKept(s.run.wallet.index, t.run.wallet.index);
    ChainsExtend(s.relationships, s.run.wallet.index, t.run.wallet.index);
    if e.sendError.Some? {
      SameAdvanced(s.relationships);
      ReservedStaysBehind(s.run, s.relationships, t.run, s.relationships, false, NoKey);
    } else {
      SoundParts(t);
      var q := P.AfterSend(PartyOf(t), e.at, e.kind);
      AfterSendGrows(PartyOf(t), e.at, e.kind);
      SentKeeps(s, t, e.at, q);
    }
  }

  lemma SoundParts(t: NodeState)
    requires WalletInv(t.run, t.initiated) && ChainsInv(t.relationships, t.run.wallet.index)
    ensures Sound(PartyOf(t))
  {
  }

  /** The party after a send and the run after its broadcasts, put together. */
  lemma SentKeeps(s: NodeState, t: NodeState, at: nat, q: Party)
    requires NodeInv(s) && WellFormed(t.run.wallet.index) && at < |s.relationships|
    requires t.relationships == s.relationships && t.run.wallet.index.wallet == s.run.wallet.index.wallet
    requires WalletInv(t.run, t.initiated) && ChainsInv(t.relationships, t.run.wallet.index)
    requires forall p :: Reserved(t.run, p) ==>
               Reserved(s.run, p) || PaysBitcoin(p) || PaysTo(p, NextKeyOf(s, at))
    requires Grew(PartyOf(t), q) && |q.relationships| == |s.relationships|
    requires q.relationships[at].nextIndex == s.relationships[at].nextIndex + 1
    ensures NodeInv(WithParty(t, q))
  {
    hide Step, WalletInv, KeysCoherent, Extends, ReservedBehind, Reserved, Advanced, ExactGap, DistinctChains, WellFormed,
         PaysTo, PaysBitcoin, Behind, Chained, ValidRef;
    GrewAdvanced(PartyOf(t), q);
    SameKeysDistinct(s.relationships, q.relationships);
    SoundChains(t, q);
    WorkKeeps(t.run, t.initiated, Grow(q.index));
    assert Chained(s.relationships[at], s.run.wallet.index);
    SentBehind(s, at, q.relationships);
    ReservedStaysBehind(s.run, s.relationships, WithParty(t, q).run, q.relationships, true, NextKeyOf(s, at));
  }

  lemma GrewAdvanced(p: Party, q: Party)
    requires Grew(p, q)
    ensures |p.relationships| <= |q.relationships|
    ensures forall j :: 0 <= j < |p.relationships| ==> Advanced(p.relationships[j], q.relationships[j])
  {
  }

  lemma SoundChains(t: NodeState, q: Party)
    requires WalletInv(t.run, t.initiated) && ChainsInv(t.relationships, t.run.wallet.index)
    requires WellFormed(t.run.wallet.index) && Grew(PartyOf(t), q) && DistinctChains(q.relationships)
    ensures ValidGrowth(t.run, q.index) && KeysCoherent(q.index) && ExactGap(q.index)
    ensures Step(t.run, Grow(q.index)).wallet.index == q.index && ChainsInv(q.relationships, q.index)
  {
    hide Chained;
    forall j | 0 <= j < |q.relationships| ensures Chained(q.relationships[j], q.index) {
      if j < |t.relationships| {
        assert Chained(t.relationships[j], t.run.wallet.index);
      }
    }
  }

  // ----- runs -----

  /** Every event keeps the invariant. */
  lemma StepKeepsNode(s: NodeState, e: NodeEvent)
    requires NodeInv(s) && WellFormed(s.run.wallet.index) && Happens(s, e)
    ensures NodeInv(NodeStep(s, e))
  {
    hide NodeInv, WellFormed, Step;
    match e
    case Feeds(tx, kept) => WorkKeepsNode(s, Feed(tx, kept));
    case Processes(tx, contents) => ProcessKeepsNode(s, tx, contents);
    case Reverses(tx) => WorkKeepsNode(s, Reverse(tx));
    case Gives(t) => GiveKeepsNode(s, t);
    case Restarts(handled, finalized) => RestartKeepsNode(s, handled, finalized);
    case Initiates(_, _, _, _) => InitiateKeepsNode(s, e);
    case Sends(_, _, _, _, _, _) => SendKeepsNode(s, e);
  }

  ghost predicate HappensThroughout(s: NodeState, events: seq<NodeEvent>)
    requires WellFormed(s.run.wallet.index)
  {
    forall n :: 0 <= n < |events| ==> Happens(NodeRun(s, events[..n]), events[n])
  }

  lemma {:induction false} RunKeepsNode(s: NodeState, events: seq<NodeEvent>)
    requires WellFormed(s.run.wallet.index) && NodeInv(s) && HappensThroughout(s, events)
    ensures NodeInv(NodeRun(s, events))
  {
    hide NodeInv, Happens, NodeStep, WellFormed;
    if events != [] {
      var last := |events| - 1;
      assert forall n :: 0 <= n < last ==> events[..last][..n] == events[..n] && events[..last][n] == events[n];
      RunKeepsNode(s, events[..last]);
      StepKeepsNode(NodeRun(s, events[..last]), events[last]);
    }
  }

  /** A node with a new wallet and no relationships. */
  ghost function NewNode(wallet: nat, gap: nat): (s: NodeState)
    ensures WellFormed(s.run.wallet.index)
  {
    PreparedExactGap(wallet, gap);
    NodeState(Start(Prepared(wallet, gap)), [], [])
  }

  lemma NewNodeInv(wallet: nat, gap: nat)
    ensures NodeInv(NewNode(wallet, gap))
  {
    PreparedExactGap(wallet, gap);
  }

  /** Over every run of a node no outpoint is an input of two transactions it broadcast, or twice of one. */
  lemma NeverSpentTwice(wallet: nat, gap: nat, events: seq<NodeEvent>)
    requires HappensThroughout(NewNode(wallet, gap), events)
    ensures var sent := NodeRun(NewNode(wallet, gap), events).run.broadcasts;
            forall a, b, i, j ::
              (0 <= a <= b < |sent| && 0 <= i < |sent[a].inputs| && 0 <= j < |sent[b].inputs|
               && sent[a].inputs[i].point == sent[b].inputs[j].point) ==> a == b && i == j
  {
    var s := NodeRun(NewNode(wallet, gap), events);
    NewNodeInv(wallet, gap);
    RunKeepsNode(NewNode(wallet, gap), events);
    OnceApart(s.run);
  }

  lemma OnceApart(run: RunState)
    requires SpentOnce(run)
    ensures var sent := run.broadcasts;
            forall a, b, i, j ::
              (0 <= a <= b < |sent| && 0 <= i < |sent[a].inputs| && 0 <= j < |sent[b].inputs|
               && sent[a].inputs[i].point == sent[b].inputs[j].point) ==> a == b && i == j
  {
    var sent := run.broadcasts;
    forall a, b, i, j |
      0 <= a <= b < |sent| && 0 <= i < |sent[a].inputs| && 0 <= j < |sent[b].inputs|
      && sent[a].inputs[i].point == sent[b].inputs[j].point
      ensures a == b && i == j
    {
      var p := sent[a].inputs[i].point;
      SpendsAt(sent[a], p);
      SpendsAt(sent[b], p);
      assert PointsOf(sent[a].inputs)[i] == p && PointsOf(sent[b].inputs)[j] == p;
    }
  }

  /**
   The keys a node asks funding for never meet the condition under which funding alone could build a
   recorded payment again: the next key of a relationship, and the key an initiation picks.
   */
  lemma CallersNeverRebuild(s: NodeState, at: nat, picked: nat, outputs: seq<TxOut>, dust: nat)
    requires NodeInv(s)
    ensures at < |s.relationships| ==>
              var r := s.relationships[at];
              !F.Rebuildable(s.run.wallet, F.Request(KeyHashSelector(r.keyType, r.keyIndex, r.nextHash), outputs, dust))
    ensures PickedKey(s.run.wallet.index) == Some(picked) ==>
              !F.Rebuildable(s.run.wallet, F.Request(KeySelector(KEY_TYPE_RELATE_OUT, picked), outputs, dust))
  {
    hide F.Rebuildable, PickedKey, NoneReserved, LedgerSigns, EntriesMarked, KeysUnique, ExactGap, SpentOnce, ChainsInv, ReservedBehind;
    if at < |s.relationships| {
      var r := s.relationships[at];
      NextKeyFree(s, at);
      F.NoneReservedSafe(s.run.wallet, F.Request(KeyHashSelector(r.keyType, r.keyIndex, r.nextHash), outputs, dust));
    }
    if PickedKey(s.run.wallet.index) == Some(picked) {
      PickedUnmarked(s.run.wallet.index, picked);
      UnmarkedNoneReserved(s.run.wallet, KEY_TYPE_RELATE_OUT, picked);
      F.NoneReservedSafe(s.run.wallet, F.Request(KeySelector(KEY_TYPE_RELATE_OUT, picked), outputs, dust));
    }
  }

  /** Over every run of a node no two relationships it initiated are under the same key. */
  lemma InitiationKeysUnique(wallet: nat, gap: nat, events: seq<NodeEvent>)
    requires HappensThroughout(NewNode(wallet, gap), events)
    ensures var initiated := NodeRun(NewNode(wallet, gap), events).initiated;
            forall m, n :: 0 <= m < n < |initiated| ==> initiated[m] != initiated[n]
  {
    hide WellFormed, HappensThroughout, NodeRun, Signed, EntriesMarked, ExactGap, SpentOnce, ChainsInv, ReservedBehind;
    NewNodeInv(wallet, gap);
    RunKeepsNode(NewNode(wallet, gap), events);
  }

  /**
   Over every run of a node each stored relationship and its members stand on the chain of its seed, every
   key of ours up to the next one is registered with its position's hash, and every stored output can be
   signed for.
   */
  lemma ChainsStayRight(wallet: nat, gap: nat, events: seq<NodeEvent>)
    requires HappensThroughout(NewNode(wallet, gap), events)
    ensures var s := NodeRun(NewNode(wallet, gap), events);
            && LedgerSigns(s.run.wallet)
            && forall j :: 0 <= j < |s.relationships| ==>
                 var r := s.relationships[j];
                 && OnChain(r, s.run.wallet.index.wallet)
                 && forall k: nat :: 1 <= k <= r.nextIndex ==>
                      var key := OwnKey(r, s.run.wallet.index.wallet, k);
                      && key in s.run.wallet.index.derived
                      && s.run.wallet.index.derived[key].keyType == r.keyType
                      && s.run.wallet.index.derived[key].keyIndex == r.keyIndex
                      && s.run.wallet.index.derived[key].keyHash == Chain(r.seed, k)
  {
    hide WellFormed, HappensThroughout, NodeRun, EntriesMarked, ExactGap, SpentOnce, ReservedBehind, LedgerSigns, OnChain,
         RegisteredRight;
    NewNodeInv(wallet, gap);
    RunKeepsNode(NewNode(wallet, gap), events);
    var s := NodeRun(NewNode(wallet, gap), events);
    forall j | 0 <= j < |s.relationships| ensures Chained(s.relationships[j], s.run.wallet.index) {
    }
    KeysFiled(s.run.wallet.index);
  }

  /** A derived key rightly registered is filed under what it derives from. */
  lemma KeysFiled(ix: IndexState)
    requires KeysCoherent(ix)
    ensures forall t, i, h :: NextPublicKey(ChildKey(ix.wallet, t, i), h) in ix.derived ==>
              var d := ix.derived[NextPublicKey(ChildKey(ix.wallet, t, i), h)];
              d.keyType == t && d.keyIndex == i && d.keyHash == h
  {
    forall t, i, h | NextPublicKey(ChildKey(ix.wallet, t, i), h) in ix.derived
      ensures RegisteredRight(ix, NextPublicKey(ChildKey(ix.wallet, t, i), h))
    {
    }
  }

  /** Over every run of a node each address list is one gap longer than its last used address. */
  lemma GapsStayExact(wallet: nat, gap: nat, events: seq<NodeEvent>)
    requires HappensThroughout(NewNode(wallet, gap), events)
    ensures ExactGap(NodeRun(NewNode(wallet, gap), events).run.wallet.index)
  {
    hide WellFormed, HappensThroughout, NodeRun, Signed, EntriesMarked, ExactGap, SpentOnce, ChainsInv, ReservedBehind;
    NewNodeInv(wallet, gap);
    RunKeepsNode(NewNode(wallet, gap), events);
  }
}
