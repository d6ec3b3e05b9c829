/**
 The node's handling of the transaction feed in internal/node: the filter of HandleTx, the lifecycle
 messages of HandleTxState, and the single processing of a transaction.
 */
module Nodes {
  import opened Results
  import opened Bitcoin
  import opened AddressSpec
  import opened LedgerSpec
  import opened LedgerRun
  import opened Signing
  import opened AddressIndexes
  import opened Ledgers
  import opened Wallets
  import opened FundingSpec
  import opened Funding
  import opened Ratchet
  import opened RatchetLaws
  import opened RelationshipManager
  import Messages
  import Initiate
  import Initiating
  import MessageSending
  import opened KeyGrowth
  import opened Decrypting
  import P = Protocol

  // ----- the filter -----

  /** What the filter finds: a reason to keep the transaction, none, or a script it cannot read. */
  datatype Verdict = Relevant | Irrelevant | Unparsed

  function KeyHashes(keys: seq<PublicKey>): (r: seq<Hash20>)
    ensures |r| == |keys| && forall i :: 0 <= i < |r| ==> r[i] == Hash160(keys[i])
  {
    seq(|keys|, i requires 0 <= i < |keys| => Hash160(keys[i]))
  }

  /** The hashes a locking script names; None is the parse error. */
  function ScriptHashes(script: Script): Option<seq<Hash20>> {
    match script
    case Pay(ra) => Some(if HashesOf(ra).Some? then HashesOf(ra).value else [])
    case Unreadable => None
    case _ => Some([])
  }

  predicate AnyIn(candidates: seq<Hash20>, hashes: set<Hash20>) {
    exists n :: 0 <= n < |candidates| && candidates[n] in hashes
  }

  /** What the filter looks at: the monitored hashes, the stored outpoints and the known flags. */
  datatype Watched = Watched(hashes: set<Hash20>, points: set<OutPoint>, relationships: seq<RelationshipState>)

  function InputVerdict(v: Watched, input: TxIn): Verdict {
    if input.keys.None? then Unparsed
    else if AnyIn(KeyHashes(input.keys.value), v.hashes) || input.point in v.points then Relevant
    else Irrelevant
  }

  function OutputVerdict(v: Watched, output: TxOut): Verdict {
    if ScriptHashes(output.script).None? then Unparsed
    else if AnyIn(ScriptHashes(output.script).value, v.hashes) then Relevant
    else if output.script.Flag? && FirstByFlag(v.relationships, output.script.data).Some? then Relevant
    else Irrelevant
  }

  /** The first input or output that is not irrelevant decides, inputs before outputs. */
  function InputsVerdict(v: Watched, tx: Tx, k: nat): Verdict
    requires k <= |tx.inputs|
    decreases |tx.inputs| - k
  {
    if k == |tx.inputs| then Irrelevant
    else if InputVerdict(v, tx.inputs[k]) != Irrelevant then InputVerdict(v, tx.inputs[k])
    else InputsVerdict(v, tx, k + 1)
  }

  function OutputsVerdict(v: Watched, tx: Tx, k: nat): Verdict
    requires k <= |tx.outputs|
    decreases |tx.outputs| - k
  {
    if k == |tx.outputs| then Irrelevant
    else if OutputVerdict(v, tx.outputs[k]) != Irrelevant then OutputVerdict(v, tx.outputs[k])
    else OutputsVerdict(v, tx, k + 1)
  }

  function TxVerdict(v: Watched, tx: Tx): Verdict {
    if InputsVerdict(v, tx, 0) != Irrelevant then InputsVerdict(v, tx, 0) else OutputsVerdict(v, tx, 0)
  }

  /** The transaction is kept exactly when something relevant comes before anything unreadable. */
  lemma {:induction false} InputsVerdictIff(v: Watched, tx: Tx, k: nat)
    requires k <= |tx.inputs|
    ensures InputsVerdict(v, tx, k) == Relevant <==>
              exists i :: k <= i < |tx.inputs| && InputVerdict(v, tx.inputs[i]) == Relevant
                && (forall m :: k <= m < i ==> InputVerdict(v, tx.inputs[m]) == Irrelevant)
    ensures InputsVerdict(v, tx, k) == Irrelevant <==>
              forall i :: k <= i < |tx.inputs| ==> InputVerdict(v, tx.inputs[i]) == Irrelevant
    decreases |tx.inputs| - k
  {
    if k < |tx.inputs| {
      InputsVerdictIff(v, tx, k + 1);
    }
  }

  lemma {:induction false} OutputsVerdictIff(v: Watched, tx: Tx, k: nat)
    requires k <= |tx.outputs|
    ensures OutputsVerdict(v, tx, k) == Relevant <==>
              exists i :: k <= i < |tx.outputs| && OutputVerdict(v, tx.outputs[i]) == Relevant
                && (forall m :: k <= m < i ==> OutputVerdict(v, tx.outputs[m]) == Irrelevant)
    ensures OutputsVerdict(v, tx, k) == Irrelevant <==>
              forall i :: k <= i < |tx.outputs| ==> OutputVerdict(v, tx.outputs[i]) == Irrelevant
    decreases |tx.outputs| - k
  {
    if k < |tx.outputs| {
      OutputsVerdictIff(v, tx, k + 1);
    }
  }

  // ----- nothing relevant is missed -----

  /** Everything the wallet stores or owns is watched for. */
  ghost predicate WatchesAll(v: Watched, w: WalletState) {
    && v.points == w.ledger.Keys
    && forall ra :: Lookup(w.index, ra).Present? ==> HashesOf(ra).Some? && AnyIn(HashesOf(ra).value, v.hashes)
  }

  lemma {:induction false} SpendsNothing(l: LedgerState, tx: Tx, k: nat)
    requires k <= |tx.inputs| && forall i :: k <= i < |tx.inputs| ==> tx.inputs[i].point !in l
    ensures LedgerSpec.SpendInputs(l, tx, k, true) == l
    decreases |tx.inputs| - k
  {
    if k < |tx.inputs| {
      SpendsNothing(l, tx, k + 1);
    }
  }

  lemma {:induction false} RecordsNothing(w: WalletState, tx: Tx, k: nat)
    requires WellFormed(w.index) && k <= |tx.outputs|
    requires forall i :: k <= i < |tx.outputs| ==> !Lookup(w.index, AddressOf(tx.outputs[i].script)).Present?
    ensures RecordOutputs(w, tx, k) == w
    decreases |tx.outputs| - k
  {
    hide Lookup, WellFormed;
    if k < |tx.outputs| {
      RecordsNothing(w, tx, k + 1);
    }
  }

  /** A transaction the filter drops, with every script readable, would have changed nothing. */
  lemma DroppedIsIdle(v: Watched, w: WalletState, tx: Tx)
    requires WellFormed(w.index) && WatchesAll(v, w) && TxVerdict(v, tx) == Irrelevant
    ensures Process(w, tx, true) == w
  {
    hide Lookup, WellFormed, AnyIn, HashesOf;
    InputsVerdictIff(v, tx, 0);
    OutputsVerdictIff(v, tx, 0);
    forall i | 0 <= i < |tx.inputs| ensures tx.inputs[i].point !in w.ledger {
      assert InputVerdict(v, tx.inputs[i]) == Irrelevant;
    }
    SpendsNothing(w.ledger, tx, 0);
    forall i | 0 <= i < |tx.outputs| ensures !Lookup(w.index, AddressOf(tx.outputs[i].script)).Present? {
      assert OutputVerdict(v, tx.outputs[i]) == Irrelevant;
      if Lookup(w.index, AddressOf(tx.outputs[i].script)).Present? {
        OwnedIsRelevant(v, w, tx.outputs[i]);
      }
    }
    RecordsNothing(w, tx, 0);
  }

  lemma OwnedIsRelevant(v: Watched, w: WalletState, output: TxOut)
    requires WatchesAll(v, w) && Lookup(w.index, AddressOf(output.script)).Present?
    ensures OutputVerdict(v, output) == Relevant
  {
    assert output.script.Pay?;
    assert AnyIn(HashesOf(output.script.address).value, v.hashes);
  }

  /** An unreadable script in front hides a payment to the wallet. */
  lemma UnreadableHides(v: Watched, point: OutPoint, payment: TxOut)
    ensures TxVerdict(v, Tx([TxIn(point, None)], [payment])) == Unparsed
  {
  }

  // ----- the messages of a transaction -----

  /** A decrypted message, as the outputs of a transaction give it. */
  datatype Incoming =
    | InitiateMessage(senders: seq<nat>, receivers: seq<nat>, terms: Initiate.Terms, key: Hash32)
    | AcceptMessage(senders: seq<nat>, receivers: seq<nat>)
    | PrivateMessage(senders: seq<nat>, receivers: seq<nat>)
    | OtherMessage
    | BrokenMessage

  /** A refused message halts the transaction; an unchecked index ends the program. */
  datatype Outcome = Going(party: Party) | Halted(party: Party) | Crashed

  function MatchedOutcome(m: MatchResult, senders: seq<nat>, isAccept: bool): Outcome {
    match m
    case Unmatched(q, f) => if f == OutputPanic then Crashed else Halted(q)
    case Matched(q, j, areSender, at) =>
      if |senders| > 1 then Halted(q)
      else if j >= |q.relationships| || (!areSender && at >= |q.relationships[j].members|) then Crashed
      else Going(if isAccept then Messages.Accepted(m) else q)
  }

  function ProcessOne(p: Party, tx: Tx, flag: Bytes, m: Incoming): Outcome {
    match m
    case InitiateMessage(senders, receivers, terms, key) =>
      var (q, e) := Initiate.ProcessInitiate(p, TxId(tx), tx, senders, receivers, terms, key);
      if e.None? then Going(q) else Halted(q)
    case AcceptMessage(senders, receivers) =>
      MatchedOutcome(MatchTx(p, tx, senders, receivers, flag), senders, true)
    case PrivateMessage(senders, receivers) =>
      MatchedOutcome(MatchTx(p, tx, senders, receivers, flag), senders, false)
    case OtherMessage => Going(p)
    case BrokenMessage => Halted(p)
  }

  /** What an output holds for someone who decrypts it as chosen; none is not a message for us. */
  type Contents = (nat, KeyChoice) -> Option<Incoming>

  function MessageAt(p: Party, tx: Tx, flag: Bytes, contents: Contents, k: nat): Option<Incoming> {
    var choice := ChoiceFor(p, tx, flag);
    if choice == NoChoice then None else contents(k, choice)
  }

  /** The outputs from `k` on; each is decrypted with what the relationships are by then. */
  function ProcessAll(p: Party, tx: Tx, flag: Bytes, contents: Contents, k: nat): Outcome
    requires k <= |tx.outputs|
    decreases |tx.outputs| - k
  {
    if k == |tx.outputs| then Going(p)
    else
      match MessageAt(p, tx, flag, contents, k)
      case None => ProcessAll(p, tx, flag, contents, k + 1)
      case Some(m) =>
        match ProcessOne(p, tx, flag, m)
        case Going(q) => ProcessAll(q, tx, flag, contents, k + 1)
        case other => other
  }

  /** Every initiate message that is processed joins by a list key. */
  predicate JoinsByListKeys(p: Party, tx: Tx, flag: Bytes, contents: Contents, k: nat)
    requires k <= |tx.outputs|
    decreases |tx.outputs| - k
  {
    k < |tx.outputs| ==>
      match MessageAt(p, tx, flag, contents, k)
      case None => JoinsByListKeys(p, tx, flag, contents, k + 1)
      case Some(m) =>
        && (m.InitiateMessage? ==> JoinsByListKey(p, TxId(tx), tx, m.senders, m.receivers))
        && (ProcessOne(p, tx, flag, m).Going? ==>
              JoinsByListKeys(ProcessOne(p, tx, flag, m).party, tx, flag, contents, k + 1))
  }

  lemma AcceptGrows(m: MatchResult, p: Party)
    requires m.Matched? && m.relationship < |m.party.relationships| && Grew(p, m.party)
    ensures Grew(p, Messages.Accepted(m))
  {
    AcceptedGrows(p, m.party, m.relationship);
    MemberAcceptedGrows(p, m.party, m.relationship, m.memberIndex);
  }

  /** A message only adds keys, rightly, unless it initiates by anything but a list key. */
  lemma OneGrows(p: Party, tx: Tx, flag: Bytes, m: Incoming)
    requires Sound(p)
    requires m.InitiateMessage? ==> JoinsByListKey(p, TxId(tx), tx, m.senders, m.receivers)
    ensures var o := ProcessOne(p, tx, flag, m); o.Crashed? || Grew(p, o.party)
  {
    hide Grew, Sound, MatchTx, Initiate.ProcessInitiate, Messages.Accepted, JoinsByListKey;
    GrewNothing(p);
    match m
    case InitiateMessage(senders, receivers, terms, key) =>
      InitiateGrows(p, TxId(tx), tx, senders, receivers, terms, key);
    case AcceptMessage(senders, receivers) =>
      MatchGrows(p, tx, senders, receivers, flag);
      var r := MatchTx(p, tx, senders, receivers, flag);
      if r.Matched? && r.relationship < |r.party.relationships| {
        AcceptGrows(r, p);
      }
    case PrivateMessage(senders, receivers) =>
      MatchGrows(p, tx, senders, receivers, flag);
    case OtherMessage =>
    case BrokenMessage =>
  }

  /** So do all messages of a transaction. */
  lemma {:induction false} AllGrow(p: Party, tx: Tx, flag: Bytes, contents: Contents, k: nat)
    requires k <= |tx.outputs| && Sound(p) && JoinsByListKeys(p, tx, flag, contents, k)
    ensures var o := ProcessAll(p, tx, flag, contents, k); o.Crashed? || Grew(p, o.party)
    decreases |tx.outputs| - k
  {
    hide Grew, Sound, ProcessOne, MessageAt, JoinsByListKey;
    GrewNothing(p);
    if k < |tx.outputs| {
      match MessageAt(p, tx, flag, contents, k) {
        case None => AllGrow(p, tx, flag, contents, k + 1);
        case Some(m) =>
          OneGrows(p, tx, flag, m);
          var o := ProcessOne(p, tx, flag, m);
          if o.Going? {
            GrewSound(p, o.party);
            AllGrow(o.party, tx, flag, contents, k + 1);
            var end := ProcessAll(o.party, tx, flag, contents, k + 1);
            if !end.Crashed? {
              GrewMore(p, o.party, end.party);
            }
          }
      }
    }
  }

  /** What a method run left, compared with an outcome; of a crash nothing is claimed. */
  ghost predicate Ended(o: Outcome, p: Party, ok: bool) {
    match o
    case Going(q) => ok && p == q
    case Halted(q) => !ok && p == q
    case Crashed => !ok
  }

  method ProcessMessage(rs: Relationships, tx: Tx, flag: Bytes, m: Incoming) returns (ok: bool)
    requires rs.Valid()
    modifies rs, Objects(rs), rs.own, rs.index
    ensures rs.Valid() && fresh(rs.index.repr - old(rs.index.repr))
    ensures Ended(ProcessOne(old(rs.Parties()), tx, flag, m), rs.Parties(), ok)
    ensures fresh(rs.own - old(rs.own)) && fresh(Objects(rs) - old(Objects(rs)))
  {
    hide AddressIndex.Valid, Relationships.Valid, MatchTx, Initiate.ProcessInitiate, Messages.Accepted;
    match m
    case InitiateMessage(senders, receivers, terms, key) =>
      var e := Initiating.ProcessInitiateRelationship(rs, tx, senders, receivers, terms, key);
      return e.None?;
    case AcceptMessage(senders, receivers) =>
      var refeed, e := Messages.ProcessAcceptRelationship(rs, tx, senders, receivers, flag);
      return e.None?;
    case PrivateMessage(senders, receivers) =>
      var refeed, e := Messages.ProcessPrivateMessage(rs, tx, senders, receivers, flag);
      return e.None?;
    case OtherMessage => return true;
    case BrokenMessage => return false;
  }

  /** The output loop of ProcessTx: decrypt each output and process what it holds. */
  method ProcessMessages(rs: Relationships, tx: Tx, flag: Bytes, contents: Contents) returns (ok: bool)
    requires rs.Valid()
    modifies rs, Objects(rs), rs.own, rs.index
    ensures rs.Valid() && fresh(rs.index.repr - old(rs.index.repr))
    ensures Ended(ProcessAll(old(rs.Parties()), tx, flag, contents, 0), rs.Parties(), ok)
  {
    hide AddressIndex.Valid, Relationships.Valid, ProcessOne, ChoiceFor;
    for k := 0 to |tx.outputs|
      invariant rs.Valid() && fresh(rs.index.repr - old(rs.index.repr))
      invariant fresh(rs.own - old(rs.own)) && fresh(Objects(rs) - old(Objects(rs)))
      invariant ProcessAll(rs.Parties(), tx, flag, contents, k) == ProcessAll(old(rs.Parties()), tx, flag, contents, 0)
    {
      var choice := ChooseKey(rs, tx, flag);
      if choice != NoChoice {
        var message := contents(k, choice);
        if message.Some? {
          ok := ProcessMessage(rs, tx, flag, message.value);
          if !ok {
            return false;
          }
        }
      }
    }
    return true;
  }

  /** The loop of ProcessTx that looks for the flag. */
  method FindFlag(outputs: seq<TxOut>) returns (flag: Bytes)
    ensures flag == FlagOf(outputs)
  {
    for k := 0 to |outputs|
      invariant FlagOf(outputs[k..]) == FlagOf(outputs)
    {
      assert outputs[k..][0] == outputs[k] && outputs[k..][1..] == outputs[k + 1..];
      if outputs[k].script.Flag? {
        return outputs[k].script.data;
      }
    }
    return [];
  }

  /** The lifecycle messages of the network. */
  datatype TxState = Safe | Confirmed | Cancelled | Unsafe | Reverted

  predicate Processes(state: TxState) {
    state == Safe || state == Confirmed
  }

  // ----- HandleTx -----

  /**
   Keys were registered rightly so far, no message crashes the node, and every initiate message joins by
   a list key.
   */
  ghost predicate OutputsGrow(ix: IndexState, p: Party, tx: Tx, contents: Contents) {
    && KeysCoherent(ix) && !ProcessAll(p, tx, FlagOf(tx.outputs), contents, 0).Crashed?
    && JoinsByListKeys(p, tx, FlagOf(tx.outputs), contents, 0)
  }

  lemma OutputsAdd(rs: Relationships, ix: IndexState, tx: Tx, contents: Contents)
    requires rs.Valid() && rs.index.state == ix && OutputsGrow(ix, rs.Parties(), tx, contents)
    ensures var o := ProcessAll(rs.Parties(), tx, FlagOf(tx.outputs), contents, 0);
            !o.Crashed? && Grew(rs.Parties(), o.party)
  {
    hide AddressIndex.Valid, Grew, JoinsByListKeys, ProcessAll, KeysCoherent;
    SoundParties(rs);
    AllGrow(rs.Parties(), tx, FlagOf(tx.outputs), contents, 0);
  }

  lemma SoundParties(rs: Relationships)
    requires rs.Valid() && KeysCoherent(rs.index.state)
    ensures Sound(rs.Parties())
  {
    hide AddressIndex.Valid, KeysCoherent;
  }

  lemma EndedGrew(o: Outcome, before: Party, after: Party, ok: bool)
    requires Ended(o, after, ok) && !o.Crashed? && Grew(before, o.party)
    ensures KeysCoherent(after.index) && Extends(before.index, after.index)
  {
  }

  class Node {
    const wallet: Wallet
    const rs: Relationships

    constructor (wallet: Wallet, rs: Relationships)
      requires rs.index == wallet.index
      ensures this.wallet == wallet && this.rs == rs
    {
      this.wallet, this.rs := wallet, rs;
    }

    /** The node's parts fit together, and the wallet stands where the run does. */
    ghost predicate At(s: RunState)
      reads wallet, wallet.txs.Values, wallet.index, wallet.index.repr, wallet.ledger, wallet.ledger.repr
      reads rs, rs.list, rs.own
    {
      && rs.index == wallet.index && Follows(wallet, s) && rs.Valid()
    }

    ghost function Watching(): Watched
      reads wallet.index, wallet.ledger, rs
    {
      Watched(wallet.index.hashes.Keys, wallet.ledger.entries.Keys, rs.states)
    }

    lemma WatchingAll(s: RunState)
      requires At(s)
      ensures WellFormed(s.wallet.index) && WatchesAll(Watching(), s.wallet)
    {
      hide Lookup, WellFormed, Bucketed, Filed;
      forall ra | Lookup(s.wallet.index, ra).Present?
        ensures HashesOf(ra).Some? && AnyIn(HashesOf(ra).value, Watching().hashes)
      {
        Monitors(wallet.index, ra);
      }
      assert s.wallet.ledger.Keys == wallet.ledger.entries.Keys;
    }

    method InputTurn(input: TxIn, ghost s: RunState) returns (verdict: Verdict)
      requires At(s)
      ensures verdict == InputVerdict(Watching(), input)
    {
      hide Wallet.Valid, Relationships.Valid, WellFormed, Wallet.State, Bucketed, Filed, ListsShared, MapFiled, Monitored;
      Parts(s);
      if input.keys.None? {
        return Unparsed;
      }
      var monitored, ra := wallet.index.AreHashesMonitored(KeyHashes(input.keys.value));
      if monitored {
        return Relevant;
      }
      var utxo := wallet.ledger.FindUTXO(input.point);
      return if utxo != null then Relevant else Irrelevant;
    }

    lemma Parts(s: RunState)
      requires At(s)
      ensures wallet.index.Valid() && wallet.ledger.Valid() && rs.Valid() && wallet.txs.Keys == s.handled
      ensures WellFormed(s.wallet.index)
    {
    }

    method OutputTurn(output: TxOut, ghost s: RunState) returns (verdict: Verdict)
      requires At(s)
      ensures verdict == OutputVerdict(Watching(), output)
    {
      hide Wallet.Valid, Relationships.Valid, WellFormed, Wallet.State, ListsShared, MapFiled, Monitored, FirstByFlag;
      Parts(s);
      MessageSending.PartiesAre(rs);
      var candidates := ScriptHashes(output.script);
      if candidates.None? {
        return Unparsed;
      }
      var monitored, ra := wallet.index.AreHashesMonitored(candidates.value);
      if monitored {
        return Relevant;
      }
      if output.script.Flag? {
        var r;
        ghost var at;
        r, at := rs.FindRelationshipForFlag(output.script.data);
        if r != null {
          return Relevant;
        }
      }
      return Irrelevant;
    }

    /** The two loops of the filter. */
    method Filter(tx: Tx, ghost s: RunState) returns (verdict: Verdict)
      requires At(s)
      ensures verdict == TxVerdict(Watching(), tx)
    {
      hide At, InputVerdict, OutputVerdict, Watching;
      for k := 0 to |tx.inputs|
        invariant InputsVerdict(Watching(), tx, k) == InputsVerdict(Watching(), tx, 0)
      {
        verdict := InputTurn(tx.inputs[k], s);
        if verdict != Irrelevant {
          return;
        }
      }
      for k := 0 to |tx.outputs|
        invariant OutputsVerdict(Watching(), tx, k) == OutputsVerdict(Watching(), tx, 0)
      {
        verdict := OutputTurn(tx.outputs[k], s);
        if verdict != Irrelevant {
          return;
        }
      }
      return Irrelevant;
    }

    /**
     For a relevant transaction HandleTx is the feed step of a run; it drops one only when something is
     unreadable or processing it would have changed nothing.
     */
    method HandleTx(tx: Tx, accepted: bool, ghost s: RunState) returns (keep: bool, failed: bool)
      requires At(s)
      modifies wallet`txs, wallet.index, wallet.index.repr, wallet.ledger, wallet.ledger.repr
      ensures fresh(wallet.index.repr - old(wallet.index.repr)) && fresh(wallet.ledger.repr - old(wallet.ledger.repr))
      ensures WellFormed(s.wallet.index) && At(if keep then Step(s, Feed(tx, accepted)) else s)
      ensures keep <==> tx in s.handled || TxVerdict(old(Watching()), tx) == Relevant
      ensures !keep && !failed ==> Process(s.wallet, tx, true) == s.wallet
      ensures failed <==> tx !in s.handled && TxVerdict(old(Watching()), tx) == Unparsed
    {
      hide *;
      Parts(s);
      if tx in wallet.txs {
        KnownFeed(s, tx, accepted);
        return true, false;
      }
      WatchingAll(s);
      var verdict := Filter(tx, s);
      if verdict == Relevant {
        Keep(tx, accepted, s);
      } else if verdict == Irrelevant {
        DroppedIsIdle(Watching(), s.wallet, tx);
      }
      return verdict == Relevant, verdict == Unparsed;
    }

    /** PreprocessTx and AddWireTx; the node asks for more of the transaction either way. */
    method Keep(tx: Tx, accepted: bool, ghost s: RunState)
      requires At(s) && tx !in s.handled
      modifies wallet`txs, wallet.index, wallet.index.repr, wallet.ledger, wallet.ledger.repr
      ensures fresh(wallet.index.repr - old(wallet.index.repr)) && fresh(wallet.ledger.repr - old(wallet.ledger.repr))
      ensures WellFormed(s.wallet.index) && At(Step(s, Feed(tx, accepted)))
    {
      hide *;
      Parts(s);
      AtParts(s);
      MessageSending.ValidParts(rs);
      RecordFed(wallet, tx, accepted, s);
      MessageSending.FollowsIndex(wallet, Step(s, Feed(tx, accepted)));
      StepExtends(s, Feed(tx, accepted));
      MessageSending.StillValid(rs, s.wallet.index);
      AtAgain(Step(s, Feed(tx, accepted)));
    }

    lemma AtParts(s: RunState)
      requires At(s)
      ensures Follows(wallet, s) && rs.Valid() && rs.index == wallet.index && s.wallet.index == wallet.index.state
    {
    }

    lemma AtAgain(s: RunState)
      requires Follows(wallet, s) && rs.Valid() && rs.index == wallet.index
      ensures At(s)
    {
    }

    lemma KnownFeed(s: RunState, tx: Tx, accepted: bool)
      requires WellFormed(s.wallet.index) && tx in s.handled
      ensures Step(s, Feed(tx, accepted)) == s
    {
    }

    // ----- the lifecycle of a kept transaction -----

    /** RevertTx undeletes and deletes; nothing is unreserved. */
    method RevertTx(tx: Tx, ghost s: RunState)
      requires At(s) && tx in s.handled
      modifies wallet.ledger.repr
      ensures WellFormed(s.wallet.index) && At(Step(s, Reverse(tx)))
    {
      hide Wallet.Valid, Relationships.Valid, WellFormed, Wallet.State, Revert, AddressIndex.Valid;
      Parts(s);
      wallet.RevertUTXOs(tx, true);
    }

    /** The part of ProcessTx before the messages: promotion happens once. */
    method FinalizeTx(tx: Tx, ghost s: RunState)
      requires At(s) && tx in wallet.txs && tx !in s.finalized
      modifies wallet.txs[tx], wallet.ledger.repr
      ensures WellFormed(s.wallet.index) && At(Step(s, Confirm(tx)))
    {
      hide Wallet.Valid, Relationships.Valid, WellFormed, Wallet.State, FinalizeOutputs, AddressIndex.Valid;
      Parts(s);
      wallet.txs[tx].promoted := true;
      wallet.FinalizeUTXOs(tx);
    }

    /**
     ProcessTx: a promoted transaction is left alone; one that cannot be promoted too; otherwise it is
     finalized and its messages are processed, once.
     */
    method ProcessTx(tx: Tx, promotes: bool, contents: Contents, ghost s: RunState) returns (ok: bool)
      requires At(s) && tx in wallet.txs
      modifies wallet.txs[tx], wallet.ledger.repr, wallet.index, rs, Objects(rs), rs.own
      ensures WellFormed(s.wallet.index) && rs.Valid()
      ensures tx in s.finalized || !promotes ==> At(s) && rs.Parties() == old(rs.Parties()) && ok == (tx in s.finalized)
      ensures tx !in s.finalized && promotes ==>
                && MessageSending.FollowsLedger(wallet, Step(s, Confirm(tx)))
                && Ended(ProcessAll(old(rs.Parties()), tx, FlagOf(tx.outputs), contents, 0), rs.Parties(), ok)
      ensures tx !in s.finalized && promotes && Extends(s.wallet.index, rs.index.state) ==>
                At(Step(Step(s, Confirm(tx)), Grow(rs.index.state)))
      ensures tx !in s.finalized && promotes && OutputsGrow(s.wallet.index, old(rs.Parties()), tx, contents) ==>
                Extends(s.wallet.index, rs.index.state) && KeysCoherent(rs.index.state)
    {
      hide *;
      Parts(s);
      Promoted(s, tx);
      if wallet.txs[tx].promoted {
        return true;
      }
      if !promotes {
        return false;
      }
      MessageSending.PartiesAre(rs);
      FinalizeTx(tx, s);
      MessageSending.PartiesAre(rs);
      ConfirmKeepsIndex(s, tx);
      ok := ProcessOutputs(tx, contents, Step(s, Confirm(tx)));
    }

    /** The messages of a finalized transaction; the ledger stays as it is. */
    method ProcessOutputs(tx: Tx, contents: Contents, ghost s: RunState) returns (ok: bool)
      requires At(s)
      modifies wallet.index, rs, Objects(rs), rs.own
      ensures WellFormed(s.wallet.index) && rs.Valid() && MessageSending.FollowsLedger(wallet, s)
      ensures Ended(ProcessAll(old(rs.Parties()), tx, FlagOf(tx.outputs), contents, 0), rs.Parties(), ok)
      ensures Extends(s.wallet.index, rs.index.state) ==> At(Step(s, Grow(rs.index.state)))
      ensures OutputsGrow(s.wallet.index, old(rs.Parties()), tx, contents) ==>
                Extends(s.wallet.index, rs.index.state) && KeysCoherent(rs.index.state)
    {
      hide *;
      AtParts(s);
      MessageSending.PartiesAre(rs);
      ghost var before := rs.Parties();
      if OutputsGrow(s.wallet.index, before, tx, contents) {
        OutputsAdd(rs, s.wallet.index, tx, contents);
      }
      MessageSending.FollowsParts(wallet, s);
      var flag := FindFlag(tx.outputs);
      ok := ProcessMessages(rs, tx, flag, contents);
      MessageSending.ValidIndex(rs);
      MessageSending.PartiesAre(rs);
      if OutputsGrow(s.wallet.index, before, tx, contents) {
        EndedGrew(ProcessAll(before, tx, flag, contents, 0), before, rs.Parties(), ok);
      }
      if Extends(s.wallet.index, rs.index.state) {
        MessageSending.FollowsGrown(wallet, s);
        AtAgain(Step(s, Grow(rs.index.state)));
      }
    }

    /** HandleTxState: only a kept transaction is processed or reverted. */
    method HandleTxState(state: TxState, tx: Tx, promotes: bool, contents: Contents, ghost s: RunState) returns (ok: bool)
      requires At(s)
      modifies wallet.txs.Values, wallet.ledger.repr, wallet.index, rs, Objects(rs), rs.own
      ensures WellFormed(s.wallet.index) && rs.Valid()
      ensures tx !in s.handled ==> At(s) && rs.Parties() == old(rs.Parties())
      ensures tx in s.handled && !Processes(state) ==> At(Step(s, Reverse(tx))) && rs.Parties() == old(rs.Parties())
      ensures tx in s.handled && Processes(state) && (tx in s.finalized || !promotes) ==>
                At(s) && rs.Parties() == old(rs.Parties())
      ensures tx in s.handled && Processes(state) && tx !in s.finalized && promotes ==>
                && MessageSending.FollowsLedger(wallet, Step(s, Confirm(tx)))
                && Ended(ProcessAll(old(rs.Parties()), tx, FlagOf(tx.outputs), contents, 0), rs.Parties(), ok)
                && (Extends(s.wallet.index, rs.index.state) ==>
                      At(Step(Step(s, Confirm(tx)), Grow(rs.index.state))))
                && (OutputsGrow(s.wallet.index, old(rs.Parties()), tx, contents) ==>
                      Extends(s.wallet.index, rs.index.state) && KeysCoherent(rs.index.state))
    {
      hide *;
      Parts(s);
      ok := true;
      if tx in wallet.txs {
        if Processes(state) {
          ok := ProcessTx(tx, promotes, contents, s);
        } else {
          MessageSending.PartiesAre(rs);
          RevertTx(tx, s);
          MessageSending.PartiesAre(rs);
        }
      }
    }

    lemma Promoted(s: RunState, tx: Tx)
      requires At(s) && tx in wallet.txs
      ensures wallet.txs[tx].promoted <==> tx in s.finalized
    {
    }

    lemma ConfirmKeepsIndex(s: RunState, tx: Tx)
      requires WellFormed(s.wallet.index)
      ensures Step(s, Confirm(tx)).wallet.index == s.wallet.index
    {
    }
  }

  /** An address the index finds has a hash the node listens for. */
  lemma Monitors(index: AddressIndex, ra: RawAddress)
    requires index.Valid() && Lookup(index.state, ra).Present?
    ensures HashesOf(ra).Some? && AnyIn(HashesOf(ra).value, index.hashes.Keys)
  {
    hide Lookup, AnyIn, HashesOf, AddressIndex.Valid;
    LookupHasHashes(index.state, ra);
    var hs := HashesOf(ra).value;
    if hs == [] {
      index.NoCandidate(ra);
    } else if hs[0] in index.addressesMap {
      MonitoredHash(index, hs[0]);
      assert hs[0] in index.hashes.Keys;
      FirstIn(hs, index.hashes.Keys);
    } else {
      index.Unfiled(ra, hs[0]);
    }
  }

  lemma FirstIn(candidates: seq<Hash20>, hashes: set<Hash20>)
    requires candidates != [] && candidates[0] in hashes
    ensures AnyIn(candidates, hashes)
  {
  }

  lemma LookupHasHashes(ix: IndexState, ra: RawAddress)
    requires Lookup(ix, ra).Present?
    ensures HashesOf(ra).Some?
  {
  }

  lemma MonitoredHash(index: AddressIndex, h: Hash20)
    requires index.Valid() && h in index.addressesMap
    ensures h in index.hashes
  {
  }
}
