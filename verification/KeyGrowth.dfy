/**
 What processing a message does to what a participant holds: chains only move forward, on their own
 seeds, and address lists stay. Matching a transaction only adds keys that derive from what they are
 filed under, and joining a relationship does so exactly when the transaction names a list key, which
 for the sender must still be in its entry.
 */
module KeyGrowth {
  import opened Results
  import opened Bitcoin
  import opened AddressSpec
  import opened Ratchet
  import opened RatchetLaws
  import opened Signing
  import opened Initiate
  import P = Protocol

  /** Derived keys are registered rightly, and every relationship is under a list key. */
  ghost predicate Sound(p: Party) {
    KeysCoherent(p.index) && forall j :: 0 <= j < |p.relationships| ==>
      ValidRef(p.index, Listed(p.relationships[j].keyType, p.relationships[j].keyIndex))
  }

  /** On its chain, members included, under a relationship key, with every key up to the next registered. */
  ghost predicate Chained(r: RelationshipState, ix: IndexState) {
    && IsRelateType(r.keyType) && OnChain(r, ix.wallet)
    && forall k: nat :: 1 <= k <= r.nextIndex ==> OwnKey(r, ix.wallet, k) in ix.derived
  }

  /** The same relationship, no earlier on its chain. */
  predicate Advanced(a: RelationshipState, b: RelationshipState) {
    b.keyType == a.keyType && b.keyIndex == a.keyIndex && b.seed == a.seed && a.nextIndex <= b.nextIndex
  }

  /** From `p` to `q` chains only moved forward, rightly, and relationships were added rightly. */
  ghost predicate ChainsKept(p: Party, q: Party) {
    && q.index.lists == p.index.lists && |p.relationships| <= |q.relationships|
    && (forall j :: 0 <= j < |p.relationships| ==>
          && Advanced(p.relationships[j], q.relationships[j])
          && (Chained(p.relationships[j], p.index) ==> Chained(q.relationships[j], q.index)))
    && (forall j :: |p.relationships| <= j < |q.relationships| ==> Chained(q.relationships[j], q.index))
  }

  lemma ChainedExtends(r: RelationshipState, ix: IndexState, later: IndexState)
    requires Chained(r, ix) && Extends(ix, later)
    ensures Chained(r, later)
  {
  }

  /** From `p` to `q` keys were only added, and rightly, and chains only moved forward. */
  ghost predicate Grew(p: Party, q: Party) {
    Sound(q) && Extends(p.index, q.index) && ChainsKept(p, q)
  }

  lemma GrewMore(p: Party, q: Party, r: Party)
    requires Grew(p, q) && Grew(q, r)
    ensures Grew(p, r)
  {
    hide Chained, KeysCoherent, Extends;
    ExtendsTransitive(p.index, q.index, r.index);
    forall j | 0 <= j < |p.relationships|
      ensures Advanced(p.relationships[j], r.relationships[j])
      ensures Chained(p.relationships[j], p.index) ==> Chained(r.relationships[j], r.index)
    {
      assert Advanced(p.relationships[j], q.relationships[j]) && Advanced(q.relationships[j], r.relationships[j]);
    }
    forall j | |p.relationships| <= j < |r.relationships| ensures Chained(r.relationships[j], r.index) {
      if j < |q.relationships| {
        assert Chained(q.relationships[j], q.index);
      }
    }
  }

  lemma GrewNothing(p: Party)
    requires Sound(p)
    ensures Grew(p, p)
  {
  }

  lemma AdvanceGrows(p: Party, j: nat)
    requires Sound(p) && j < |p.relationships|
    ensures Grew(p, AdvanceOwn(p, j))
  {
    hide KeysCoherent, Extends, Chained;
    var r, q := AdvanceRelationship(p.relationships[j], p.index.wallet), AdvanceOwn(p, j);
    RightKeyGrows(p.index, r.nextKey, r.keyType, r.keyIndex, r.nextHash);
    forall i | 0 <= i < |p.relationships| && Chained(p.relationships[i], p.index)
      ensures Chained(q.relationships[i], q.index)
    {
      ChainedExtends(p.relationships[i], p.index, q.index);
      if i == j {
        ChainedAdvances(r, p.relationships[i], q.index);
      }
    }
  }

  lemma ChainedAdvances(r: RelationshipState, before: RelationshipState, ix: IndexState)
    requires Chained(before, ix) && r == AdvanceRelationship(before, ix.wallet) && r.nextKey in ix.derived
    ensures Chained(r, ix)
  {
    forall k: nat | 1 <= k <= r.nextIndex ensures OwnKey(r, ix.wallet, k) in ix.derived {
      if k <= before.nextIndex {
        assert OwnKey(r, ix.wallet, k) == OwnKey(before, ix.wallet, k);
      }
    }
  }

  // ----- matching a transaction -----

  ghost predicate ScanGrew(p: Party, r: ScanResult) {
    match r
    case Scanned(s) => Grew(p, s.party)
    case ScanFailed(q, _) => Grew(p, q)
  }

  lemma SenderTurnGrows(s: Scan, tx: Tx, i: nat)
    requires ValidScan(s) && Sound(s.party)
    ensures ScanGrew(s.party, SenderTurn(s, tx, i))
  {
    hide AdvanceOwn, Grew, RelateEntry, Sound;
    GrewNothing(s.party);
    forall j: nat | j < |s.party.relationships| ensures Grew(s.party, AdvanceOwn(s.party, j)) {
      AdvanceGrows(s.party, j);
    }
  }

  lemma ReceiverTurnGrows(s: Scan, tx: Tx, i: nat)
    requires ValidScan(s) && Sound(s.party)
    ensures ScanGrew(s.party, ReceiverTurn(s, tx, i))
  {
    hide AdvanceOwn, Grew, RelateEntry, Sound;
    GrewNothing(s.party);
    forall j: nat | j < |s.party.relationships| ensures Grew(s.party, AdvanceOwn(s.party, j)) {
      AdvanceGrows(s.party, j);
    }
  }

  lemma ScanGrewMore(p: Party, q: Party, r: ScanResult)
    requires Grew(p, q) && ScanGrew(q, r)
    ensures ScanGrew(p, r)
  {
    match r
    case Scanned(s) => GrewMore(p, q, s.party);
    case ScanFailed(t, _) => GrewMore(p, q, t);
  }

  lemma {:induction false} SendersGrow(s: Scan, tx: Tx, senders: seq<nat>)
    requires ValidScan(s) && Sound(s.party)
    ensures ScanGrew(s.party, ScanSenders(s, tx, senders))
    decreases |senders|
  {
    hide SenderTurn;
    GrewNothing(s.party);
    if senders != [] {
      SenderTurnGrows(s, tx, senders[0]);
      var turn := SenderTurn(s, tx, senders[0]);
      if turn.Scanned? {
        SendersGrow(turn.scan, tx, senders[1..]);
        ScanGrewMore(s.party, turn.scan.party, ScanSenders(turn.scan, tx, senders[1..]));
      }
    }
  }

  lemma {:induction false} ReceiversGrow(s: Scan, tx: Tx, receivers: seq<nat>)
    requires ValidScan(s) && Sound(s.party)
    ensures ScanGrew(s.party, ScanReceivers(s, tx, receivers))
    decreases |receivers|
  {
    hide ReceiverTurn;
    GrewNothing(s.party);
    if receivers != [] {
      ReceiverTurnGrows(s, tx, receivers[0]);
      var turn := ReceiverTurn(s, tx, receivers[0]);
      if turn.Scanned? {
        ReceiversGrow(turn.scan, tx, receivers[1..]);
        ScanGrewMore(s.party, turn.scan.party, ScanReceivers(turn.scan, tx, receivers[1..]));
      }
    }
  }

  ghost predicate MembersOnChain(ms: seq<MemberState>, seed: Bytes) {
    forall i :: 0 <= i < |ms| ==> MemberOnChain(ms[i], seed)
  }

  lemma MembersKeepSound(p: Party, j: nat, ms: seq<MemberState>)
    requires Sound(p) && j < |p.relationships|
    requires Chained(p.relationships[j], p.index) ==> MembersOnChain(ms, p.relationships[j].seed)
    ensures Grew(p, WithMembers(p, j, ms))
  {
    hide KeysCoherent, Extends;
    GrewNothing(p);
    var r, q := p.relationships[j].(members := ms), WithMembers(p, j, ms);
    assert forall k: nat :: k >= 1 ==> OwnKey(r, p.index.wallet, k) == OwnKey(p.relationships[j], p.index.wallet, k);
  }

  lemma AdvanceFirstOnChain(ms: seq<MemberState>, key: PublicKey, seed: Bytes)
    requires MembersOnChain(ms, seed)
    ensures MembersOnChain(AdvanceFirst(ms, key), seed)
  {
  }

  lemma {:induction false} SendersOnChain(ms: seq<MemberState>, at: nat, areSender: bool, tx: Tx, senders: seq<nat>, seed: Bytes)
    requires forall k :: 0 <= k < |senders| ==> senders[k] < |tx.inputs| && UnlockingKey(tx.inputs[senders[k]]).Some?
    requires MembersOnChain(ms, seed)
    ensures MembersOnChain(SeeSenders(ms, at, areSender, tx, senders).0, seed)
    decreases |senders|
  {
    hide MembersOnChain, AdvanceFirst;
    if senders != [] {
      var key := UnlockingKey(tx.inputs[senders[0]]).value;
      var found := FirstByNextKey(ms, key);
      AdvanceFirstOnChain(ms, key, seed);
      SendersOnChain(AdvanceFirst(ms, key), if found.Some? && !areSender then found.value else at, areSender, tx, senders[1..], seed);
    }
  }

  lemma {:induction false} ReceiversOnChain(ms: seq<MemberState>, tx: Tx, receivers: seq<nat>, seed: Bytes)
    requires MembersOnChain(ms, seed)
    ensures SeeReceivers(ms, tx, receivers).Some? ==> MembersOnChain(SeeReceivers(ms, tx, receivers).value, seed)
    decreases |receivers|
  {
    hide MembersOnChain, AdvanceFirst;
    if receivers != [] && receivers[0] < |tx.outputs| {
      var ra := AddressOf(tx.outputs[receivers[0]].script);
      if ra.PayToKey? {
        AdvanceFirstOnChain(ms, ra.key, seed);
        ReceiversOnChain(AdvanceFirst(ms, ra.key), tx, receivers[1..], seed);
      } else {
        ReceiversOnChain(ms, tx, receivers[1..], seed);
      }
    }
  }

  lemma MatchedGrows(s: Scan, tx: Tx, senders: seq<nat>, receivers: seq<nat>)
    requires ValidScan(s) && Sound(s.party)
    requires forall k :: 0 <= k < |senders| ==> senders[k] < |tx.inputs| && UnlockingKey(tx.inputs[senders[k]]).Some?
    ensures Grew(s.party, AdvanceMatched(s, tx, senders, receivers).party)
  {
    hide Grew, WithMembers, Sound, Chained, MembersOnChain;
    GrewNothing(s.party);
    if s.found.Some? {
      var j := s.found.value;
      var r := s.party.relationships[j];
      var ms := SeeSenders(r.members, 0, s.areSender, tx, senders).0;
      var seen := SeeReceivers(ms, tx, receivers);
      if Chained(r, s.party.index) {
        ChainedMembers(r, s.party.index);
        SendersOnChain(r.members, 0, s.areSender, tx, senders, r.seed);
        ReceiversOnChain(ms, tx, receivers, r.seed);
      }
      MembersKeepSound(s.party, j, ms);
      if seen.Some? {
        MembersKeepSound(s.party, j, seen.value);
      }
    }
  }

  lemma ChainedMembers(r: RelationshipState, ix: IndexState)
    requires Chained(r, ix)
    ensures MembersOnChain(r.members, r.seed)
  {
  }

  /** Whatever transaction is matched, and however that ends, keys are only added, and rightly. */
  lemma MatchGrows(p: Party, tx: Tx, senders: seq<nat>, receivers: seq<nat>, flag: Bytes)
    requires Sound(p)
    ensures Grew(p, MatchTx(p, tx, senders, receivers, flag).party)
  {
    hide Grew, Sound, ScanSenders, ScanReceivers, AdvanceMatched;
    var from := FlagScan(p, flag);
    SendersGrow(from, tx, OrFirst(senders));
    var scanned := ScanSenders(from, tx, OrFirst(senders));
    if scanned.Scanned? {
      GrewSound(p, scanned.scan.party);
      MatchedGrows(scanned.scan, tx, OrFirst(senders), OrFirst(receivers));
      GrewMore(p, scanned.scan.party, AdvanceMatched(scanned.scan, tx, OrFirst(senders), OrFirst(receivers)).party);
      ReceiversGrow(scanned.scan, tx, OrFirst(receivers));
      var both := ScanReceivers(scanned.scan, tx, OrFirst(receivers));
      ScanGrewMore(p, scanned.scan.party, both);
      if both.Scanned? {
        GrewSound(p, both.scan.party);
        MatchedGrows(both.scan, tx, OrFirst(senders), OrFirst(receivers));
        GrewMore(p, both.scan.party, AdvanceMatched(both.scan, tx, OrFirst(senders), OrFirst(receivers)).party);
      }
    }
  }

  lemma GrewSound(p: Party, q: Party)
    requires Grew(p, q)
    ensures Sound(q)
  {
  }

  /** Marking a relationship, or one of its members, accepted moves nothing. */
  lemma AcceptedGrows(p: Party, q: Party, j: nat)
    requires Grew(p, q) && j < |q.relationships|
    ensures Grew(p, P.SetAccepted(q, j))
  {
    hide KeysCoherent, Extends;
    var a, b := q.relationships[j], P.SetAccepted(q, j).relationships[j];
    assert forall k: nat :: k >= 1 ==> OwnKey(b, q.index.wallet, k) == OwnKey(a, q.index.wallet, k);
  }

  lemma MemberAcceptedGrows(p: Party, q: Party, j: nat, m: nat)
    requires Grew(p, q) && j < |q.relationships|
    ensures Grew(p, P.SetMemberAccepted(q, j, m))
  {
    hide Grew, Sound, Chained, MembersOnChain;
    var ms := q.relationships[j].members;
    if m < |ms| {
      GrewSound(p, q);
      if Chained(q.relationships[j], q.index) {
        ChainedMembers(q.relationships[j], q.index);
        AcceptedOnChain(ms, m, q.relationships[j].seed);
      }
      MembersKeepSound(q, j, ms[m := ms[m].(accepted := true)]);
      GrewMore(p, q, P.SetMemberAccepted(q, j, m));
    }
  }

  lemma AcceptedOnChain(ms: seq<MemberState>, m: nat, seed: Bytes)
    requires MembersOnChain(ms, seed) && m < |ms|
    ensures MembersOnChain(ms[m := ms[m].(accepted := true)], seed)
  {
  }

  // ----- joining a relationship -----

  /** The entry a participant key is taken from: the first one found, if its type is the wanted one. */
  function TakenRef(ix: IndexState, ra: RawAddress, wanted: nat): Option<AddressRef> {
    match Lookup(ix, ra)
    case Present(ref) => if InfoOf(ix, ref).keyType == wanted then Some(ref) else None
    case _ => None
  }

  /** A list key, which for the sender must still be in its entry. */
  predicate NamesListKey(ix: IndexState, ra: RawAddress, wanted: nat, isSender: bool) {
    var ref := TakenRef(ix, ra, wanted);
    ref.Some? && ValidRef(ix, ref.value) ==> ref.value.Listed? && (isSender ==> SlotOf(ix, ref.value).keyed)
  }

  predicate ReceiversNameListKey(ix: IndexState, tx: Tx, receivers: seq<nat>)
    decreases |receivers|
  {
    receivers != [] && receivers[0] < |tx.outputs| && AddressOf(tx.outputs[receivers[0]].script).PayToKey? ==>
      var ra := AddressOf(tx.outputs[receivers[0]].script);
      if FoundInfo(ix, ra).Some? then NamesListKey(ix, ra, KEY_TYPE_RELATE_IN, false)
      else ReceiversNameListKey(ix, tx, receivers[1..])
  }

  /** Judged before the message is processed: is the key it takes for ours a list key it can use? */
  predicate JoinsByListKey(p: Party, txId: Hash32, tx: Tx, senders: seq<nat>, receivers: seq<nat>) {
    !(exists i :: 0 <= i < |p.relationships| && p.relationships[i].txId == txId) && |senders| <= 1
    && OrFirst(senders)[0] < |tx.inputs| && UnlockingKey(tx.inputs[OrFirst(senders)[0]]).Some? ==>
      var ra := PayToKeyHash(Hash160(UnlockingKey(tx.inputs[OrFirst(senders)[0]]).value));
      if FoundInfo(p.index, ra).Some? then NamesListKey(p.index, ra, KEY_TYPE_RELATE_OUT, true)
      else ReceiversNameListKey(p.index, tx, OrFirst(receivers))
  }

  function IndexOfJoin(r: JoinResult): IndexState {
    match r
    case Joined(b) => b.index
    case JoinFailed(ix, _) => ix
  }

  /** One participant key registers rightly if and only if it names a list key as it should. */
  lemma TurnCoherentIff(b: Joining, key: PublicKey, ra: RawAddress, wanted: nat, isSender: bool, seed: Bytes)
    requires KeysCoherent(b.index) && b.own.None?
    requires ra == if isSender then PayToKeyHash(Hash160(key)) else PayToKey(key)
    ensures var later := IndexOfJoin(JoinTurn(b, key, ra, wanted, isSender, seed));
            && (KeysCoherent(later) <==> NamesListKey(b.index, ra, wanted, isSender))
            && (NamesListKey(b.index, ra, wanted, isSender) ==> Extends(b.index, later))
  {
    hide KeysCoherent, Extends;
    CoherentShape(b.index);
    ExtendsReflexive(b.index);
    var ref := TakenRef(b.index, ra, wanted);
    if ref.Some? {
      var info := InfoOf(b.index, ref.value);
      var from := if isSender then info.publicKey else key;
      AddKeyCoherentIff(b.index, NextPublicKey(from, Sha256(seed)), info.keyType, info.keyIndex, Sha256(seed));
      assert from == ChildKey(b.index.wallet, info.keyType, info.keyIndex) <==>
             ref.value.Listed? && (isSender ==> SlotOf(b.index, ref.value).keyed);
      if from == ChildKey(b.index.wallet, info.keyType, info.keyIndex) {
        RightKeyGrows(b.index, NextPublicKey(from, Sha256(seed)), info.keyType, info.keyIndex, Sha256(seed));
      }
    }
  }

  lemma CoherentShape(ix: IndexState)
    requires KeysCoherent(ix)
    ensures WellFormed(ix)
  {
  }

  /** Once our key was taken nothing more is registered. */
  lemma {:induction false} JoinedKeepsIndex(b: Joining, tx: Tx, receivers: seq<nat>, seed: Bytes)
    requires b.own.Some?
    ensures IndexOfJoin(JoinReceivers(b, tx, receivers, seed)) == b.index
    decreases |receivers|
  {
    if receivers != [] && receivers[0] < |tx.outputs| && AddressOf(tx.outputs[receivers[0]].script).PayToKey? {
      var key := AddressOf(tx.outputs[receivers[0]].script).key;
      TurnAdds(b, key, PayToKey(key), KEY_TYPE_RELATE_IN, false, seed);
      JoinedKeepsIndex(b.(members := b.members + [FreshMember(key, seed)]), tx, receivers[1..], seed);
    }
  }

  lemma {:induction false} ReceiversCoherentIff(b: Joining, tx: Tx, receivers: seq<nat>, seed: Bytes)
    requires KeysCoherent(b.index) && b.own.None?
    ensures var later := IndexOfJoin(JoinReceivers(b, tx, receivers, seed));
            && (KeysCoherent(later) <==> ReceiversNameListKey(b.index, tx, receivers))
            && (ReceiversNameListKey(b.index, tx, receivers) ==> Extends(b.index, later))
    decreases |receivers|
  {
    hide KeysCoherent, Extends, NamesListKey;
    ExtendsReflexive(b.index);
    if receivers != [] && receivers[0] < |tx.outputs| && AddressOf(tx.outputs[receivers[0]].script).PayToKey? {
      var key := AddressOf(tx.outputs[receivers[0]].script).key;
      if FoundInfo(b.index, PayToKey(key)).Some? {
        TurnCoherentIff(b, key, PayToKey(key), KEY_TYPE_RELATE_IN, false, seed);
        var turn := JoinTurn(b, key, PayToKey(key), KEY_TYPE_RELATE_IN, false, seed);
        if turn.Joined? {
          JoinedKeepsIndex(turn.state, tx, receivers[1..], seed);
        }
      } else {
        TurnSkips(b, key, PayToKey(key), KEY_TYPE_RELATE_IN, false, seed);
        ReceiversCoherentIff(b.(members := b.members + [FreshMember(key, seed)]), tx, receivers[1..], seed);
      }
    }
  }

  /**
   Processing an initiate message keeps the derived keys right if and only if it joins by a list key;
   then nothing is taken from the index, whether or not the message is accepted.
   */
  lemma InitiateCoherentIff(p: Party, txId: Hash32, tx: Tx, senders: seq<nat>, receivers: seq<nat>, terms: Terms, key: Hash32)
    requires KeysCoherent(p.index)
    ensures var later := ProcessInitiate(p, txId, tx, senders, receivers, terms, key).0.index;
            && (KeysCoherent(later) <==> JoinsByListKey(p, txId, tx, senders, receivers))
            && (JoinsByListKey(p, txId, tx, senders, receivers) ==> Extends(p.index, later))
  {
    hide KeysCoherent, Extends, NamesListKey, JoinReceivers, JoinTurn, ReceiversNameListKey;
    ExtendsReflexive(p.index);
    var start := Joining(p.index, None, NoKey, []);
    var i := OrFirst(senders)[0];
    if |senders| <= 1 && i < |tx.inputs| && UnlockingKey(tx.inputs[i]).Some? {
      var k := UnlockingKey(tx.inputs[i]).value;
      var ra := PayToKeyHash(Hash160(k));
      TurnCoherentIff(start, k, ra, KEY_TYPE_RELATE_OUT, true, terms.seed);
      var turn := JoinTurn(start, k, ra, KEY_TYPE_RELATE_OUT, true, terms.seed);
      if FoundInfo(p.index, ra).Some? {
        TurnOwns(start, k, ra, terms.seed);
        if turn.Joined? {
          JoinedKeepsIndex(turn.state, tx, OrFirst(receivers), terms.seed);
        }
      } else {
        TurnSkips(start, k, ra, KEY_TYPE_RELATE_OUT, true, terms.seed);
        ReceiversCoherentIff(start.(members := start.members + [FreshMember(k, terms.seed)]), tx, OrFirst(receivers), terms.seed);
      }
    }
  }

  lemma TurnOwns(b: Joining, key: PublicKey, ra: RawAddress, seed: Bytes)
    requires b.own.None? && FoundInfo(b.index, ra).Some?
    ensures var turn := JoinTurn(b, key, ra, KEY_TYPE_RELATE_OUT, true, seed); turn.Joined? ==> turn.state.own.Some?
  {
  }

  /** Members are at the start of the chain of the seed, and so are we, if our key was taken. */
  ghost predicate JoinsRight(b: Joining, seed: Bytes) {
    && WellFormed(b.index) && MembersOnChain(b.members, seed)
    && (b.own.Some? ==>
          && ValidRef(b.index, Listed(b.own.value.keyType, b.own.value.keyIndex)) && IsRelateType(b.own.value.keyType)
          && b.nextKey == NextPublicKey(ChildKey(b.index.wallet, b.own.value.keyType, b.own.value.keyIndex), Sha256(seed))
          && b.nextKey in b.index.derived)
  }

  lemma TurnJoinsRight(b: Joining, key: PublicKey, ra: RawAddress, wanted: nat, isSender: bool, seed: Bytes)
    requires JoinsRight(b, seed) && IsRelateType(wanted)
    requires ra == if isSender then PayToKeyHash(Hash160(key)) else PayToKey(key)
    requires b.own.None? ==> NamesListKey(b.index, ra, wanted, isSender)
    ensures var turn := JoinTurn(b, key, ra, wanted, isSender, seed);
            IndexOfJoin(turn).lists == b.index.lists && (turn.Joined? ==> JoinsRight(turn.state, seed))
  {
    assert MembersOnChain(b.members + [FreshMember(key, seed)], seed);
  }

  lemma {:induction false} ReceiversJoinRight(b: Joining, tx: Tx, receivers: seq<nat>, seed: Bytes)
    requires JoinsRight(b, seed) && (b.own.None? ==> ReceiversNameListKey(b.index, tx, receivers))
    ensures var r := JoinReceivers(b, tx, receivers, seed);
            IndexOfJoin(r).lists == b.index.lists && (r.Joined? ==> JoinsRight(r.state, seed))
    decreases |receivers|
  {
    hide JoinsRight, NamesListKey, FoundInfo;
    if receivers != [] && receivers[0] < |tx.outputs| && AddressOf(tx.outputs[receivers[0]].script).PayToKey? {
      var key := AddressOf(tx.outputs[receivers[0]].script).key;
      var turn := JoinTurn(b, key, PayToKey(key), KEY_TYPE_RELATE_IN, false, seed);
      if b.own.None? && FoundInfo(b.index, PayToKey(key)).None? {
        NobodyNamed(b.index, PayToKey(key), KEY_TYPE_RELATE_IN, false);
      }
      TurnJoinsRight(b, key, PayToKey(key), KEY_TYPE_RELATE_IN, false, seed);
      if turn.Joined? {
        ReceiversJoinRight(turn.state, tx, receivers[1..], seed);
      }
    }
  }

  lemma NobodyNamed(ix: IndexState, ra: RawAddress, wanted: nat, isSender: bool)
    requires FoundInfo(ix, ra).None?
    ensures NamesListKey(ix, ra, wanted, isSender)
  {
  }

  /** An initiate message that joins by a list key only adds keys, rightly, and a relationship on its chain. */
  lemma InitiateGrows(p: Party, txId: Hash32, tx: Tx, senders: seq<nat>, receivers: seq<nat>, terms: Terms, key: Hash32)
    requires Sound(p) && JoinsByListKey(p, txId, tx, senders, receivers)
    ensures Grew(p, ProcessInitiate(p, txId, tx, senders, receivers, terms, key).0)
  {
    hide KeysCoherent, Extends, JoinReceivers, JoinTurn, NamesListKey, ReceiversNameListKey, Chained, JoinsRight, FoundInfo;
    InitiateCoherentIff(p, txId, tx, senders, receivers, terms, key);
    StartJoinsRight(p, terms.seed);
    var q := ProcessInitiate(p, txId, tx, senders, receivers, terms, key).0;
    ListedExtends(p, q.index);
    GrewNothing(p);
    var start := Joining(p.index, None, NoKey, []);
    var i := OrFirst(senders)[0];
    var known := exists i :: 0 <= i < |p.relationships| && p.relationships[i].txId == txId;
    if !known && |senders| <= 1 && i < |tx.inputs| && UnlockingKey(tx.inputs[i]).Some? {
      var k := UnlockingKey(tx.inputs[i]).value;
      var ra := PayToKeyHash(Hash160(k));
      if FoundInfo(p.index, ra).None? {
        NobodyNamed(p.index, ra, KEY_TYPE_RELATE_OUT, true);
        TurnSkips(start, k, ra, KEY_TYPE_RELATE_OUT, true, terms.seed);
      } else {
        TurnOwns(start, k, ra, terms.seed);
      }
      TurnJoinsRight(start, k, ra, KEY_TYPE_RELATE_OUT, true, terms.seed);
      var turn := JoinTurn(start, k, ra, KEY_TYPE_RELATE_OUT, true, terms.seed);
      if turn.Joined? {
        ReceiversJoinRight(turn.state, tx, OrFirst(receivers), terms.seed);
        var both := JoinReceivers(turn.state, tx, OrFirst(receivers), terms.seed);
        if both.Joined? && both.state.own.Some? {
          RecoveredChained(both.state, txId, terms, key);
        }
      }
    }
    KeptRelationships(p, q);
  }

  lemma StartJoinsRight(p: Party, seed: Bytes)
    requires Sound(p)
    ensures JoinsRight(Joining(p.index, None, NoKey, []), seed)
  {
  }

  lemma RecoveredChained(b: Joining, txId: Hash32, terms: Terms, key: Hash32)
    requires JoinsRight(b, terms.seed) && b.own.Some?
    ensures Chained(Recovered(b, txId, terms, key), b.index)
    ensures ValidRef(b.index, Listed(b.own.value.keyType, b.own.value.keyIndex))
  {
    var r := Recovered(b, txId, terms, key);
    assert OwnKey(r, b.index.wallet, 1) == b.nextKey;
  }

  /** The earlier relationships stay what they are over an index that grew. */
  lemma KeptRelationships(p: Party, q: Party)
    requires Extends(p.index, q.index) && p.relationships <= q.relationships
    ensures forall j :: 0 <= j < |p.relationships| ==>
              && Advanced(p.relationships[j], q.relationships[j])
              && (Chained(p.relationships[j], p.index) ==> Chained(q.relationships[j], q.index))
  {
    hide Chained, Extends;
    forall j | 0 <= j < |p.relationships| && Chained(p.relationships[j], p.index)
      ensures Chained(q.relationships[j], q.index)
    {
      ChainedExtends(p.relationships[j], p.index, q.index);
    }
  }

  lemma ListedExtends(p: Party, ix: IndexState)
    requires Sound(p) && Extends(p.index, ix)
    ensures forall j :: 0 <= j < |p.relationships| ==>
              ValidRef(ix, Listed(p.relationships[j].keyType, p.relationships[j].keyIndex))
  {
  }
}
