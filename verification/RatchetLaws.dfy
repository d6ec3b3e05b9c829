/**
 What one relationship step does: the invariant of a participant, sending and seeing one's own
 transaction again, receiving a transaction in each mode, and which encryption key is found.
 */
module RatchetLaws {
  import opened Results
  import opened Bitcoin
  import opened AddressSpec
  import opened Ratchet

  // ----- the invariant of one relationship -----

  function OwnKey(r: RelationshipState, wallet: nat, index: nat): PublicKey
    requires index >= 1
  {
    NextPublicKey(ChildKey(wallet, r.keyType, r.keyIndex), Chain(r.seed, index))
  }

  ghost predicate MemberOnChain(m: MemberState, seed: Bytes) {
    && m.nextIndex >= 1
    && m.nextHash == Chain(seed, m.nextIndex)
    && m.nextKey == NextPublicKey(m.baseKey, m.nextHash)
  }

  ghost predicate OnChain(r: RelationshipState, wallet: nat) {
    && r.nextIndex >= 1
    && r.nextHash == Chain(r.seed, r.nextIndex)
    && r.nextKey == OwnKey(r, wallet, r.nextIndex)
    && (forall i :: 0 <= i < |r.members| ==> MemberOnChain(r.members[i], r.seed))
  }

  /** Members are other wallets' keys and no two are the same. */
  ghost predicate ForeignMembers(r: RelationshipState, wallet: nat) {
    && (forall i :: 0 <= i < |r.members| ==>
          WalletOf(r.members[i].baseKey).Some? && WalletOf(r.members[i].baseKey) != Some(wallet))
    && (forall i, k :: 0 <= i < k < |r.members| ==> r.members[i].baseKey != r.members[k].baseKey)
  }

  /** Our key at a chain position is in the index, still with its public key. */
  ghost predicate RegisteredAt(ix: IndexState, r: RelationshipState, index: nat)
    requires index >= 1
  {
    var key := OwnKey(r, ix.wallet, index);
    && key in ix.derived
    && ix.derived[key].keyType == r.keyType && ix.derived[key].keyIndex == r.keyIndex
    && ix.derived[key].keyHash == Chain(r.seed, index)
    && ix.derived[key].slot.keyed
  }

  /** Every key the index holds belongs to its wallet. */
  ghost predicate OwnKeysOnly(ix: IndexState) {
    forall k :: k in ix.derived ==> WalletOf(k) == Some(ix.wallet) && k.NextPublicKey?
  }

  /**
   What holds of a participant and its relationship. Its transactions lead back to it: by its flag, or,
   without one, because it is the first stored under its key.
   */
  ghost predicate PartyInv(p: Party, j: nat) {
    && j < |p.relationships|
    && OwnKeysOnly(p.index)
    && var r := p.relationships[j];
       && IsRelateType(r.keyType)
       && OnChain(r, p.index.wallet)
       && ForeignMembers(r, p.index.wallet)
       && (|r.flag| == 0 ==> FirstByKey(p.relationships, r.keyType, r.keyIndex) == Some(j))
       && (|r.flag| > 0 ==> FirstByFlag(p.relationships, r.flag) == Some(j))
       && (forall k :: 1 <= k <= r.nextIndex ==> RegisteredAt(p.index, r, k))
  }

  lemma FirstByKeyIs(rs: seq<RelationshipState>, keyType: nat, keyIndex: nat, j: nat)
    requires j < |rs| && rs[j].keyType == keyType && rs[j].keyIndex == keyIndex
    requires forall i :: 0 <= i < j ==> !(rs[i].keyType == keyType && rs[i].keyIndex == keyIndex)
    ensures FirstByKey(rs, keyType, keyIndex) == Some(j)
  {
    assert FirstByKey(rs, keyType, keyIndex).Some?;
  }

  lemma FirstByFlagIs(rs: seq<RelationshipState>, flag: Bytes, j: nat)
    requires j < |rs| && rs[j].flag == flag
    requires forall i :: 0 <= i < j ==> rs[i].flag != flag
    ensures FirstByFlag(rs, flag) == Some(j)
  {
    assert FirstByFlag(rs, flag).Some?;
  }

  /** Replacing a relationship by one with the same key and flag keeps both searches. */
  lemma SearchesKept(p: Party, j: nat, r: RelationshipState)
    requires PartyInv(p, j)
    requires var o := p.relationships[j];
             r.keyType == o.keyType && r.keyIndex == o.keyIndex && r.flag == o.flag
    ensures var rs := p.relationships[j := r];
            && (|r.flag| == 0 ==> FirstByKey(rs, r.keyType, r.keyIndex) == Some(j))
            && (|r.flag| > 0 ==> FirstByFlag(rs, r.flag) == Some(j))
  {
    if |r.flag| > 0 {
      FirstByFlagIs(p.relationships[j := r], r.flag, j);
    } else {
      FirstByKeyIs(p.relationships[j := r], r.keyType, r.keyIndex, j);
    }
  }

  // ----- keeping the invariant -----

  lemma OwnKeyInjective(r: RelationshipState, wallet: nat, i: nat, k: nat)
    requires i >= 1 && k >= 1
    ensures OwnKey(r, wallet, i) == OwnKey(r, wallet, k) <==> i == k
  {
    ChainInjective(r.seed, i, k);
  }

  lemma AdvanceOwnInv(p: Party, j: nat)
    requires PartyInv(p, j)
    ensures PartyInv(AdvanceOwn(p, j), j)
    ensures var r := AdvanceOwn(p, j).relationships[j];
            && r.nextIndex == p.relationships[j].nextIndex + 1
            && r.members == p.relationships[j].members
  {
    var q := AdvanceOwn(p, j);
    var o, r := p.relationships[j], q.relationships[j];
    SearchesKept(p, j, r);
    forall k | 1 <= k <= r.nextIndex ensures RegisteredAt(q.index, r, k) {
      OwnKeyInjective(o, p.index.wallet, k, r.nextIndex);
      if k < r.nextIndex {
        assert RegisteredAt(p.index, o, k);
      }
    }
  }

  lemma WithMembersInv(p: Party, j: nat, ms: seq<MemberState>)
    requires PartyInv(p, j)
    requires |ms| == |p.relationships[j].members|
    requires forall i :: 0 <= i < |ms| ==>
               && ms[i].baseKey == p.relationships[j].members[i].baseKey
               && MemberOnChain(ms[i], p.relationships[j].seed)
    ensures PartyInv(WithMembers(p, j, ms), j)
  {
    var o := p.relationships[j];
    var r := o.(members := ms);
    SearchesKept(p, j, r);
    forall k | 1 <= k <= r.nextIndex ensures RegisteredAt(p.index, r, k) {
      assert RegisteredAt(p.index, o, k);
    }
  }

  /** Sending keeps the invariant and moves our own chain, and in direct mode every member's, by one. */
  lemma SendStepInv(p: Party, j: nat)
    requires PartyInv(p, j)
    ensures PartyInv(SendStep(p, j), j)
    ensures var o, r := p.relationships[j], SendStep(p, j).relationships[j];
            && r.nextIndex == o.nextIndex + 1
            && r.members == (if o.encryptionType == 0 then AdvanceMembers(o.members) else o.members)
  {
    AdvanceOwnInv(p, j);
    var q := AdvanceOwn(p, j);
    if p.relationships[j].encryptionType == 0 {
      WithMembersInv(q, j, AdvanceMembers(q.relationships[j].members));
    }
  }

  // ----- the transaction a send builds -----

  /** The outputs a message pays to the members, in member order. */
  function MemberOutputs(ms: seq<MemberState>, dust: nat): (r: seq<TxOut>)
    ensures |r| == |ms|
    ensures forall i :: 0 <= i < |ms| ==> r[i] == TxOut(dust, Pay(PayToKey(ms[i].nextKey)))
  {
    seq(|ms|, i requires 0 <= i < |ms| => TxOut(dust, Pay(PayToKey(ms[i].nextKey))))
  }

  /**
   The message transaction of accept.go and message.go: the first input is unlocked by our next key,
   direct mode pays every member's next key, then come the flag and the envelope. `funding` and
   `change` are whatever else the funding code added.
   */
  function MessageTx(r: RelationshipState, dust: nat, point: OutPoint, funding: seq<TxIn>, change: seq<TxOut>): Tx {
    Tx([TxIn(point, Some([r.nextKey]))] + funding,
       (if r.encryptionType == 0 then MemberOutputs(r.members, dust) else [])
       + (if |r.flag| > 0 then [TxOut(0, Flag(r.flag))] else [])
       + [TxOut(0, Envelope)] + change)
  }

  function Upto(n: nat): (r: seq<nat>)
    ensures |r| == n && forall i :: 0 <= i < n ==> r[i] == i
  {
    seq(n, i => i)
  }

  /** The receiver indexes the message lists: the member outputs, which only direct mode has. */
  function MessageReceivers(r: RelationshipState): seq<nat> {
    if r.encryptionType == 0 then Upto(|r.members|) else []
  }

  /** The flag ProcessTx finds: that of the first output that carries one. */
  function FlagOf(outputs: seq<TxOut>): Bytes {
    if outputs == [] then []
    else if outputs[0].script.Flag? then outputs[0].script.data
    else FlagOf(outputs[1..])
  }

  predicate NoFlag(outputs: seq<TxOut>) {
    forall i :: 0 <= i < |outputs| ==> !outputs[i].script.Flag?
  }

  lemma {:induction false} FlagOfAppend(a: seq<TxOut>, b: seq<TxOut>)
    requires NoFlag(a)
    ensures FlagOf(a + b) == FlagOf(b)
  {
    if a == [] {
      assert a + b == b;
    } else {
      assert (a + b)[1..] == a[1..] + b;
      FlagOfAppend(a[1..], b);
    }
  }

  /** The flag of a message transaction is the flag of its relationship. */
  lemma MessageFlag(r: RelationshipState, dust: nat, point: OutPoint, funding: seq<TxIn>, change: seq<TxOut>)
    requires NoFlag(change)
    ensures FlagOf(MessageTx(r, dust, point, funding, change).outputs) == r.flag
  {
    var members := if r.encryptionType == 0 then MemberOutputs(r.members, dust) else [];
    var flags := if |r.flag| > 0 then [TxOut(0, Flag(r.flag))] else [];
    var rest := [TxOut(0, Envelope)] + change;
    var outputs := MessageTx(r, dust, point, funding, change).outputs;
    assert outputs == members + (flags + rest);
    FlagOfAppend(members, flags + rest);
    if |r.flag| > 0 {
      assert (flags + rest)[0] == flags[0];
    } else {
      assert flags + rest == rest;
      FlagOfAppend(rest, []);
      assert rest + [] == rest;
    }
  }

  // ----- looking up keys -----

  /** A key of another wallet is nobody's in this index. */
  lemma ForeignKeyAbsent(ix: IndexState, key: PublicKey)
    requires OwnKeysOnly(ix) && WalletOf(key) != Some(ix.wallet)
    ensures RelateEntry(ix, PayToKeyHash(Hash160(key))).None?
    ensures RelateEntry(ix, PayToKey(key)).None?
  {
  }

  /** A registered key is found in either form, with its public key. */
  lemma RegisteredKeyFound(ix: IndexState, r: RelationshipState, index: nat)
    requires index >= 1 && IsRelateType(r.keyType) && RegisteredAt(ix, r, index)
    ensures var key := OwnKey(r, ix.wallet, index);
            var info := AddressInfo(PayToKeyHash(Hash160(key)), key, r.keyType, r.keyIndex,
                                    Some(Chain(r.seed, index)));
            && RelateEntry(ix, PayToKeyHash(Hash160(key))) == Some(info)
            && RelateEntry(ix, PayToKey(key)) == Some(info)
  {
  }

  // ----- seeing our own transaction -----

  /** Our own key as sender: the relationship is found, and advances if the key is the next one. */
  lemma OwnSenderScan(p: Party, j: nat, index: nat, tx: Tx, flag: Bytes)
    requires PartyInv(p, j) && 1 <= index <= p.relationships[j].nextIndex
    requires |tx.inputs| > 0 && UnlockingKey(tx.inputs[0]) == Some(OwnKey(p.relationships[j], p.index.wallet, index))
    requires flag == p.relationships[j].flag
    ensures ScanSenders(FlagScan(p, flag), tx, [0]) ==
            Scanned(Scan(if index == p.relationships[j].nextIndex then AdvanceOwn(p, j) else p, Some(j), true))
  {
    var r := p.relationships[j];
    assert RegisteredAt(p.index, r, index);
    RegisteredKeyFound(p.index, r, index);
    OwnKeyInjective(r, p.index.wallet, index, r.nextIndex);
    assert [0][1..] == [];
  }

  /** Our own keys are never a member's next key. */
  lemma OwnKeyNoMember(p: Party, j: nat, index: nat)
    requires PartyInv(p, j) && index >= 1
    ensures FirstByNextKey(p.relationships[j].members, OwnKey(p.relationships[j], p.index.wallet, index)).None?
  {
    var r := p.relationships[j];
    forall i | 0 <= i < |r.members| ensures r.members[i].nextKey != OwnKey(r, p.index.wallet, index) {
      assert MemberOnChain(r.members[i], r.seed);
    }
  }

  /** After the first `k` receiver outputs of a direct message exactly the first `k` members advanced. */
  function FirstAdvanced(ms: seq<MemberState>, k: nat): (r: seq<MemberState>)
    requires k <= |ms|
    ensures |r| == |ms|
  {
    AdvanceMembers(ms[..k]) + ms[k..]
  }

  lemma FirstAdvancedNext(r: RelationshipState, wallet: nat, k: nat)
    requires OnChain(r, wallet) && ForeignMembers(r, wallet) && k < |r.members|
    ensures AdvanceFirst(FirstAdvanced(r.members, k), r.members[k].nextKey) == FirstAdvanced(r.members, k + 1)
  {
    var ms := FirstAdvanced(r.members, k);
    forall i | 0 <= i < |ms| && i != k ensures ms[i].nextKey != r.members[k].nextKey {
      assert MemberOnChain(r.members[i], r.seed) && MemberOnChain(r.members[k], r.seed);
      assert r.members[i].baseKey != r.members[k].baseKey;
    }
    assert ms[k] == r.members[k];
    assert FirstByNextKey(ms, r.members[k].nextKey) == Some(k);
    assert ms[k := AdvanceMember(ms[k])] == FirstAdvanced(r.members, k + 1);
  }

  lemma {:induction false} SeeOwnReceivers(r: RelationshipState, wallet: nat, tx: Tx, dust: nat, k: nat)
    requires OnChain(r, wallet) && ForeignMembers(r, wallet) && k <= |r.members|
    requires MemberOutputs(r.members, dust) <= tx.outputs
    ensures SeeReceivers(FirstAdvanced(r.members, k), tx, Upto(|r.members|)[k..]) ==
            Some(AdvanceMembers(r.members))
    decreases |r.members| - k
  {
    hide AdvanceFirst, OnChain, ForeignMembers;
    var rest := Upto(|r.members|)[k..];
    if k == |r.members| {
      assert FirstAdvanced(r.members, k) == AdvanceMembers(r.members);
    } else {
      assert rest[0] == k && rest[1..] == Upto(|r.members|)[k + 1..];
      assert tx.outputs[k] == MemberOutputs(r.members, dust)[k];
      FirstAdvancedNext(r, wallet, k);
      SeeOwnReceivers(r, wallet, tx, dust, k + 1);
    }
  }

  /** The listed outputs exist and pay no member's next key. */
  predicate PaysNobodyNext(ms: seq<MemberState>, tx: Tx, receivers: seq<nat>) {
    forall k :: 0 <= k < |receivers| ==>
      && receivers[k] < |tx.outputs|
      && var ra := AddressOf(tx.outputs[receivers[k]].script);
         ra.PayToKey? ==> FirstByNextKey(ms, ra.key).None?
  }

  /** Such outputs advance nobody. */
  lemma {:induction false} SeeNobody(ms: seq<MemberState>, tx: Tx, receivers: seq<nat>)
    requires PaysNobodyNext(ms, tx, receivers)
    ensures SeeReceivers(ms, tx, receivers) == Some(ms)
    decreases |receivers|
  {
    if receivers != [] {
      assert forall k :: 0 <= k < |receivers[1..]| ==> receivers[1..][k] == receivers[k + 1];
      SeeNobody(ms, tx, receivers[1..]);
    }
  }

  /** Seeing one's own key as sender advances no member. */
  lemma SeeOwnSender(p: Party, j: nat, index: nat, tx: Tx, areSender: bool)
    requires PartyInv(p, j) && index >= 1
    requires |tx.inputs| > 0 && UnlockingKey(tx.inputs[0]) == Some(OwnKey(p.relationships[j], p.index.wallet, index))
    ensures SeeSenders(p.relationships[j].members, 0, areSender, tx, [0]) == (p.relationships[j].members, 0)
  {
    OwnKeyNoMember(p, j, index);
    assert [0][1..] == [];
  }

  lemma WithSameMembers(p: Party, j: nat)
    requires j < |p.relationships|
    ensures WithMembers(p, j, p.relationships[j].members) == p
  {
    assert p.relationships[j := p.relationships[j]] == p.relationships;
  }

  /** A transaction of ours whose keys all lie behind us changes nothing. */
  lemma StaleTxIdle(p: Party, j: nat, index: nat, tx: Tx, receivers: seq<nat>, flag: Bytes)
    requires PartyInv(p, j) && 1 <= index < p.relationships[j].nextIndex && flag == p.relationships[j].flag
    requires |tx.inputs| > 0 && UnlockingKey(tx.inputs[0]) == Some(OwnKey(p.relationships[j], p.index.wallet, index))
    requires PaysNobodyNext(p.relationships[j].members, tx, OrFirst(receivers))
    ensures MatchTx(p, tx, [0], receivers, flag) == Matched(p, j, true, 0)
  {
    OwnSenderScan(p, j, index, tx, flag);
    SeeOwnSender(p, j, index, tx, true);
    SeeNobody(p.relationships[j].members, tx, OrFirst(receivers));
    WithSameMembers(p, j);
  }

  /** The members a message of ours advances, computed from the transaction itself. */
  lemma SeeMessageReceivers(p: Party, j: nat, tx: Tx, dust: nat, point: OutPoint, funding: seq<TxIn>, change: seq<TxOut>)
    requires PartyInv(p, j)
    requires tx == MessageTx(p.relationships[j], dust, point, funding, change)
    ensures var r := p.relationships[j];
            SeeReceivers(r.members, tx, OrFirst(MessageReceivers(r))) ==
            Some(if r.encryptionType == 0 then AdvanceMembers(r.members) else r.members)
  {
    hide PartyInv, SeeReceivers, OnChain, ForeignMembers;
    ChainOf(p, j);
    var r := p.relationships[j];
    if r.encryptionType == 0 && |r.members| > 0 {
      assert FirstAdvanced(r.members, 0) == r.members;
      assert Upto(|r.members|)[0..] == Upto(|r.members|);
      SeeOwnReceivers(r, p.index.wallet, tx, dust, 0);
    } else {
      assert AddressOf(tx.outputs[0].script) == NoAddress;
      assert AdvanceMembers([]) == [];
      SeeNobody(r.members, tx, [0]);
    }
  }

  lemma ChainOf(p: Party, j: nat)
    requires PartyInv(p, j)
    ensures j < |p.relationships|
    ensures OnChain(p.relationships[j], p.index.wallet) && ForeignMembers(p.relationships[j], p.index.wallet)
  {
  }

  /**
   Processing one's own message from the state before the send gives the state the send leaves: the
   ratchet can be rebuilt from the transactions alone.
   */
  lemma ReplayMatchesSend(p: Party, j: nat, dust: nat, point: OutPoint, funding: seq<TxIn>, change: seq<TxOut>)
    requires PartyInv(p, j) && NoFlag(change)
    ensures var r := p.relationships[j];
            var tx := MessageTx(r, dust, point, funding, change);
            MatchTx(p, tx, [0], MessageReceivers(r), FlagOf(tx.outputs)) == Matched(SendStep(p, j), j, true, 0)
  {
    var r := p.relationships[j];
    var tx := MessageTx(r, dust, point, funding, change);
    MessageFlag(r, dust, point, funding, change);
    OwnSenderScan(p, j, r.nextIndex, tx, r.flag);
    AdvanceOwnInv(p, j);
    var q := AdvanceOwn(p, j);
    assert OwnKey(q.relationships[j], q.index.wallet, r.nextIndex) == OwnKey(r, p.index.wallet, r.nextIndex);
    SeeOwnSender(q, j, r.nextIndex, tx, true);
    SeeMessageReceivers(p, j, tx, dust, point, funding, change);
    WithSameMembers(q, j);
  }

  /** Once every member advanced, a key used for one of them is nobody's next key. */
  lemma PastKeyNoMember(r: RelationshipState, wallet: nat, k: nat)
    requires OnChain(r, wallet) && ForeignMembers(r, wallet) && k < |r.members|
    ensures FirstByNextKey(AdvanceMembers(r.members), r.members[k].nextKey).None?
  {
    var ms := AdvanceMembers(r.members);
    forall i | 0 <= i < |ms| ensures ms[i].nextKey != r.members[k].nextKey {
      assert MemberOnChain(r.members[i], r.seed) && MemberOnChain(r.members[k], r.seed);
      ChainInjective(r.seed, r.members[k].nextIndex, r.members[i].nextIndex + 1);
    }
  }

  /** After a send, the outputs of that message pay no member's next key. */
  lemma SentPaysNobody(r: RelationshipState, wallet: nat, dust: nat, point: OutPoint, funding: seq<TxIn>, change: seq<TxOut>)
    requires OnChain(r, wallet) && ForeignMembers(r, wallet)
    ensures var ms := if r.encryptionType == 0 then AdvanceMembers(r.members) else r.members;
            PaysNobodyNext(ms, MessageTx(r, dust, point, funding, change), OrFirst(MessageReceivers(r)))
  {
    var tx := MessageTx(r, dust, point, funding, change);
    if r.encryptionType == 0 && |r.members| > 0 {
      forall k | 0 <= k < |r.members|
        ensures tx.outputs[k] == TxOut(dust, Pay(PayToKey(r.members[k].nextKey)))
        ensures FirstByNextKey(AdvanceMembers(r.members), r.members[k].nextKey).None?
      {
        assert tx.outputs[k] == MemberOutputs(r.members, dust)[k];
        PastKeyNoMember(r, wallet, k);
      }
    } else {
      assert AddressOf(tx.outputs[0].script) == NoAddress;
    }
  }

  /** Processing the same message again, after the send, changes nothing. */
  lemma ReplayAfterSendIdle(p: Party, j: nat, dust: nat, point: OutPoint, funding: seq<TxIn>, change: seq<TxOut>)
    requires PartyInv(p, j) && NoFlag(change)
    ensures var r := p.relationships[j];
            var tx := MessageTx(r, dust, point, funding, change);
            MatchTx(SendStep(p, j), tx, [0], MessageReceivers(r), FlagOf(tx.outputs)) ==
            Matched(SendStep(p, j), j, true, 0)
  {
    var r := p.relationships[j];
    var tx := MessageTx(r, dust, point, funding, change);
    var q := SendStep(p, j);
    MessageFlag(r, dust, point, funding, change);
    SendStepInv(p, j);
    assert OwnKey(q.relationships[j], q.index.wallet, r.nextIndex) == OwnKey(r, p.index.wallet, r.nextIndex);
    SentPaysNobody(r, p.index.wallet, dust, point, funding, change);
    StaleTxIdle(q, j, r.nextIndex, tx, MessageReceivers(r), r.flag);
  }

  // ----- receiving -----

  lemma MemberKeyInjective(r: RelationshipState, wallet: nat, s: nat, index: nat)
    requires OnChain(r, wallet) && ForeignMembers(r, wallet) && s < |r.members| && index >= 1
    ensures FirstByNextKey(r.members, NextPublicKey(r.members[s].baseKey, Chain(r.seed, index))) ==
            if index == r.members[s].nextIndex then Some(s) else None
  {
    var key := NextPublicKey(r.members[s].baseKey, Chain(r.seed, index));
    forall i | 0 <= i < |r.members|
      ensures r.members[i].nextKey == key <==> i == s && index == r.members[s].nextIndex
    {
      assert MemberOnChain(r.members[i], r.seed);
      ChainInjective(r.seed, index, r.members[i].nextIndex);
      if i != s {
        assert r.members[i].baseKey != r.members[s].baseKey;
      }
    }
  }

  /** Sender scan over another wallet's key: nothing happens. */
  lemma ForeignSenderScan(p: Party, j: nat, key: PublicKey, tx: Tx, flag: Bytes)
    requires PartyInv(p, j) && WalletOf(key) != Some(p.index.wallet)
    requires |tx.inputs| > 0 && UnlockingKey(tx.inputs[0]) == Some(key)
    ensures ScanSenders(FlagScan(p, flag), tx, [0]) == Scanned(FlagScan(p, flag))
  {
    ForeignKeyAbsent(p.index, key);
    assert [0][1..] == [];
  }

  function AdvanceMemberAt(p: Party, j: nat, s: nat): Party
    requires j < |p.relationships| && s < |p.relationships[j].members|
  {
    var ms := p.relationships[j].members;
    WithMembers(p, j, ms[s := AdvanceMember(ms[s])])
  }

  lemma AdvanceMemberAtInv(p: Party, j: nat, s: nat)
    requires PartyInv(p, j) && s < |p.relationships[j].members|
    ensures PartyInv(AdvanceMemberAt(p, j, s), j)
  {
    var r := p.relationships[j];
    assert MemberOnChain(r.members[s], r.seed);
    WithMembersInv(p, j, r.members[s := AdvanceMember(r.members[s])]);
  }

  /** A direct message: the peer's chain moves on its expected key, ours on ours. */
  function Received(p: Party, j: nat, s: nat, senderAt: nat, own: bool): Party
    requires j < |p.relationships| && s < |p.relationships[j].members|
  {
    var q := if own then AdvanceOwn(p, j) else p;
    if senderAt == q.relationships[j].members[s].nextIndex then AdvanceMemberAt(q, j, s) else q
  }

  lemma SeeMemberSender(p: Party, j: nat, s: nat, index: nat, tx: Tx)
    requires PartyInv(p, j) && s < |p.relationships[j].members| && index >= 1
    requires |tx.inputs| > 0
    requires var r := p.relationships[j];
             UnlockingKey(tx.inputs[0]) == Some(NextPublicKey(r.members[s].baseKey, Chain(r.seed, index)))
    ensures var ms := p.relationships[j].members;
            SeeSenders(ms, 0, false, tx, [0]) ==
            if index == ms[s].nextIndex then (ms[s := AdvanceMember(ms[s])], s) else (ms, 0)
  {
    MemberKeyInjective(p.relationships[j], p.index.wallet, s, index);
    assert [0][1..] == [];
  }

  /**
   Receiving a direct message whose receiver key is registered: the relationship is found, our own
   chain advances exactly when the receiver key is our next one, the sender's exactly when the sender
   key is its next one.
   */
  lemma ReceiveDirect(p: Party, j: nat, tx: Tx, senderAt: nat, receiverAt: nat)
    requires PartyInv(p, j) && p.relationships[j].flag == [] && |p.relationships[j].members| == 1
    requires senderAt >= 1 && 1 <= receiverAt <= p.relationships[j].nextIndex
    requires var r := p.relationships[j];
             && |tx.inputs| > 0
             && UnlockingKey(tx.inputs[0]) == Some(NextPublicKey(r.members[0].baseKey, Chain(r.seed, senderAt)))
             && |tx.outputs| > 0
             && AddressOf(tx.outputs[0].script) == PayToKey(OwnKey(r, p.index.wallet, receiverAt))
    ensures var next := Received(p, j, 0, senderAt, receiverAt == p.relationships[j].nextIndex);
            && MatchTx(p, tx, [0], [0], []) == Matched(next, j, false, 0)
            && PartyInv(next, j)
  {
    var r := p.relationships[j];
    var own := receiverAt == r.nextIndex;
    ForeignSenderScan(p, j, UnlockingKey(tx.inputs[0]).value, tx, []);
    assert RegisteredAt(p.index, r, receiverAt);
    RegisteredKeyFound(p.index, r, receiverAt);
    OwnKeyInjective(r, p.index.wallet, receiverAt, r.nextIndex);
    AdvanceOwnInv(p, j);
    var q := if own then AdvanceOwn(p, j) else p;
    assert [0][1..] == [];
    assert ScanReceivers(FlagScan(p, []), tx, [0]) == Scanned(Scan(q, Some(j), false));
    var o := q.relationships[j];
    SeeMemberSender(q, j, 0, senderAt, tx);
    var seen := SeeSenders(o.members, 0, false, tx, [0]).0;
    WithSameMembers(q, j);
    AdvanceMemberAtInv(q, j, 0);
    assert WithMembers(q, j, seen) == Received(p, j, 0, senderAt, own);
    assert OwnKey(o, q.index.wallet, receiverAt) == OwnKey(r, p.index.wallet, receiverAt);
    OwnKeyNoMember(WithMembers(q, j, seen), j, receiverAt);
    SeeNobody(seen, tx, [0]);
  }

  /**
   A direct message is matched exactly when the entry of its receiver key still holds its public key:
   after a reload it does not, and the message is reported as belonging to no relationship. It is matched
   to the first relationship stored under its receiver's key, and any other under that key, even the one
   it belongs to, stays as it is.
   */
  lemma ReceiveDirectIff(p: Party, j: nat, tx: Tx, sender: PublicKey, receiverAt: nat)
    requires j < |p.relationships| && OwnKeysOnly(p.index) && receiverAt >= 1
    requires var r := p.relationships[j];
             var key := OwnKey(r, p.index.wallet, receiverAt);
             && IsRelateType(r.keyType) && key in p.index.derived
             && p.index.derived[key].keyType == r.keyType && p.index.derived[key].keyIndex == r.keyIndex
             && |tx.outputs| > 0 && AddressOf(tx.outputs[0].script) == PayToKey(key)
    requires WalletOf(sender) != Some(p.index.wallet)
    requires |tx.inputs| > 0 && UnlockingKey(tx.inputs[0]) == Some(sender)
    ensures var r, m := p.relationships[j], MatchTx(p, tx, [0], [0], []);
            var keyed := p.index.derived[OwnKey(r, p.index.wallet, receiverAt)].slot.keyed;
            && (m.Matched? <==> keyed)
            && (!keyed ==> m == Unmatched(p, NotFound))
            && (keyed ==>
                  && |m.party.relationships| == |p.relationships|
                  && FirstByKey(p.relationships, r.keyType, r.keyIndex) == Some(m.relationship)
                  && (m.relationship != j ==> m.party.relationships[j] == r))
  {
    ForeignKeyAbsent(p.index, sender);
    assert [0][1..] == [];
  }

  /**
   Receiving an indirect message: the flag finds the relationship, only the sender's chain can move,
   and the transaction is put down to the sender exactly when its key was the expected one.
   */
  lemma ReceiveIndirect(p: Party, j: nat, s: nat, tx: Tx, senderAt: nat)
    requires PartyInv(p, j) && |p.relationships[j].flag| > 0 && s < |p.relationships[j].members|
    requires senderAt >= 1
    requires var r := p.relationships[j];
             && |tx.inputs| > 0
             && UnlockingKey(tx.inputs[0]) == Some(NextPublicKey(r.members[s].baseKey, Chain(r.seed, senderAt)))
             && |tx.outputs| > 0 && AddressOf(tx.outputs[0].script) == NoAddress
    ensures var r := p.relationships[j];
            var expected := senderAt == r.members[s].nextIndex;
            var next := Received(p, j, s, senderAt, false);
            && MatchTx(p, tx, [0], [], r.flag) == Matched(next, j, false, if expected then s else 0)
            && PartyInv(next, j)
  {
    var r := p.relationships[j];
    ForeignSenderScan(p, j, UnlockingKey(tx.inputs[0]).value, tx, r.flag);
    assert [0][1..] == [];
    SeeMemberSender(p, j, s, senderAt, tx);
    SeeNobody(SeeSenders(r.members, 0, false, tx, [0]).0, tx, [0]);
    WithSameMembers(p, j);
    AdvanceMemberAtInv(p, j, s);
  }

  // ----- the encryption key -----

  lemma SearchFinds(base: PublicKey, seed: Bytes, index: nat, from: nat, limit: nat)
    requires from >= 1 && index >= 1
    ensures SearchChain(base, seed, NextPublicKey(base, Chain(seed, index)), from, limit) ==
            if from <= index < limit then Some(index) else None
  {
    var found := SearchChain(base, seed, NextPublicKey(base, Chain(seed, index)), from, limit);
    if found.Some? {
      ChainInjective(seed, found.value, index);
    }
  }

  lemma SearchOtherBase(base: PublicKey, other: PublicKey, seed: Bytes, index: nat, limit: nat)
    requires index >= 1 && base != other
    ensures SearchChain(base, seed, NextPublicKey(other, Chain(seed, index)), 1, limit).None?
  {
  }

  lemma {:induction false} FindAnyMemberIs(r: RelationshipState, wallet: nat, s: nat, index: nat, k: nat)
    requires OnChain(r, wallet) && ForeignMembers(r, wallet) && k <= s < |r.members| && index >= 1
    ensures FindAnyMemberKey(r.members, r.seed, NextPublicKey(r.members[s].baseKey, Chain(r.seed, index)), k) ==
            if index < r.members[s].nextIndex + WINDOW then Some(index) else None
    decreases s - k
  {
    SearchFinds(r.members[s].baseKey, r.seed, index, 1, r.members[s].nextIndex + WINDOW);
    if k < s {
      SearchOtherBase(r.members[k].baseKey, r.members[s].baseKey, r.seed, index, r.members[k].nextIndex + WINDOW);
      FindAnyMemberIs(r, wallet, s, index, k + 1);
    } else {
      FindNoMember(r, wallet, r.members[s].baseKey, index, s + 1);
    }
  }

  lemma {:induction false} FindNoMember(r: RelationshipState, wallet: nat, base: PublicKey, index: nat, k: nat)
    requires OnChain(r, wallet) && k <= |r.members| && index >= 1
    requires forall i :: k <= i < |r.members| ==> r.members[i].baseKey != base
    ensures FindAnyMemberKey(r.members, r.seed, NextPublicKey(base, Chain(r.seed, index)), k).None?
    decreases |r.members| - k
  {
    if k < |r.members| {
      SearchOtherBase(r.members[k].baseKey, base, r.seed, index, r.members[k].nextIndex + WINDOW);
      FindNoMember(r, wallet, base, index, k + 1);
    }
  }

  /** Our own keys: the chain value of their position, anywhere in the window, and nothing beyond. */
  lemma OwnEncryptionKey(r: RelationshipState, wallet: nat, index: nat)
    requires OnChain(r, wallet) && ForeignMembers(r, wallet) && index >= 1
    ensures FindEncryptionKey(r, wallet, OwnKey(r, wallet, index)) ==
            if index < r.nextIndex + WINDOW
            then Ok(AddHashes(r.encryptionKey, Chain(r.seed, index)))
            else Err(KeyNotFound)
  {
    var base := ChildKey(wallet, r.keyType, r.keyIndex);
    OwnKeyInjective(r, wallet, index, r.nextIndex);
    SearchFinds(base, r.seed, index, 1, r.nextIndex + WINDOW);
    forall i | 0 <= i < |r.members|
      ensures r.members[i].nextKey != OwnKey(r, wallet, index) && r.members[i].baseKey != base
    {
      assert MemberOnChain(r.members[i], r.seed);
    }
    FindNoMember(r, wallet, base, index, 0);
  }

  /** A member's keys: right at the expected position, the encryption key added twice elsewhere. */
  lemma MemberEncryptionKey(r: RelationshipState, wallet: nat, s: nat, index: nat)
    requires OnChain(r, wallet) && ForeignMembers(r, wallet) && s < |r.members| && index >= 1
    ensures var m := r.members[s];
            FindEncryptionKey(r, wallet, NextPublicKey(m.baseKey, Chain(r.seed, index))) ==
            if index == m.nextIndex then Ok(AddHashes(r.encryptionKey, Chain(r.seed, index)))
            else if index < m.nextIndex + WINDOW
            then Ok(AddHashes(r.encryptionKey, AddHashes(r.encryptionKey, Chain(r.seed, index))))
            else Err(KeyNotFound)
  {
    MemberKeyInjective(r, wallet, s, index);
    SearchOtherBase(ChildKey(wallet, r.keyType, r.keyIndex), r.members[s].baseKey, r.seed, index,
                    r.nextIndex + WINDOW);
    FindAnyMemberIs(r, wallet, s, index, 0);
  }

  /** Applying a hash sum to itself never gives the same hash. */
  lemma {:induction false} SumIsLarger(e: Hash32, h: Hash32)
    ensures AddHashes(e, h) != h
  {
    if h.AddHashes? {
      SumIsLarger(e, h.right);
    }
  }

  /**
   The key a member encrypted with at position `index` is found exactly when that is the position we
   expect from it.
   */
  lemma MemberEncryptionKeyIff(r: RelationshipState, wallet: nat, s: nat, index: nat)
    requires OnChain(r, wallet) && ForeignMembers(r, wallet) && s < |r.members| && index >= 1
    ensures var m := r.members[s];
            FindEncryptionKey(r, wallet, NextPublicKey(m.baseKey, Chain(r.seed, index))) ==
              Ok(AddHashes(r.encryptionKey, Chain(r.seed, index)))
            <==> index == m.nextIndex
  {
    MemberEncryptionKey(r, wallet, s, index);
    SumIsLarger(r.encryptionKey, Chain(r.seed, index));
  }
}
