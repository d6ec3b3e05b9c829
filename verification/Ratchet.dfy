/**
 The key ratchet of internal/relationships as values: positions on hash chains, the matching and
 advancing done for an incoming transaction, and the step taken by a send. The classes in
 Relationships.dfy are proved against these functions.
 */
module Ratchet {
  import opened Results
  import opened Bitcoin
  import opened AddressSpec

  datatype MemberState = MemberState(
    baseKey: PublicKey,
    nextHash: Hash32,
    nextIndex: nat,
    accepted: bool,
    nextKey: PublicKey)

  datatype RelationshipState = RelationshipState(
    txId: Hash32,
    keyType: nat,
    keyIndex: nat,
    nextHash: Hash32,
    nextIndex: nat,
    seed: Bytes,
    flag: Bytes,
    encryptionType: nat,
    encryptionKey: Hash32,
    accepted: bool,
    members: seq<MemberState>,
    nextKey: PublicKey)

  /** One participant: the address index of its wallet and its stored relationships. */
  datatype Party = Party(index: IndexState, relationships: seq<RelationshipState>)

  datatype Failure =
    | SenderOutOfRange
    | ReceiverOutOfRange
    | NoSenderKey
    | WrongKey
    | NotFound
    | KeyNotFound
    | OutputPanic

  // ----- advancing a chain -----

  function AdvanceMember(m: MemberState): MemberState {
    var hash := NextHash(m.nextHash);
    m.(nextHash := hash, nextIndex := m.nextIndex + 1, nextKey := NextPublicKey(m.baseKey, hash))
  }

  function AdvanceMembers(ms: seq<MemberState>): (r: seq<MemberState>)
    ensures |r| == |ms|
    ensures forall i :: 0 <= i < |ms| ==> r[i] == AdvanceMember(ms[i])
  {
    seq(|ms|, i requires 0 <= i < |ms| => AdvanceMember(ms[i]))
  }

  function AdvanceRelationship(r: RelationshipState, wallet: nat): RelationshipState {
    var hash := NextHash(r.nextHash);
    r.(nextHash := hash, nextIndex := r.nextIndex + 1,
       nextKey := NextPublicKey(ChildKey(wallet, r.keyType, r.keyIndex), hash))
  }

  /** Relationship.IncrementHash: advance our own chain and register the new key. */
  function AdvanceOwn(p: Party, j: nat): Party
    requires j < |p.relationships|
  {
    var r := AdvanceRelationship(p.relationships[j], p.index.wallet);
    Party(AddKey(p.index, r.nextKey, r.keyType, r.keyIndex, r.nextHash), p.relationships[j := r])
  }

  function WithMembers(p: Party, j: nat, ms: seq<MemberState>): Party
    requires j < |p.relationships|
  {
    p.(relationships := p.relationships[j := p.relationships[j].(members := ms)])
  }

  /** The ratchet step of AcceptRelationship and SendMessage. */
  function SendStep(p: Party, j: nat): Party
    requires j < |p.relationships|
  {
    var q := AdvanceOwn(p, j);
    if p.relationships[j].encryptionType == 0
    then WithMembers(q, j, AdvanceMembers(q.relationships[j].members))
    else q
  }

  // ----- finding a relationship -----

  function FirstByKey(rs: seq<RelationshipState>, keyType: nat, keyIndex: nat): (r: Option<nat>)
    ensures r.Some? ==>
      && r.value < |rs| && rs[r.value].keyType == keyType && rs[r.value].keyIndex == keyIndex
      && (forall i :: 0 <= i < r.value ==> !(rs[i].keyType == keyType && rs[i].keyIndex == keyIndex))
    ensures r.None? ==>
      forall i :: 0 <= i < |rs| ==> !(rs[i].keyType == keyType && rs[i].keyIndex == keyIndex)
  {
    if rs == [] then None
    else
      var before := FirstByKey(rs[..|rs| - 1], keyType, keyIndex);
      if before.Some? then before
      else if rs[|rs| - 1].keyType == keyType && rs[|rs| - 1].keyIndex == keyIndex
      then Some(|rs| - 1)
      else None
  }

  function FirstByFlag(rs: seq<RelationshipState>, flag: Bytes): (r: Option<nat>)
    ensures r.Some? ==>
      && r.value < |rs| && rs[r.value].flag == flag
      && (forall i :: 0 <= i < r.value ==> rs[i].flag != flag)
    ensures r.None? ==> forall i :: 0 <= i < |rs| ==> rs[i].flag != flag
  {
    if rs == [] then None
    else
      var before := FirstByFlag(rs[..|rs| - 1], flag);
      if before.Some? then before
      else if rs[|rs| - 1].flag == flag then Some(|rs| - 1)
      else None
  }

  function FirstByNextKey(ms: seq<MemberState>, key: PublicKey): (r: Option<nat>)
    ensures r.Some? ==>
      && r.value < |ms| && ms[r.value].nextKey == key
      && (forall i :: 0 <= i < r.value ==> ms[i].nextKey != key)
    ensures r.None? ==> forall i :: 0 <= i < |ms| ==> ms[i].nextKey != key
  {
    if ms == [] then None
    else
      var before := FirstByNextKey(ms[..|ms| - 1], key);
      if before.Some? then before
      else if ms[|ms| - 1].nextKey == key then Some(|ms| - 1)
      else None
  }

  // ----- GetRelationshipForTx -----

  /** State of the two scans: the relationship found so far and whether we are the sender. */
  datatype Scan = Scan(party: Party, found: Option<nat>, areSender: bool)

  datatype ScanResult = Scanned(scan: Scan) | ScanFailed(party: Party, failure: Failure)

  predicate ValidScan(s: Scan) {
    s.found.Some? ==> s.found.value < |s.party.relationships|
  }

  predicate IsRelateType(keyType: nat) {
    keyType == KEY_TYPE_RELATE_IN || keyType == KEY_TYPE_RELATE_OUT
  }

  /** The relationship an owned relationship key belongs to. */
  function Resolve(s: Scan, info: AddressInfo): (r: Result<nat, Failure>)
    requires ValidScan(s)
    ensures r.Ok? ==> r.value < |s.party.relationships|
  {
    match s.found
    case Some(j) =>
      var r := s.party.relationships[j];
      if info.keyType != r.keyType || info.keyIndex != r.keyIndex then Err(WrongKey) else Ok(j)
    case None =>
      match FirstByKey(s.party.relationships, info.keyType, info.keyIndex)
      case Some(j) => Ok(j)
      case None => Err(NotFound)
  }

  function AdvanceIfNext(p: Party, j: nat, info: AddressInfo): Party
    requires j < |p.relationships|
  {
    if info.publicKey == p.relationships[j].nextKey then AdvanceOwn(p, j) else p
  }

  /** The relationship key entry behind an address, if the wallet owns one. */
  function RelateEntry(ix: IndexState, ra: RawAddress): Option<AddressInfo> {
    match Lookup(ix, ra)
    case Present(ref) => if IsRelateType(InfoOf(ix, ref).keyType) then Some(InfoOf(ix, ref)) else None
    case _ => None
  }

  function SenderTurn(s: Scan, tx: Tx, i: nat): (r: ScanResult)
    requires ValidScan(s)
    ensures r.Scanned? ==> ValidScan(r.scan) && i < |tx.inputs| && UnlockingKey(tx.inputs[i]).Some?
  {
    if i >= |tx.inputs| then ScanFailed(s.party, SenderOutOfRange)
    else if UnlockingKey(tx.inputs[i]).None? then ScanFailed(s.party, NoSenderKey)
    else
      match RelateEntry(s.party.index, PayToKeyHash(Hash160(UnlockingKey(tx.inputs[i]).value)))
      case None => Scanned(s)
      case Some(info) =>
        match Resolve(s, info)
        case Err(e) => ScanFailed(s.party, e)
        case Ok(j) => Scanned(Scan(AdvanceIfNext(s.party, j, info), Some(j), true))
  }

  /** A receiver key advances our chain only when it is what found the relationship. */
  function ReceiverTurn(s: Scan, tx: Tx, i: nat): (r: ScanResult)
    requires ValidScan(s)
    ensures r.Scanned? ==> ValidScan(r.scan) && i < |tx.outputs|
  {
    if i >= |tx.outputs| then ScanFailed(s.party, ReceiverOutOfRange)
    else
      match RelateEntry(s.party.index, AddressOf(tx.outputs[i].script))
      case None => Scanned(s)
      case Some(info) =>
        match Resolve(s, info)
        case Err(e) => ScanFailed(s.party, e)
        case Ok(j) =>
          Scanned(if s.found.Some? then s
                  else s.(party := AdvanceIfNext(s.party, j, info), found := Some(j)))
  }

  function ScanSenders(s: Scan, tx: Tx, senders: seq<nat>): (r: ScanResult)
    requires ValidScan(s)
    ensures r.Scanned? ==> ValidScan(r.scan)
    ensures r.Scanned? ==> forall k :: 0 <= k < |senders| ==>
              senders[k] < |tx.inputs| && UnlockingKey(tx.inputs[senders[k]]).Some?
    decreases |senders|
  {
    if senders == [] then Scanned(s)
    else
      match SenderTurn(s, tx, senders[0])
      case Scanned(next) => ScanSenders(next, tx, senders[1..])
      case failed => failed
  }

  function ScanReceivers(s: Scan, tx: Tx, receivers: seq<nat>): (r: ScanResult)
    requires ValidScan(s)
    ensures r.Scanned? ==> ValidScan(r.scan)
    decreases |receivers|
  {
    if receivers == [] then Scanned(s)
    else
      match ReceiverTurn(s, tx, receivers[0])
      case Scanned(next) => ScanReceivers(next, tx, receivers[1..])
      case failed => failed
  }

  function AdvanceFirst(ms: seq<MemberState>, key: PublicKey): (r: seq<MemberState>)
    ensures |r| == |ms|
  {
    match FirstByNextKey(ms, key)
    case Some(i) => ms[i := AdvanceMember(ms[i])]
    case None => ms
  }

  /** The members after the sender keys were seen, and the member the transaction is put down to. */
  function SeeSenders(ms: seq<MemberState>, at: nat, areSender: bool, tx: Tx, senders: seq<nat>)
    : (r: (seq<MemberState>, nat))
    requires forall k :: 0 <= k < |senders| ==>
               senders[k] < |tx.inputs| && UnlockingKey(tx.inputs[senders[k]]).Some?
    ensures |r.0| == |ms|
    decreases |senders|
  {
    if senders == [] then (ms, at)
    else
      var key := UnlockingKey(tx.inputs[senders[0]]).value;
      var found := FirstByNextKey(ms, key);
      SeeSenders(AdvanceFirst(ms, key), if found.Some? && !areSender then found.value else at,
                 areSender, tx, senders[1..])
  }

  /** The members after the receiver keys were seen; None is the unchecked output index. */
  function SeeReceivers(ms: seq<MemberState>, tx: Tx, receivers: seq<nat>): (r: Option<seq<MemberState>>)
    ensures r.Some? ==> |r.value| == |ms|
    decreases |receivers|
  {
    if receivers == [] then Some(ms)
    else if receivers[0] >= |tx.outputs| then None
    else
      match AddressOf(tx.outputs[receivers[0]].script)
      case PayToKey(key) => SeeReceivers(AdvanceFirst(ms, key), tx, receivers[1..])
      case _ => SeeReceivers(ms, tx, receivers[1..])
  }

  datatype MatchResult =
    | Matched(party: Party, relationship: nat, areSender: bool, memberIndex: nat)
    | Unmatched(party: Party, failure: Failure)

  function OrFirst(indexes: seq<nat>): seq<nat> {
    if indexes == [] then [0] else indexes
  }

  function FlagScan(p: Party, flag: Bytes): (s: Scan)
    ensures ValidScan(s)
  {
    Scan(p, if |flag| > 0 then FirstByFlag(p.relationships, flag) else None, false)
  }

  /** The part of GetRelationshipForTx after both scans. */
  function AdvanceMatched(s: Scan, tx: Tx, senders: seq<nat>, receivers: seq<nat>): MatchResult
    requires ValidScan(s)
    requires forall k :: 0 <= k < |senders| ==>
               senders[k] < |tx.inputs| && UnlockingKey(tx.inputs[senders[k]]).Some?
  {
    match s.found
    case None => Unmatched(s.party, NotFound)
    case Some(j) =>
      var (ms, at) := SeeSenders(s.party.relationships[j].members, 0, s.areSender, tx, senders);
      match SeeReceivers(ms, tx, receivers)
      case None => Unmatched(WithMembers(s.party, j, ms), OutputPanic)
      case Some(seen) => Matched(WithMembers(s.party, j, seen), j, s.areSender, at)
  }

  /** GetRelationshipForTx, with the index lists of the message as it carries them. */
  function MatchTx(p: Party, tx: Tx, senderIndexes: seq<nat>, receiverIndexes: seq<nat>, flag: Bytes)
    : MatchResult
  {
    var senders, receivers := OrFirst(senderIndexes), OrFirst(receiverIndexes);
    match ScanSenders(FlagScan(p, flag), tx, senders)
    case ScanFailed(q, e) => Unmatched(q, e)
    case Scanned(s) =>
      if s.areSender then AdvanceMatched(s, tx, senders, receivers)
      else
        match ScanReceivers(s, tx, receivers)
        case ScanFailed(q, e) => Unmatched(q, e)
        case Scanned(t) => AdvanceMatched(t, tx, senders, receivers)
  }

  // ----- the window search and the encryption key -----

  /** The smallest chain position in `from .. limit` whose derived key is `key`. */
  function SearchChain(base: PublicKey, seed: Bytes, key: PublicKey, from: nat, limit: nat): (r: Option<nat>)
    requires from >= 1
    ensures r.Some? ==>
      && from <= r.value < limit && NextPublicKey(base, Chain(seed, r.value)) == key
      && (forall i :: from <= i < r.value ==> NextPublicKey(base, Chain(seed, i)) != key)
    ensures r.None? ==>
      forall i :: from <= i < limit ==> NextPublicKey(base, Chain(seed, i)) != key
    decreases limit - from
  {
    if from >= limit then None
    else if NextPublicKey(base, Chain(seed, from)) == key then Some(from)
    else SearchChain(base, seed, key, from + 1, limit)
  }

  /** How far past the next position a key is still recognised. */
  const WINDOW: nat := 10

  function FindOwnKey(r: RelationshipState, wallet: nat, key: PublicKey): (i: Option<nat>)
    ensures i.Some? ==> i.value >= 1
  {
    SearchChain(ChildKey(wallet, r.keyType, r.keyIndex), r.seed, key, 1, r.nextIndex + WINDOW)
  }

  function FindMemberKey(m: MemberState, seed: Bytes, key: PublicKey): (i: Option<nat>)
    ensures i.Some? ==> i.value >= 1
  {
    SearchChain(m.baseKey, seed, key, 1, m.nextIndex + WINDOW)
  }

  /** The first member, from `k` on, whose window holds the key, with the position found. */
  function FindAnyMemberKey(ms: seq<MemberState>, seed: Bytes, key: PublicKey, k: nat): (i: Option<nat>)
    requires k <= |ms|
    ensures i.Some? ==> i.value >= 1
    decreases |ms| - k
  {
    if k == |ms| then None
    else if FindMemberKey(ms[k], seed, key).Some? then FindMemberKey(ms[k], seed, key)
    else FindAnyMemberKey(ms, seed, key, k + 1)
  }

  /** FindHash: a member key that is not current comes back with the encryption key added. */
  function FindHash(r: RelationshipState, wallet: nat, key: PublicKey): Result<Hash32, Failure> {
    if r.nextKey == key then Ok(r.nextHash)
    else
      match FirstByNextKey(r.members, key)
      case Some(i) => Ok(r.members[i].nextHash)
      case None =>
        match FindOwnKey(r, wallet, key)
        case Some(i) => Ok(Chain(r.seed, i))
        case None =>
          match FindAnyMemberKey(r.members, r.seed, key, 0)
          case Some(i) => Ok(AddHashes(r.encryptionKey, Chain(r.seed, i)))
          case None => Err(KeyNotFound)
  }

  function FindEncryptionKey(r: RelationshipState, wallet: nat, key: PublicKey): Result<Hash32, Failure> {
    match FindHash(r, wallet, key)
    case Ok(h) => Ok(AddHashes(r.encryptionKey, h))
    case Err(e) => Err(e)
  }
}
