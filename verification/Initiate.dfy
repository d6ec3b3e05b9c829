/**
 Starting a relationship: what the initiator stores, what every participant rebuilds from the
 initiate transaction, and that the two agree and start the protocol of Direct.dfy or Indirect.dfy.
 */
module Initiate {
  import opened Results
  import opened Bitcoin
  import opened AddressSpec
  import opened Ratchet
  import opened RatchetLaws
  import P = Protocol
  import Direct
  import Indirect

  datatype JoinError =
    | TooManySenders
    | SenderMissing
    | SenderUnreadable
    | ReceiverMissing
    | ReceiverNotKey
    | WrongKeyType
    | NotAMember

  /** What the initiate message carries in private. */
  datatype Terms = Terms(seed: Bytes, flag: Bytes, encryptionType: nat)

  function FreshMember(key: PublicKey, seed: Bytes): MemberState {
    MemberState(key, Sha256(seed), 1, false, NextPublicKey(key, Sha256(seed)))
  }

  function FreshMembers(keys: seq<PublicKey>, seed: Bytes): (r: seq<MemberState>)
    ensures |r| == |keys| && forall i :: 0 <= i < |keys| ==> r[i] == FreshMember(keys[i], seed)
  {
    seq(|keys|, i requires 0 <= i < |keys| => FreshMember(keys[i], seed))
  }

  // ----- InitiateRelationship -----

  /** A flag and indirect encryption only for more than one receiver. */
  function Initiated(txId: Hash32, wallet: nat, keyIndex: nat, seed: Bytes, flag: Bytes, key: Hash32, receivers: seq<PublicKey>)
    : RelationshipState
  {
    var many := |receivers| > 1;
    RelationshipState(
      txId, KEY_TYPE_RELATE_OUT, keyIndex, Sha256(seed), 1, seed,
      if many then flag else [],
      if many then 1 else 0,
      if many then key else RawHash(0),
      true,
      FreshMembers(receivers, seed),
      NextPublicKey(ChildKey(wallet, KEY_TYPE_RELATE_OUT, keyIndex), Sha256(seed)))
  }

  /** Store a relationship and register its first key. */
  function Enroll(p: Party, r: RelationshipState): Party {
    Party(AddKey(p.index, r.nextKey, r.keyType, r.keyIndex, r.nextHash), p.relationships + [r])
  }

  // ----- ProcessInitiateRelationship -----

  /** The loop state: whether our key was found, and the members so far. */
  datatype Joining = Joining(
    index: IndexState,
    own: Option<AddressInfo>,
    nextKey: PublicKey,
    members: seq<MemberState>)

  datatype JoinResult = Joined(state: Joining) | JoinFailed(index: IndexState, error: JoinError)

  function FoundInfo(ix: IndexState, ra: RawAddress): Option<AddressInfo> {
    match Lookup(ix, ra)
    case Present(ref) => Some(InfoOf(ix, ref))
    case _ => None
  }

  /** One participant key, already looked up as `ra`; `base` is the key ours would be derived from. */
  function JoinTurn(b: Joining, key: PublicKey, ra: RawAddress, wanted: nat, isSender: bool, seed: Bytes): JoinResult {
    if b.own.None? && FoundInfo(b.index, ra).Some? then
      var info := FoundInfo(b.index, ra).value;
      if info.keyType != wanted then JoinFailed(b.index, WrongKeyType)
      else
        var next := NextPublicKey(if isSender then info.publicKey else key, Sha256(seed));
        Joined(b.(index := AddKey(b.index, next, info.keyType, info.keyIndex, Sha256(seed)),
                  own := Some(info), nextKey := next))
    else
      Joined(b.(members := b.members + [FreshMember(key, seed)]))
  }

  function JoinSender(b: Joining, tx: Tx, i: nat, seed: Bytes): JoinResult {
    if i >= |tx.inputs| then JoinFailed(b.index, SenderMissing)
    else if UnlockingKey(tx.inputs[i]).None? then JoinFailed(b.index, SenderUnreadable)
    else
      var key := UnlockingKey(tx.inputs[i]).value;
      JoinTurn(b, key, PayToKeyHash(Hash160(key)), KEY_TYPE_RELATE_OUT, true, seed)
  }

  function JoinReceivers(b: Joining, tx: Tx, receivers: seq<nat>, seed: Bytes): JoinResult
    decreases |receivers|
  {
    if receivers == [] then Joined(b)
    else if receivers[0] >= |tx.outputs| then JoinFailed(b.index, ReceiverMissing)
    else
      match AddressOf(tx.outputs[receivers[0]].script)
      case PayToKey(key) =>
        (match JoinTurn(b, key, PayToKey(key), KEY_TYPE_RELATE_IN, false, seed)
         case Joined(next) => JoinReceivers(next, tx, receivers[1..], seed)
         case failed => failed)
      case _ => JoinFailed(b.index, ReceiverNotKey)
  }

  function Recovered(b: Joining, txId: Hash32, terms: Terms, key: Hash32): RelationshipState
    requires b.own.Some?
  {
    RelationshipState(
      txId, b.own.value.keyType, b.own.value.keyIndex, Sha256(terms.seed), 1, terms.seed, terms.flag,
      terms.encryptionType, if terms.encryptionType != 0 then key else RawHash(0), false, b.members, b.nextKey)
  }

  /** ProcessInitiateRelationship; an error after our key was found still leaves it registered. */
  function ProcessInitiate(p: Party, txId: Hash32, tx: Tx, senders: seq<nat>, receivers: seq<nat>, terms: Terms, key: Hash32)
    : (Party, Option<JoinError>)
  {
    if exists i :: 0 <= i < |p.relationships| && p.relationships[i].txId == txId then (p, None)
    else if |senders| > 1 then (p, Some(TooManySenders))
    else
      var start := Joining(p.index, None, NoKey, []);
      match JoinSender(start, tx, OrFirst(senders)[0], terms.seed)
      case JoinFailed(ix, e) => (p.(index := ix), Some(e))
      case Joined(b) =>
        match JoinReceivers(b, tx, OrFirst(receivers), terms.seed)
        case JoinFailed(ix, e) => (p.(index := ix), Some(e))
        case Joined(done) =>
          if done.own.None? then (p.(index := done.index), Some(NotAMember))
          else (Party(done.index, p.relationships + [Recovered(done, txId, terms, key)]), None)
  }

  // ----- the initiate transaction -----

  /** One sender key on input 0 and one key output per receiver, in order. */
  ghost predicate InitiateShape(tx: Tx, sender: PublicKey, receivers: seq<PublicKey>) {
    && |tx.inputs| > 0 && UnlockingKey(tx.inputs[0]) == Some(sender)
    && 0 < |receivers| <= |tx.outputs|
    && forall i :: 0 <= i < |receivers| ==> AddressOf(tx.outputs[i].script) == PayToKey(receivers[i])
  }

  /** How the loop looks up participant `i`: 0 is the sender. */
  function ParticipantAddress(keys: seq<PublicKey>, i: nat): RawAddress
    requires i < |keys|
  {
    if i == 0 then PayToKeyHash(Hash160(keys[0])) else PayToKey(keys[i])
  }

  function WantedType(i: nat): nat {
    if i == 0 then KEY_TYPE_RELATE_OUT else KEY_TYPE_RELATE_IN
  }

  /** Participant `own` is the first key of the transaction this index knows. */
  ghost predicate FirstOwned(ix: IndexState, keys: seq<PublicKey>, own: nat) {
    && own < |keys|
    && FoundInfo(ix, ParticipantAddress(keys, own)).Some?
    && (forall i :: 0 <= i < own ==> FoundInfo(ix, ParticipantAddress(keys, i)).None?)
  }

  function Without(keys: seq<PublicKey>, own: nat): seq<PublicKey>
    requires own < |keys|
  {
    keys[..own] + keys[own + 1..]
  }

  lemma FreshMembersAppend(keys: seq<PublicKey>, key: PublicKey, seed: Bytes)
    ensures FreshMembers(keys + [key], seed) == FreshMembers(keys, seed) + [FreshMember(key, seed)]
  {
  }

  /** The loop state after our own key was taken. */
  function Taken(b: Joining, info: AddressInfo, next: PublicKey, seed: Bytes): Joining {
    b.(index := AddKey(b.index, next, info.keyType, info.keyIndex, Sha256(seed)), own := Some(info), nextKey := next)
  }

  lemma TurnSkips(b: Joining, key: PublicKey, ra: RawAddress, wanted: nat, isSender: bool, seed: Bytes)
    requires b.own.None? && FoundInfo(b.index, ra).None?
    ensures JoinTurn(b, key, ra, wanted, isSender, seed) ==
            Joined(b.(members := b.members + [FreshMember(key, seed)]))
  {
  }

  lemma TurnAdds(b: Joining, key: PublicKey, ra: RawAddress, wanted: nat, isSender: bool, seed: Bytes)
    requires b.own.Some?
    ensures JoinTurn(b, key, ra, wanted, isSender, seed) ==
            Joined(b.(members := b.members + [FreshMember(key, seed)]))
  {
  }

  lemma TurnTakes(b: Joining, key: PublicKey, ra: RawAddress, wanted: nat, isSender: bool, seed: Bytes)
    requires b.own.None? && FoundInfo(b.index, ra).Some? && FoundInfo(b.index, ra).value.keyType == wanted
    ensures var info := FoundInfo(b.index, ra).value;
            JoinTurn(b, key, ra, wanted, isSender, seed) ==
            Joined(Taken(b, info, NextPublicKey(if isSender then info.publicKey else key, Sha256(seed)), seed))
  {
  }

  lemma ReceiversUnfold(b: Joining, tx: Tx, sender: PublicKey, keys: seq<PublicKey>, seed: Bytes, k: nat, next: Joining)
    requires InitiateShape(tx, sender, keys) && k < |keys|
    requires JoinTurn(b, keys[k], PayToKey(keys[k]), KEY_TYPE_RELATE_IN, false, seed) == Joined(next)
    ensures JoinReceivers(b, tx, Upto(|keys|)[k..], seed) == JoinReceivers(next, tx, Upto(|keys|)[k + 1..], seed)
  {
    hide JoinTurn;
    var rest := Upto(|keys|)[k..];
    assert rest[0] == k && rest[1..] == Upto(|keys|)[k + 1..];
  }

  /** Once our key is found, every later participant becomes a member. */
  lemma {:induction false} JoinRest(b: Joining, tx: Tx, sender: PublicKey, keys: seq<PublicKey>, seed: Bytes, k: nat)
    requires InitiateShape(tx, sender, keys) && k <= |keys| && b.own.Some?
    ensures JoinReceivers(b, tx, Upto(|keys|)[k..], seed) ==
            Joined(b.(members := b.members + FreshMembers(keys[k..], seed)))
    decreases |keys| - k
  {
    hide JoinTurn, InitiateShape;
    if k == |keys| {
      assert FreshMembers(keys[k..], seed) == [];
      assert Upto(|keys|)[k..] == [];
    } else {
      var next := b.(members := b.members + [FreshMember(keys[k], seed)]);
      TurnAdds(b, keys[k], PayToKey(keys[k]), KEY_TYPE_RELATE_IN, false, seed);
      ReceiversUnfold(b, tx, sender, keys, seed, k, next);
      JoinRest(next, tx, sender, keys, seed, k + 1);
      assert [FreshMember(keys[k], seed)] + FreshMembers(keys[k + 1..], seed) == FreshMembers(keys[k..], seed);
    }
  }

  /** The receivers before ours become members, ours is taken, the others become members. */
  lemma {:induction false} JoinUntil(b: Joining, tx: Tx, sender: PublicKey, keys: seq<PublicKey>, seed: Bytes, k: nat, own: nat)
    requires InitiateShape(tx, sender, keys) && k <= own < |keys| && b.own.None?
    requires FoundInfo(b.index, PayToKey(keys[own])).Some?
    requires FoundInfo(b.index, PayToKey(keys[own])).value.keyType == KEY_TYPE_RELATE_IN
    requires forall i :: k <= i < own ==> FoundInfo(b.index, PayToKey(keys[i])).None?
    ensures var info := FoundInfo(b.index, PayToKey(keys[own])).value;
            JoinReceivers(b, tx, Upto(|keys|)[k..], seed) ==
            Joined(Taken(b, info, NextPublicKey(keys[own], Sha256(seed)), seed)
                   .(members := b.members + FreshMembers(keys[k..own] + keys[own + 1..], seed)))
    decreases own - k
  {
    hide FoundInfo, JoinTurn, JoinReceivers, InitiateShape;
    if k == own {
      var info := FoundInfo(b.index, PayToKey(keys[own])).value;
      var taken := Taken(b, info, NextPublicKey(keys[own], Sha256(seed)), seed);
      TurnTakes(b, keys[own], PayToKey(keys[own]), KEY_TYPE_RELATE_IN, false, seed);
      ReceiversUnfold(b, tx, sender, keys, seed, k, taken);
      JoinRest(taken, tx, sender, keys, seed, k + 1);
      assert keys[k..own] + keys[own + 1..] == keys[k + 1..];
    } else {
      var next := b.(members := b.members + [FreshMember(keys[k], seed)]);
      TurnSkips(b, keys[k], PayToKey(keys[k]), KEY_TYPE_RELATE_IN, false, seed);
      ReceiversUnfold(b, tx, sender, keys, seed, k, next);
      JoinUntil(next, tx, sender, keys, seed, k + 1, own);
      var others := keys[k + 1..own] + keys[own + 1..];
      assert keys[k..own] + keys[own + 1..] == [keys[k]] + others;
      assert FreshMembers([keys[k]] + others, seed) == [FreshMember(keys[k], seed)] + FreshMembers(others, seed);
      assert next.members + FreshMembers(others, seed) == b.members + FreshMembers([keys[k]] + others, seed);
    }
  }

  /** The relationship participant `own` stores. */
  function Membership(info: AddressInfo, txId: Hash32, keys: seq<PublicKey>, own: nat, terms: Terms, key: Hash32)
    : RelationshipState
    requires own < |keys|
  {
    RelationshipState(
      txId, info.keyType, info.keyIndex, Sha256(terms.seed), 1, terms.seed, terms.flag, terms.encryptionType,
      if terms.encryptionType != 0 then key else RawHash(0), false,
      FreshMembers(Without(keys, own), terms.seed),
      NextPublicKey(if own == 0 then info.publicKey else keys[own], Sha256(terms.seed)))
  }

  /**
   A participant rebuilds the membership from the transaction: all keys in transaction order with its
   own first key left out, every chain at position 1 of the same seed.
   */
  lemma JoinRebuildsMembership(p: Party, txId: Hash32, tx: Tx, keys: seq<PublicKey>, own: nat, terms: Terms, key: Hash32)
    requires |keys| > 1 && InitiateShape(tx, keys[0], keys[1..]) && FirstOwned(p.index, keys, own)
    requires FoundInfo(p.index, ParticipantAddress(keys, own)).value.keyType == WantedType(own)
    requires forall i :: 0 <= i < |p.relationships| ==> p.relationships[i].txId != txId
    ensures var info := FoundInfo(p.index, ParticipantAddress(keys, own)).value;
            ProcessInitiate(p, txId, tx, [0], Upto(|keys| - 1), terms, key) ==
            (Enroll(p, Membership(info, txId, keys, own, terms, key)), None)
  {
    if own == 0 {
      SenderRebuilds(p, txId, tx, keys, terms, key);
    } else {
      ReceiverRebuilds(p, txId, tx, keys, own, terms, key);
    }
  }

  lemma SenderRebuilds(p: Party, txId: Hash32, tx: Tx, keys: seq<PublicKey>, terms: Terms, key: Hash32)
    requires |keys| > 1 && InitiateShape(tx, keys[0], keys[1..]) && FirstOwned(p.index, keys, 0)
    requires FoundInfo(p.index, ParticipantAddress(keys, 0)).value.keyType == KEY_TYPE_RELATE_OUT
    requires forall i :: 0 <= i < |p.relationships| ==> p.relationships[i].txId != txId
    ensures var info := FoundInfo(p.index, ParticipantAddress(keys, 0)).value;
            ProcessInitiate(p, txId, tx, [0], Upto(|keys| - 1), terms, key) ==
            (Enroll(p, Membership(info, txId, keys, 0, terms, key)), None)
  {
    var ra := ParticipantAddress(keys, 0);
    hide FoundInfo, JoinTurn, JoinReceivers;
    var info := FoundInfo(p.index, ra).value;
    var start := Joining(p.index, None, NoKey, []);
    var b := Taken(start, info, NextPublicKey(info.publicKey, Sha256(terms.seed)), terms.seed);
    TurnTakes(start, keys[0], ra, KEY_TYPE_RELATE_OUT, true, terms.seed);
    JoinRest(b, tx, keys[0], keys[1..], terms.seed, 0);
    assert OrFirst(Upto(|keys| - 1)) == Upto(|keys[1..]|)[0..];
    assert keys[1..][0..] == Without(keys, 0);
    assert b.members + FreshMembers(Without(keys, 0), terms.seed) == FreshMembers(Without(keys, 0), terms.seed);
  }

  lemma ReceiverRebuilds(p: Party, txId: Hash32, tx: Tx, keys: seq<PublicKey>, own: nat, terms: Terms, key: Hash32)
    requires |keys| > 1 && InitiateShape(tx, keys[0], keys[1..]) && FirstOwned(p.index, keys, own) && own > 0
    requires FoundInfo(p.index, ParticipantAddress(keys, own)).value.keyType == KEY_TYPE_RELATE_IN
    requires forall i :: 0 <= i < |p.relationships| ==> p.relationships[i].txId != txId
    ensures var info := FoundInfo(p.index, ParticipantAddress(keys, own)).value;
            ProcessInitiate(p, txId, tx, [0], Upto(|keys| - 1), terms, key) ==
            (Enroll(p, Membership(info, txId, keys, own, terms, key)), None)
  {
    hide FoundInfo, JoinTurn, JoinReceivers;
    var rest := keys[1..];
    var start := Joining(p.index, None, NoKey, []);
    var b := start.(members := [FreshMember(keys[0], terms.seed)]);
    assert FoundInfo(p.index, ParticipantAddress(keys, 0)).None?;
    TurnSkips(start, keys[0], ParticipantAddress(keys, 0), KEY_TYPE_RELATE_OUT, true, terms.seed);
    assert start.members + [FreshMember(keys[0], terms.seed)] == b.members;
    forall i | 0 <= i < own - 1 ensures FoundInfo(p.index, PayToKey(rest[i])).None? {
      assert FoundInfo(p.index, ParticipantAddress(keys, i + 1)).None?;
    }
    JoinUntil(b, tx, keys[0], rest, terms.seed, 0, own - 1);
    assert OrFirst(Upto(|keys| - 1)) == Upto(|rest|)[0..];
    var others := rest[0..own - 1] + rest[own..];
    assert Without(keys, own) == [keys[0]] + others;
    assert FreshMembers([keys[0]] + others, terms.seed) == b.members + FreshMembers(others, terms.seed);
  }

  /** Own key and members together are a permutation of all keys of the transaction. */
  lemma MembershipIsPermutation(keys: seq<PublicKey>, own: nat)
    requires own < |keys|
    ensures multiset([keys[own]] + Without(keys, own)) == multiset(keys)
  {
    assert keys == keys[..own] + ([keys[own]] + keys[own + 1..]);
  }

  /** A key that belongs to nobody here is not found. */
  lemma StrangerRejected(p: Party, txId: Hash32, tx: Tx, keys: seq<PublicKey>, terms: Terms, key: Hash32)
    requires |keys| > 1 && InitiateShape(tx, keys[0], keys[1..])
    requires forall i :: 0 <= i < |keys| ==> FoundInfo(p.index, ParticipantAddress(keys, i)).None?
    requires forall i :: 0 <= i < |p.relationships| ==> p.relationships[i].txId != txId
    ensures ProcessInitiate(p, txId, tx, [0], Upto(|keys| - 1), terms, key) == (p, Some(NotAMember))
  {
    hide Lookup;
    var b := Joining(p.index, None, NoKey, [FreshMember(keys[0], terms.seed)]);
    assert FoundInfo(p.index, ParticipantAddress(keys, 0)).None?;
    assert [] + [FreshMember(keys[0], terms.seed)] == b.members;
    forall i | 0 <= i < |keys| - 1 ensures FoundInfo(p.index, PayToKey(keys[1..][i])).None? {
      assert FoundInfo(p.index, ParticipantAddress(keys, i + 1)).None?;
    }
    assert OrFirst(Upto(|keys| - 1)) == Upto(|keys[1..]|)[0..];
    JoinNobody(b, tx, keys[0], keys[1..], terms.seed, 0);
  }

  lemma {:induction false} JoinNobody(b: Joining, tx: Tx, sender: PublicKey, keys: seq<PublicKey>, seed: Bytes, k: nat)
    requires InitiateShape(tx, sender, keys) && k <= |keys| && b.own.None?
    requires forall i :: k <= i < |keys| ==> FoundInfo(b.index, PayToKey(keys[i])).None?
    ensures var r := JoinReceivers(b, tx, Upto(|keys|)[k..], seed);
            r.Joined? && r.state.own.None? && r.state.index == b.index
    decreases |keys| - k
  {
    hide Lookup;
    if k < |keys| {
      var rest := Upto(|keys|)[k..];
      assert rest[0] == k && rest[1..] == Upto(|keys|)[k + 1..];
      JoinNobody(b.(members := b.members + [FreshMember(keys[k], seed)]), tx, sender, keys, seed, k + 1);
    }
  }

  // ----- the chain of a rebuilt relationship -----

  /**
   The stored next key is on the chain of the stored key exactly when the transaction named a listed
   key, and, for the sender, the entry still holds its public key. A transaction that names one of
   our derived keys gives a relationship whose next key we cannot derive again.
   */
  lemma RebuiltChainIff(ix: IndexState, txId: Hash32, keys: seq<PublicKey>, own: nat, terms: Terms, key: Hash32)
    requires WellFormed(ix) && FirstOwned(ix, keys, own)
    ensures var ra := ParticipantAddress(keys, own);
            var ref := Lookup(ix, ra).ref;
            var r := Membership(InfoOf(ix, ref), txId, keys, own, terms, key);
            OnChain(r, ix.wallet) <==> ref.Listed? && (own == 0 ==> SlotOf(ix, ref).keyed)
  {
    var ra := ParticipantAddress(keys, own);
    var ref := Lookup(ix, ra).ref;
    var r := Membership(InfoOf(ix, ref), txId, keys, own, terms, key);
    assert PaidKey(ra) == Some(keys[own]);
    assert OwnerOf(ix, keys[own]) == Some(ref);
    assert forall i :: 0 <= i < |r.members| ==> MemberOnChain(r.members[i], r.seed);
    assert OnChain(r, ix.wallet) <==> r.nextKey == OwnKey(r, ix.wallet, 1);
  }

  /**
   An initiator that rebuilds its own relationship from the transaction gets all of it back except that
   it is no longer accepted.
   */
  lemma RecoveredInitiator(ix: IndexState, txId: Hash32, keys: seq<PublicKey>, keyIndex: nat, seed: Bytes, flag: Bytes, key: Hash32)
    requires WellFormed(ix) && |keys| > 1
    requires ValidRef(ix, Listed(KEY_TYPE_RELATE_OUT, keyIndex)) && SlotOf(ix, Listed(KEY_TYPE_RELATE_OUT, keyIndex)).keyed
    requires keys[0] == ChildKey(ix.wallet, KEY_TYPE_RELATE_OUT, keyIndex)
    ensures FirstOwned(ix, keys, 0)
    ensures var info := FoundInfo(ix, ParticipantAddress(keys, 0)).value;
            var initiated := Initiated(txId, ix.wallet, keyIndex, seed, flag, key, keys[1..]);
            Membership(info, txId, keys, 0, SharedTerms(keys, seed, flag), key) == initiated.(accepted := false)
            && initiated.accepted
  {
    assert Without(keys, 0) == keys[1..];
  }

  // ----- from an initiate transaction to the protocol -----

  /** Participants about to start: each owns its key, in distinct wallets. */
  ghost predicate Owning(ps: seq<Party>, keys: seq<PublicKey>, txId: Hash32) {
    && |ps| == |keys| > 1
    && (forall k :: 0 <= k < |ps| ==> ReadyOne(ps[k], keys[k], WantedType(k), txId))
    && (forall i, k :: 0 <= i < k < |ps| ==> ps[i].index.wallet != ps[k].index.wallet)
  }

  /** What is new to all of them: the flag, for several receivers, and for one receiver the keys. */
  ghost predicate AllNew(ps: seq<Party>, keys: seq<PublicKey>, flag: Bytes) {
    && |ps| == |keys|
    && forall k :: 0 <= k < |ps| ==>
         if |keys| > 2 then NewFlag(ps[k], flag) else keys[k].ChildKey? && NewKey(ps[k], keys[k])
  }

  ghost predicate Ready(ps: seq<Party>, keys: seq<PublicKey>, txId: Hash32, flag: Bytes) {
    Owning(ps, keys, txId) && AllNew(ps, keys, flag)
  }

  ghost predicate ReadyOne(p: Party, key: PublicKey, keyType: nat, txId: Hash32) {
    && key.ChildKey? && key.wallet == p.index.wallet && key.keyType == keyType
    && ValidRef(p.index, Listed(key.keyType, key.keyIndex))
    && OwnKeysOnly(p.index)
    && (forall i :: 0 <= i < |p.relationships| ==> p.relationships[i].txId != txId)
  }

  predicate NewFlag(p: Party, flag: Bytes) {
    flag != [] && forall i :: 0 <= i < |p.relationships| ==> p.relationships[i].flag != flag
  }

  /** No relationship is stored under the key yet. */
  predicate NewKey(p: Party, key: PublicKey)
    requires key.ChildKey?
  {
    forall i :: 0 <= i < |p.relationships| ==>
      !(p.relationships[i].keyType == key.keyType && p.relationships[i].keyIndex == key.keyIndex)
  }

  /** What participant `k` stores: 0 initiated, the others processed the transaction. */
  function Stored(p: Party, k: nat, keys: seq<PublicKey>, txId: Hash32, tx: Tx, seed: Bytes, flag: Bytes, key: Hash32)
    : Party
    requires |keys| > 1 && k < |keys| && keys[0].ChildKey?
  {
    if k == 0 then Enroll(p, Initiated(txId, keys[0].wallet, keys[0].keyIndex, seed, flag, key, keys[1..]))
    else ProcessInitiate(p, txId, tx, [0], Upto(|keys| - 1), SharedTerms(keys, seed, flag), key).0
  }

  function SharedTerms(keys: seq<PublicKey>, seed: Bytes, flag: Bytes): Terms {
    if |keys| > 2 then Terms(seed, flag, 1) else Terms(seed, [], 0)
  }

  /** The relationship every participant ends up with. */
  function Expected(k: nat, keys: seq<PublicKey>, txId: Hash32, seed: Bytes, flag: Bytes, key: Hash32)
    : RelationshipState
    requires |keys| > 1 && k < |keys| && keys[k].ChildKey?
  {
    var terms := SharedTerms(keys, seed, flag);
    RelationshipState(
      txId, keys[k].keyType, keys[k].keyIndex, Sha256(seed), 1, seed, terms.flag, terms.encryptionType,
      if |keys| > 2 then key else RawHash(0), k == 0,
      FreshMembers(Without(keys, k), seed), NextPublicKey(keys[k], Sha256(seed)))
  }

  lemma StoredIsExpected(ps: seq<Party>, k: nat, keys: seq<PublicKey>, txId: Hash32, tx: Tx, seed: Bytes, flag: Bytes, key: Hash32)
    requires Owning(ps, keys, txId) && k < |keys| && InitiateShape(tx, keys[0], keys[1..])
    ensures Stored(ps[k], k, keys, txId, tx, seed, flag, key) ==
            Enroll(ps[k], Expected(k, keys, txId, seed, flag, key))
  {
    if k == 0 {
      assert keys[1..] == Without(keys, 0);
    } else {
      OwningFirstOwned(ps, k, keys, txId);
      JoinRebuildsMembership(ps[k], txId, tx, keys, k, SharedTerms(keys, seed, flag), key);
    }
  }

  lemma OwningFirstOwned(ps: seq<Party>, k: nat, keys: seq<PublicKey>, txId: Hash32)
    requires Owning(ps, keys, txId) && 0 < k < |keys|
    ensures FirstOwned(ps[k].index, keys, k)
    ensures var info := FoundInfo(ps[k].index, ParticipantAddress(keys, k)).value;
            info.keyType == KEY_TYPE_RELATE_IN && info.keyIndex == keys[k].keyIndex
  {
    var ix := ps[k].index;
    assert ReadyOne(ps[k], keys[k], WantedType(k), txId);
    assert Lookup(ix, PayToKey(keys[k])) == Present(Listed(keys[k].keyType, keys[k].keyIndex));
    forall i | 0 <= i < k ensures FoundInfo(ix, ParticipantAddress(keys, i)).None? {
      assert ReadyOne(ps[i], keys[i], WantedType(i), txId);
    }
  }

  /** The invariant of a participant holds from the moment it stores the relationship. */
  lemma EnrollInv(p: Party, r: RelationshipState)
    requires OwnKeysOnly(p.index) && OnChain(r, p.index.wallet) && r.nextIndex == 1
    requires IsRelateType(r.keyType) && ForeignMembers(r, p.index.wallet)
    requires forall i :: 0 <= i < |p.relationships| ==>
               && (|r.flag| == 0 ==> !(p.relationships[i].keyType == r.keyType && p.relationships[i].keyIndex == r.keyIndex))
               && (|r.flag| > 0 ==> p.relationships[i].flag != r.flag)
    ensures PartyInv(Enroll(p, r), |p.relationships|)
  {
    var q := Enroll(p, r);
    if |r.flag| > 0 {
      FirstByFlagIs(q.relationships, r.flag, |p.relationships|);
    } else {
      FirstByKeyIs(q.relationships, r.keyType, r.keyIndex, |p.relationships|);
    }
    assert RegisteredAt(q.index, r, 1);
  }

  lemma WithoutAt(keys: seq<PublicKey>, k: nat)
    requires k < |keys|
    ensures |Without(keys, k)| == |keys| - 1
    ensures forall m :: 0 <= m < |keys| - 1 ==> Without(keys, k)[m] == keys[if m < k then m else m + 1]
  {
  }

  lemma ExpectedInv(ps: seq<Party>, k: nat, keys: seq<PublicKey>, txId: Hash32, seed: Bytes, flag: Bytes, key: Hash32)
    requires Ready(ps, keys, txId, flag) && k < |keys|
    ensures PartyInv(Enroll(ps[k], Expected(k, keys, txId, seed, flag, key)), |ps[k].relationships|)
  {
    var r := Expected(k, keys, txId, seed, flag, key);
    assert ReadyOne(ps[k], keys[k], WantedType(k), txId);
    WithoutAt(keys, k);
    var wallet := ps[k].index.wallet;
    forall m | 0 <= m < |r.members|
      ensures WalletOf(r.members[m].baseKey).Some? && WalletOf(r.members[m].baseKey) != Some(wallet)
    {
      var i := if m < k then m else m + 1;
      assert ReadyOne(ps[i], keys[i], WantedType(i), txId);
    }
    forall a, b | 0 <= a < b < |r.members| ensures r.members[a].baseKey != r.members[b].baseKey {
      var i, j := if a < k then a else a + 1, if b < k then b else b + 1;
      assert ReadyOne(ps[i], keys[i], WantedType(i), txId);
      assert ReadyOne(ps[j], keys[j], WantedType(j), txId);
    }
    EnrollInv(ps[k], r);
  }

  /** All participants after everyone processed the initiate transaction, with nothing sent yet. */
  function StartSystem(ps: seq<Party>, keys: seq<PublicKey>, txId: Hash32, tx: Tx, seed: Bytes, flag: Bytes, key: Hash32)
    : P.System
    requires |ps| == |keys| > 1 && keys[0].ChildKey?
  {
    var n := |ps|;
    P.System(
      seq(n, k requires 0 <= k < n => Stored(ps[k], k, keys, txId, tx, seed, flag, key)),
      seq(n, k requires 0 <= k < n => |ps[k].relationships|),
      seq(n, _ => []),
      seq(n, _ => seq(n, _ => 0)))
  }

  lemma StartParty(ps: seq<Party>, k: nat, keys: seq<PublicKey>, txId: Hash32, tx: Tx, seed: Bytes, flag: Bytes, key: Hash32)
    requires Ready(ps, keys, txId, flag) && InitiateShape(tx, keys[0], keys[1..]) && k < |ps| && keys[0].ChildKey?
    ensures var s := StartSystem(ps, keys, txId, tx, seed, flag, key);
            && s.at[k] == |ps[k].relationships|
            && s.at[k] < |s.parties[k].relationships|
            && keys[k].ChildKey?
            && s.parties[k].relationships[s.at[k]] == Expected(k, keys, txId, seed, flag, key)
            && s.parties[k].index.wallet == keys[k].wallet
            && PartyInv(s.parties[k], s.at[k])
  {
    StoredIsExpected(ps, k, keys, txId, tx, seed, flag, key);
    ExpectedInv(ps, k, keys, txId, seed, flag, key);
    hide PartyInv;
    assert ReadyOne(ps[k], keys[k], WantedType(k), txId);
  }

  lemma StartShaped(ps: seq<Party>, keys: seq<PublicKey>, txId: Hash32, tx: Tx, seed: Bytes, flag: Bytes, key: Hash32)
    requires Ready(ps, keys, txId, flag) && InitiateShape(tx, keys[0], keys[1..]) && keys[0].ChildKey?
    ensures var s := StartSystem(ps, keys, txId, tx, seed, flag, key);
            && P.Shaped(s) && |s.parties| == |keys|
            && forall k :: 0 <= k < |keys| ==>
                 && keys[k].ChildKey?
                 && P.Own(s, k) == Expected(k, keys, txId, seed, flag, key)
                 && P.BaseOf(s, k) == keys[k]
                 && PartyInv(s.parties[k], s.at[k])
  {
    hide PartyInv;
    forall k | 0 <= k < |keys|
      ensures var s := StartSystem(ps, keys, txId, tx, seed, flag, key);
              && s.at[k] < |s.parties[k].relationships|
              && keys[k].ChildKey?
              && s.parties[k].relationships[s.at[k]] == Expected(k, keys, txId, seed, flag, key)
              && s.parties[k].index.wallet == keys[k].wallet
              && PartyInv(s.parties[k], s.at[k])
    {
      StartParty(ps, k, keys, txId, tx, seed, flag, key);
    }
  }

  /** Two participants start in direct mode, with the invariant of its protocol. */
  lemma StartsDirect(ps: seq<Party>, keys: seq<PublicKey>, txId: Hash32, tx: Tx, seed: Bytes, flag: Bytes, key: Hash32)
    requires Ready(ps, keys, txId, flag) && |keys| == 2 && keys[0].ChildKey?
    requires InitiateShape(tx, keys[0], keys[1..])
    ensures Direct.Inv(StartSystem(ps, keys, txId, tx, seed, flag, key))
  {
    StartShaped(ps, keys, txId, tx, seed, flag, key);
    WithoutAt(keys, 0);
    WithoutAt(keys, 1);
    hide PartyInv;
    var s := StartSystem(ps, keys, txId, tx, seed, flag, key);
    assert Direct.PairInv(s, 0, 1);
    assert Direct.PairInv(s, 1, 0);
  }

  lemma StartPair(s: P.System, keys: seq<PublicKey>, txId: Hash32, seed: Bytes, flag: Bytes, key: Hash32, i: nat, k: nat)
    requires |keys| > 2 && i < |keys| && k < |keys| && keys[i].ChildKey? && keys[k].ChildKey?
    requires P.Shaped(s) && |s.parties| == |keys| && s.sent[k] == [] && s.seen[i][k] == 0
    requires P.Own(s, i) == Expected(i, keys, txId, seed, flag, key) && P.BaseOf(s, i) == keys[i]
    requires P.Own(s, k) == Expected(k, keys, txId, seed, flag, key) && P.BaseOf(s, k) == keys[k]
    requires i != k ==> keys[i].wallet != keys[k].wallet
    ensures Indirect.PairInv(s, i, k)
  {
    WithoutAt(keys, i);
    if i != k {
      var m := if k < i then k else k - 1;
      assert P.Own(s, i).members[m] == FreshMember(keys[k], seed);
      assert Indirect.Mirrors(s, i, k, m);
    }
  }

  lemma ReadyDistinct(ps: seq<Party>, keys: seq<PublicKey>, txId: Hash32, flag: Bytes, i: nat, k: nat)
    requires Ready(ps, keys, txId, flag) && i < |keys| && k < |keys| && i != k
    ensures keys[i].ChildKey? && keys[k].ChildKey? && keys[i].wallet != keys[k].wallet
  {
    assert ReadyOne(ps[i], keys[i], WantedType(i), txId) && ReadyOne(ps[k], keys[k], WantedType(k), txId);
    var a, b := if i < k then i else k, if i < k then k else i;
    assert ps[a].index.wallet != ps[b].index.wallet;
  }

  /** More than two start in indirect mode, with the invariant of its protocol. */
  lemma StartsIndirect(ps: seq<Party>, keys: seq<PublicKey>, txId: Hash32, tx: Tx, seed: Bytes, flag: Bytes, key: Hash32)
    requires Ready(ps, keys, txId, flag) && |keys| > 2 && keys[0].ChildKey?
    requires InitiateShape(tx, keys[0], keys[1..])
    ensures Indirect.Inv(StartSystem(ps, keys, txId, tx, seed, flag, key))
  {
    hide PartyInv, Ready, Indirect.PairInv, StartSystem, Expected, InitiateShape;
    ReadySize(ps, keys, txId, flag);
    ReadyFlag(ps, keys, txId, flag);
    StartShaped(ps, keys, txId, tx, seed, flag, key);
    StartEmpty(ps, keys, txId, tx, seed, flag, key);
    var s := StartSystem(ps, keys, txId, tx, seed, flag, key);
    forall i, k | 0 <= i < |keys| && 0 <= k < |keys| ensures Indirect.PairInv(s, i, k) {
      if i != k {
        ReadyDistinct(ps, keys, txId, flag, i, k);
      }
      StartPair(s, keys, txId, seed, flag, key, i, k);
    }
    forall k | 0 <= k < |keys| ensures Indirect.OwnInv(s, k) && Indirect.LogInv(s, k) {
      ExpectedFields(k, keys, txId, seed, flag, key);
    }
  }

  lemma ReadyFlag(ps: seq<Party>, keys: seq<PublicKey>, txId: Hash32, flag: Bytes)
    requires Ready(ps, keys, txId, flag) && |keys| > 2
    ensures |flag| > 0
  {
    assert NewFlag(ps[0], flag);
  }

  lemma ReadySize(ps: seq<Party>, keys: seq<PublicKey>, txId: Hash32, flag: Bytes)
    requires Ready(ps, keys, txId, flag)
    ensures |ps| == |keys| > 1
  {
  }

  /** Nothing was sent or processed yet. */
  lemma StartEmpty(ps: seq<Party>, keys: seq<PublicKey>, txId: Hash32, tx: Tx, seed: Bytes, flag: Bytes, key: Hash32)
    requires Ready(ps, keys, txId, flag) && keys[0].ChildKey?
    ensures var s := StartSystem(ps, keys, txId, tx, seed, flag, key);
            && |s.sent| == |s.seen| == |keys|
            && (forall k :: 0 <= k < |keys| ==> s.sent[k] == [] && |s.seen[k]| == |keys|)
            && (forall i, k :: 0 <= i < |keys| && 0 <= k < |keys| ==> s.seen[i][k] == 0)
  {
  }

  lemma ExpectedFields(k: nat, keys: seq<PublicKey>, txId: Hash32, seed: Bytes, flag: Bytes, key: Hash32)
    requires |keys| > 2 && k < |keys| && keys[k].ChildKey?
    ensures var r := Expected(k, keys, txId, seed, flag, key);
            r.nextIndex == 1 && r.flag == flag && r.encryptionType == 1
  {
  }

  // ----- exactly when they start -----

  /** What a participant stored comes last, and it leads back to it only if its flag or key was new. */
  lemma LeadsBackNew(p: Party, q: Party, r: RelationshipState)
    requires q.relationships == p.relationships + [r] && PartyInv(q, |p.relationships|)
    ensures |r.flag| > 0 ==> NewFlag(p, r.flag)
    ensures |r.flag| == 0 ==>
              forall i :: 0 <= i < |p.relationships| ==>
                !(p.relationships[i].keyType == r.keyType && p.relationships[i].keyIndex == r.keyIndex)
  {
    forall i | 0 <= i < |p.relationships| ensures q.relationships[i] == p.relationships[i] {
    }
  }

  lemma StartLeadsBack(ps: seq<Party>, k: nat, keys: seq<PublicKey>, txId: Hash32, tx: Tx, seed: Bytes, flag: Bytes, key: Hash32)
    requires Owning(ps, keys, txId) && InitiateShape(tx, keys[0], keys[1..]) && k < |ps| && keys[0].ChildKey?
    requires var s := StartSystem(ps, keys, txId, tx, seed, flag, key);
             PartyInv(s.parties[k], s.at[k]) && (|keys| > 2 ==> |s.parties[k].relationships[s.at[k]].flag| > 0)
    ensures if |keys| > 2 then NewFlag(ps[k], flag) else keys[k].ChildKey? && NewKey(ps[k], keys[k])
  {
    hide PartyInv;
    assert ReadyOne(ps[k], keys[k], WantedType(k), txId);
    StoredIsExpected(ps, k, keys, txId, tx, seed, flag, key);
    LeadsBackNew(ps[k], Enroll(ps[k], Expected(k, keys, txId, seed, flag, key)), Expected(k, keys, txId, seed, flag, key));
  }

  /**
   Two participants start with the invariant of the direct protocol if and only if neither has a
   relationship under its key already.
   */
  lemma StartsDirectIff(ps: seq<Party>, keys: seq<PublicKey>, txId: Hash32, tx: Tx, seed: Bytes, flag: Bytes, key: Hash32)
    requires Owning(ps, keys, txId) && |keys| == 2 && keys[0].ChildKey? && InitiateShape(tx, keys[0], keys[1..])
    ensures Direct.Inv(StartSystem(ps, keys, txId, tx, seed, flag, key)) <==> AllNew(ps, keys, flag)
  {
    hide PartyInv, Direct.LogInv, Direct.NoGap, Owning, InitiateShape, StartSystem;
    OwningSize(ps, keys, txId);
    var s := StartSystem(ps, keys, txId, tx, seed, flag, key);
    if AllNew(ps, keys, flag) {
      StartsDirect(ps, keys, txId, tx, seed, flag, key);
    }
    if Direct.Inv(s) {
      assert Direct.SideInv(s, 0, 1) && Direct.SideInv(s, 1, 0);
      StartLeadsBack(ps, 0, keys, txId, tx, seed, flag, key);
      StartLeadsBack(ps, 1, keys, txId, tx, seed, flag, key);
    }
  }

  lemma OwningSize(ps: seq<Party>, keys: seq<PublicKey>, txId: Hash32)
    requires Owning(ps, keys, txId)
    ensures |ps| == |keys| > 1
  {
  }

  /** More than two start with the invariant of the indirect protocol if and only if the flag is new to all. */
  lemma StartsIndirectIff(ps: seq<Party>, keys: seq<PublicKey>, txId: Hash32, tx: Tx, seed: Bytes, flag: Bytes, key: Hash32)
    requires Owning(ps, keys, txId) && |keys| > 2 && keys[0].ChildKey? && InitiateShape(tx, keys[0], keys[1..])
    ensures Indirect.Inv(StartSystem(ps, keys, txId, tx, seed, flag, key)) <==> AllNew(ps, keys, flag)
  {
    hide PartyInv, Indirect.LogInv, Indirect.PairInv, Owning, InitiateShape, StartSystem, NewFlag;
    OwningSize(ps, keys, txId);
    var s := StartSystem(ps, keys, txId, tx, seed, flag, key);
    if AllNew(ps, keys, flag) {
      StartsIndirect(ps, keys, txId, tx, seed, flag, key);
    }
    if Indirect.Inv(s) {
      StartSize(ps, keys, txId, tx, seed, flag, key);
      forall k | 0 <= k < |ps| ensures NewFlag(ps[k], flag) {
        assert Indirect.OwnInv(s, k);
        StartLeadsBack(ps, k, keys, txId, tx, seed, flag, key);
      }
    }
  }

  lemma StartSize(ps: seq<Party>, keys: seq<PublicKey>, txId: Hash32, tx: Tx, seed: Bytes, flag: Bytes, key: Hash32)
    requires |ps| == |keys| > 1 && keys[0].ChildKey?
    ensures |StartSystem(ps, keys, txId, tx, seed, flag, key).parties| == |ps|
  {
  }

  // ----- two relationships under one key -----

  /** A wallet that is addressed by one of its list keys for receiving, and does not own the sender's. */
  ghost predicate Addressed(ix: IndexState, keys: seq<PublicKey>) {
    && |keys| == 2 && OwnKeysOnly(ix) && WalletOf(keys[0]) != Some(ix.wallet)
    && keys[1].ChildKey? && keys[1].wallet == ix.wallet && keys[1].keyType == KEY_TYPE_RELATE_IN
    && ValidRef(ix, Listed(KEY_TYPE_RELATE_IN, keys[1].keyIndex))
  }

  lemma AddressedOwns(ix: IndexState, keys: seq<PublicKey>)
    requires Addressed(ix, keys)
    ensures FirstOwned(ix, keys, 1)
    ensures var info := FoundInfo(ix, ParticipantAddress(keys, 1)).value;
            info.keyType == KEY_TYPE_RELATE_IN && info.keyIndex == keys[1].keyIndex
  {
    assert Lookup(ix, PayToKey(keys[1])) == Present(Listed(KEY_TYPE_RELATE_IN, keys[1].keyIndex));
  }

  /** Joining a direct relationship by that key, whatever else is stored. */
  lemma JoinsDirect(p: Party, tx: Tx, keys: seq<PublicKey>, seed: Bytes, key: Hash32)
    requires Addressed(p.index, keys) && InitiateShape(tx, keys[0], keys[1..])
    requires forall i :: 0 <= i < |p.relationships| ==> p.relationships[i].txId != TxId(tx)
    ensures var q := ProcessInitiate(p, TxId(tx), tx, [0], [0], Terms(seed, [], 0), key).0;
            && q.index == AddKey(p.index, NextPublicKey(keys[1], Sha256(seed)), KEY_TYPE_RELATE_IN, keys[1].keyIndex, Sha256(seed))
            && |q.relationships| == |p.relationships| + 1
            && (forall i :: 0 <= i < |p.relationships| ==> q.relationships[i] == p.relationships[i])
            && var r := q.relationships[|p.relationships|];
               r.keyType == KEY_TYPE_RELATE_IN && r.keyIndex == keys[1].keyIndex && r.txId == TxId(tx) && r.seed == seed
  {
    AddressedOwns(p.index, keys);
    JoinRebuildsMembership(p, TxId(tx), tx, keys, 1, Terms(seed, [], 0), key);
    assert Upto(|keys| - 1) == [0];
  }

  lemma StillAddressed(ix: IndexState, keys: seq<PublicKey>, others: seq<PublicKey>, hash: Hash32)
    requires Addressed(ix, keys) && Addressed(ix, others)
    ensures Addressed(AddKey(ix, NextPublicKey(keys[1], hash), KEY_TYPE_RELATE_IN, keys[1].keyIndex, hash), others)
  {
    assert WalletOf(keys[1]) == Some(ix.wallet);
  }

  /**
   Two others initiate with the same receiving key of a wallet, and it stores two relationships under that
   key. The next direct message of the second is put down to the first, and the second stays as it is.
   */
  lemma SecondIsShadowed(p: Party, txA: Tx, keysA: seq<PublicKey>, seedA: Bytes,
                         txB: Tx, keysB: seq<PublicKey>, seedB: Bytes, key: Hash32, msg: Tx)
    requires Addressed(p.index, keysA) && Addressed(p.index, keysB) && keysA[1] == keysB[1] && NewKey(p, keysA[1])
    requires InitiateShape(txA, keysA[0], keysA[1..]) && InitiateShape(txB, keysB[0], keysB[1..]) && txA != txB
    requires forall i :: 0 <= i < |p.relationships| ==>
               p.relationships[i].txId != TxId(txA) && p.relationships[i].txId != TxId(txB)
    requires |msg.inputs| > 0 && UnlockingKey(msg.inputs[0]) == Some(NextPublicKey(keysB[0], Sha256(seedB)))
    requires |msg.outputs| > 0 && AddressOf(msg.outputs[0].script) == PayToKey(NextPublicKey(keysB[1], Sha256(seedB)))
    ensures var n := |p.relationships|;
            var a := ProcessInitiate(p, TxId(txA), txA, [0], [0], Terms(seedA, [], 0), key).0;
            var b := ProcessInitiate(a, TxId(txB), txB, [0], [0], Terms(seedB, [], 0), key).0;
            var m := MatchTx(b, msg, [0], [0], []);
            && |b.relationships| == n + 2
            && b.relationships[n].txId == TxId(txA) && b.relationships[n + 1].txId == TxId(txB)
            && m.Matched? && m.relationship == n
            && n + 1 < |m.party.relationships| && m.party.relationships[n + 1] == b.relationships[n + 1]
  {
    hide InitiateShape, MatchTx, ProcessInitiate, Addressed, AddKey;
    JoinsDirect(p, txA, keysA, seedA, key);
    StillAddressed(p.index, keysA, keysB, Sha256(seedA));
    var a := ProcessInitiate(p, TxId(txA), txA, [0], [0], Terms(seedA, [], 0), key).0;
    JoinsDirect(a, txB, keysB, seedB, key);
    StillAddressed(a.index, keysB, keysB, Sha256(seedB));
    var b := ProcessInitiate(a, TxId(txB), txB, [0], [0], Terms(seedB, [], 0), key).0;
    ShadowedMessage(p, a, b, keysB, seedB, msg);
  }

  lemma ShadowedMessage(p: Party, a: Party, b: Party, keys: seq<PublicKey>, seed: Bytes, msg: Tx)
    requires Addressed(b.index, keys) && NewKey(p, keys[1])
    requires b.index == AddKey(a.index, NextPublicKey(keys[1], Sha256(seed)), KEY_TYPE_RELATE_IN, keys[1].keyIndex, Sha256(seed))
    requires var n := |p.relationships|;
             && |a.relationships| == n + 1 && |b.relationships| == n + 2
             && (forall i :: 0 <= i < n ==> a.relationships[i] == p.relationships[i])
             && (forall i :: 0 <= i < n + 1 ==> b.relationships[i] == a.relationships[i])
             && (forall i :: n <= i < n + 2 ==>
                   b.relationships[i].keyType == KEY_TYPE_RELATE_IN && b.relationships[i].keyIndex == keys[1].keyIndex)
             && b.relationships[n + 1].seed == seed
    requires |msg.inputs| > 0 && UnlockingKey(msg.inputs[0]) == Some(NextPublicKey(keys[0], Sha256(seed)))
    requires |msg.outputs| > 0 && AddressOf(msg.outputs[0].script) == PayToKey(NextPublicKey(keys[1], Sha256(seed)))
    ensures var n, m := |p.relationships|, MatchTx(b, msg, [0], [0], []);
            && m.Matched? && m.relationship == n
            && n + 1 < |m.party.relationships| && m.party.relationships[n + 1] == b.relationships[n + 1]
  {
    hide MatchTx;
    var n := |p.relationships|;
    FirstByKeyIs(b.relationships, KEY_TYPE_RELATE_IN, keys[1].keyIndex, n);
    assert OwnKey(b.relationships[n + 1], b.index.wallet, 1) == NextPublicKey(keys[1], Sha256(seed));
    ReceiveDirectIff(b, n + 1, msg, NextPublicKey(keys[0], Sha256(seed)), 1);
  }
}
