/**
 Which key the node decrypts an output with: the searches of FindHash and FindEncryptionKey over the
 stored objects, and the choice DecryptAction makes among the inputs of a transaction.
 */
module Decrypting {
  import opened Results
  import opened Bitcoin
  import opened AddressSpec
  import opened AddressIndexes
  import opened Ratchet
  import opened RatchetLaws
  import opened RelationshipManager
  import P = Protocol
  import Indirect

  /** FindHash over the stored objects. */
  method FindHash(rs: Relationships, r: Relationship, ghost j: nat, publicKey: PublicKey) returns (h: Result<Hash32, Failure>)
    requires rs.Valid() && Tracks(rs.list, r, Some(j)) && j < |rs.states|
    ensures h == Ratchet.FindHash(rs.states[j], rs.index.wallet, publicKey)
  {
    hide AddressIndex.Valid, Relationships.Valid, FirstByNextKey, FindOwnKey, FindMemberKey, FindAnyMemberKey;
    Shown(rs, r, j);
    ghost var s := rs.states[j];
    if r.nextKey == publicKey {
      return Ok(r.nextHash);
    }
    for k := 0 to |r.members|
      invariant forall i :: 0 <= i < k ==> s.members[i].nextKey != publicKey
    {
      assert s.members[k] == r.members[k].State();
      if r.members[k].nextKey == publicKey {
        FirstIs(s.members, publicKey, k);
        return Ok(r.members[k].nextHash);
      }
    }
    NoneIs(s.members, publicKey);
    var found := r.FindKey(PublicOf(rs.index.GetKey(r.keyType, r.keyIndex)), publicKey);
    OwnSearch(s, rs.index.wallet, publicKey);
    if found.Some? {
      return Ok(found.value.0);
    }
    for k := 0 to |r.members|
      invariant FindAnyMemberKey(s.members, s.seed, publicKey, k) == FindAnyMemberKey(s.members, s.seed, publicKey, 0)
    {
      assert s.members[k] == r.members[k].State();
      AnyUnfold(s.members, s.seed, publicKey, k);
      found := r.members[k].FindKey(publicKey, r.seed);
      if found.Some? {
        return Ok(AddHashes(r.encryptionKey, found.value.0));
      }
    }
    AnyEnds(s.members, s.seed, publicKey);
    return Err(KeyNotFound);
  }

  lemma Shown(rs: Relationships, r: Relationship, j: nat)
    requires rs.Valid() && Tracks(rs.list, r, Some(j)) && j < |rs.states|
    ensures rs.states[j] == r.State()
  {
  }

  lemma NoneIs(ms: seq<MemberState>, key: PublicKey)
    requires forall i :: 0 <= i < |ms| ==> ms[i].nextKey != key
    ensures FirstByNextKey(ms, key).None?
  {
  }

  lemma OwnSearch(r: RelationshipState, wallet: nat, key: PublicKey)
    ensures FindOwnKey(r, wallet, key) ==
            SearchChain(ChildKey(wallet, r.keyType, r.keyIndex), r.seed, key, 1, r.nextIndex + WINDOW)
  {
  }

  lemma AnyUnfold(ms: seq<MemberState>, seed: Bytes, key: PublicKey, k: nat)
    requires k < |ms|
    ensures FindAnyMemberKey(ms, seed, key, k) ==
            if FindMemberKey(ms[k], seed, key).Some? then FindMemberKey(ms[k], seed, key)
            else FindAnyMemberKey(ms, seed, key, k + 1)
  {
  }

  lemma AnyEnds(ms: seq<MemberState>, seed: Bytes, key: PublicKey)
    ensures FindAnyMemberKey(ms, seed, key, |ms|).None?
  {
  }

  method FindEncryptionKey(rs: Relationships, r: Relationship, ghost j: nat, publicKey: PublicKey) returns (h: Result<Hash32, Failure>)
    requires rs.Valid() && Tracks(rs.list, r, Some(j)) && j < |rs.states|
    ensures h == Ratchet.FindEncryptionKey(rs.states[j], rs.index.wallet, publicKey)
  {
    hide AddressIndex.Valid, Relationships.Valid, Ratchet.FindHash;
    Shown(rs, r, j);
    h := FindHash(rs, r, j, publicKey);
    if h.Ok? {
      h := Ok(AddHashes(r.encryptionKey, h.value));
    }
  }

  // ----- the choice among the inputs -----

  /** How an output is decrypted; an unlocking script that does not parse ends the attempt. */
  datatype KeyChoice = Directly | Indirectly(key: Hash32) | NoChoice

  /** The key of the first input the relationship knows; scripts without a key are passed over. */
  function FirstInputKey(r: RelationshipState, wallet: nat, inputs: seq<TxIn>): KeyChoice {
    if inputs == [] then Directly
    else if inputs[0].keys.None? then NoChoice
    else if UnlockingKey(inputs[0]).None? then FirstInputKey(r, wallet, inputs[1..])
    else
      match Ratchet.FindEncryptionKey(r, wallet, UnlockingKey(inputs[0]).value)
      case Ok(h) => Indirectly(h)
      case Err(_) => FirstInputKey(r, wallet, inputs[1..])
  }

  /** What DecryptAction decrypts with. */
  function ChoiceFor(p: Party, tx: Tx, flag: Bytes): KeyChoice {
    if flag == [] then Directly
    else
      match FirstByFlag(p.relationships, flag)
      case None => Directly
      case Some(j) =>
        var r := p.relationships[j];
        if r.encryptionType == 0 then Directly else FirstInputKey(r, p.index.wallet, tx.inputs)
  }

  method ChooseKey(rs: Relationships, tx: Tx, flag: Bytes) returns (choice: KeyChoice)
    requires rs.Valid()
    ensures choice == ChoiceFor(rs.Parties(), tx, flag)
  {
    hide AddressIndex.Valid, Relationships.Valid, FirstByFlag, Ratchet.FindEncryptionKey;
    if |flag| == 0 {
      return Directly;
    }
    var r;
    ghost var at;
    r, at := rs.FindRelationshipForFlag(flag);
    if r == null {
      return Directly;
    }
    Kept(rs, r, at.value);
    if r.encryptionType == 0 {
      return Directly;
    }
    ghost var s, wallet := rs.states[at.value], rs.index.wallet;
    for k := 0 to |tx.inputs|
      invariant FirstInputKey(s, wallet, tx.inputs[k..]) == FirstInputKey(s, wallet, tx.inputs)
    {
      assert tx.inputs[k..][0] == tx.inputs[k] && tx.inputs[k..][1..] == tx.inputs[k + 1..];
      if tx.inputs[k].keys.None? {
        return NoChoice;
      }
      var publicKey := UnlockingKey(tx.inputs[k]);
      if publicKey.Some? {
        var h := FindEncryptionKey(rs, r, at.value, publicKey.value);
        if h.Ok? {
          return Indirectly(h.value);
        }
      }
    }
    return Directly;
  }

  lemma Kept(rs: Relationships, r: Relationship, j: nat)
    requires rs.Valid() && Tracks(rs.list, r, Some(j))
    ensures j < |rs.states| && rs.states[j].encryptionType == r.encryptionType
    ensures rs.index.state.wallet == rs.index.wallet
  {
  }

  /**
   The key an indirect message is encrypted with is the one its sender finds for its own next key; a
   recipient that shares seed and encryption key finds it if and only if its mirror of the sender
   stands at the sender's position.
   */
  lemma SealOpens(r: RelationshipState, wallet: nat, q: RelationshipState, other: nat, m: nat)
    requires r.encryptionType != 0 && OnChain(r, wallet) && ForeignMembers(r, wallet)
    requires OnChain(q, other) && ForeignMembers(q, other) && m < |q.members|
    requires q.members[m].baseKey == ChildKey(wallet, r.keyType, r.keyIndex)
    requires q.seed == r.seed && q.encryptionKey == r.encryptionKey
    ensures var seal := P.SealKey(r);
            && seal.Some?
            && Ratchet.FindEncryptionKey(r, wallet, r.nextKey) == Ok(seal.value)
            && (Ratchet.FindEncryptionKey(q, other, r.nextKey) == Ok(seal.value) <==>
                  q.members[m].nextIndex == r.nextIndex)
  {
    OwnEncryptionKey(r, wallet, r.nextIndex);
    MemberEncryptionKeyIff(q, other, m, r.nextIndex);
  }

  /**
   In every run of the indirect protocol, the key the node chooses for the next message of a participant
   is exactly the key that participant encrypted it with.
   */
  lemma DeliveredKeyChosen(s: P.System, events: seq<P.Event>, i: nat, k: nat)
    requires Indirect.Inv(s)
    ensures var t := Indirect.Run(s, events);
            i < |t.parties| && k < |t.parties| && !P.Delivered(t, i, k) ==>
              var e := t.sent[k][t.seen[i][k]];
              e.sealedWith.Some? && ChoiceFor(t.parties[i], e.tx, FlagOf(e.tx.outputs)) == Indirectly(e.sealedWith.value)
  {
    hide Indirect.Run, Ratchet.FindEncryptionKey, P.Step;
    var t := Indirect.Run(s, events);
    Indirect.DeliveredKeyDecrypts(s, events, i, k);
    if i < |t.parties| && k < |t.parties| && !P.Delivered(t, i, k) {
      FlagLeadsBack(t, i, k);
    }
  }

  /** The flag of a message on its way leads the receiver to its own relationship. */
  lemma FlagLeadsBack(t: P.System, i: nat, k: nat)
    requires Indirect.Inv(t) && i < |t.parties| && k < |t.parties| && !P.Delivered(t, i, k)
    ensures var flag := FlagOf(t.sent[k][t.seen[i][k]].tx.outputs);
            && flag != []
            && FirstByFlag(t.parties[i].relationships, flag) == Some(t.at[i])
            && P.Own(t, i).encryptionType != 0
  {
    assert Indirect.OwnInv(t, i) && Indirect.LogInv(t, k) && Indirect.PairInv(t, i, k);
  }
}
