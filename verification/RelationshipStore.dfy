/**
 The stored form of the relationships: what internal/relationships/models.go writes, what it reads
 back, and the keys that Load recomputes.
 */
module RelationshipStore {
  import opened Results
  import opened Bitcoin
  import opened AddressSpec
  import opened AddressIndexes
  import opened Ratchet
  import opened RatchetLaws
  import opened Codec
  import opened RelationshipManager

  // ----- members -----

  function MemberBytes(c: Library, m: MemberState): Bytes {
    VERSION + (c.keyBytes(m.baseKey) + (c.hashBytes(m.nextHash) + (LE(m.nextIndex, 8) + BoolBytes(m.accepted))))
  }

  /** The next key is not stored: it is derived again. */
  function TakeMember(c: Library, s: Bytes): Parsed<MemberState> {
    var (version, s) :- TakeInt(s, 1);
    if version != 0 then Malformed
    else
      var (baseKey, s) :- c.takeKey(s);
      var (nextHash, s) :- c.takeHash(s);
      var (nextIndex, s) :- TakeInt(s, 8);
      var (accepted, s) :- TakeBool(s);
      Got(MemberState(baseKey, nextHash, nextIndex, accepted, NextPublicKey(baseKey, nextHash)), s)
  }

  /** The library reads back what it wrote of this member, and the index fits 64 bits. */
  ghost predicate StorableMember(c: Library, m: MemberState) {
    ReadsKey(c, m.baseKey) && ReadsHash(c, m.nextHash) && m.nextIndex < Pow256(8)
  }

  /** A member reads back exactly when its next key is the one its hash derives. */
  lemma MemberRoundTripIff(c: Library, m: MemberState, rest: Bytes)
    requires StorableMember(c, m)
    ensures var t := TakeMember(c, MemberBytes(c, m) + rest);
            t == Got(m.(nextKey := NextPublicKey(m.baseKey, m.nextHash)), rest)
    ensures TakeMember(c, MemberBytes(c, m) + rest) == Got(m, rest) <==>
            m.nextKey == NextPublicKey(m.baseKey, m.nextHash)
  {
    var s4 := BoolBytes(m.accepted) + rest;
    var s3 := LE(m.nextIndex, 8) + s4;
    var s2 := c.hashBytes(m.nextHash) + s3;
    var s1 := c.keyBytes(m.baseKey) + s2;
    assert MemberBytes(c, m) + rest == VERSION + s1;
    VersionRead(s1);
    assert c.takeKey(s1) == Got(m.baseKey, s2);
    assert c.takeHash(s2) == Got(m.nextHash, s3);
    TakeIntAppend(m.nextIndex, 8, s4);
    TakeBoolAppend(m.accepted, rest);
  }

  function MembersBytes(c: Library, ms: seq<MemberState>): Bytes {
    ItemsBytes(m => MemberBytes(c, m), ms)
  }

  function TakeMembers(c: Library, s: Bytes, n: nat): Parsed<seq<MemberState>> {
    TakeItems(s => TakeMember(c, s), s, n)
  }

  ghost predicate KeyedMember(m: MemberState) {
    m.nextKey == NextPublicKey(m.baseKey, m.nextHash)
  }

  lemma MembersRoundTrip(c: Library, ms: seq<MemberState>, rest: Bytes)
    requires forall i :: 0 <= i < |ms| ==> StorableMember(c, ms[i]) && KeyedMember(ms[i])
    ensures TakeMembers(c, MembersBytes(c, ms) + rest, |ms|) == Got(ms, rest)
  {
    hide StorableMember, TakeMember, MemberBytes, TakeItems, ItemsBytes;
    forall i, tail | 0 <= i < |ms| ensures TakeMember(c, MemberBytes(c, ms[i]) + tail) == Got(ms[i], tail) {
      MemberRoundTripIff(c, ms[i], tail);
    }
    ItemsRoundTrip(m => MemberBytes(c, m), s => TakeMember(c, s), ms, rest);
  }

  // ----- relationships -----

  /** The 16-bit length cuts off longer seeds and flags; all their bytes are written all the same. */
  function RelationshipBytes(c: Library, r: RelationshipState): Bytes {
    VERSION + (c.hashBytes(r.txId) + (LE(r.keyType, 4) + (LE(r.keyIndex, 4) + (c.hashBytes(r.nextHash)
    + (LE(r.nextIndex, 8) + (LE(|r.seed|, 2) + (r.seed + (LE(|r.flag|, 2) + (r.flag + (LE(r.encryptionType, 4)
    + (c.hashBytes(r.encryptionKey) + (BoolBytes(r.accepted) + (LE(|r.members|, 8) + MembersBytes(c, r.members))))))))))))))
  }

  function TakeTerms(s: Bytes): Parsed<(Bytes, Bytes)> {
    var (size, s) :- TakeInt(s, 2);
    var (seed, s) :- TakeSome(s, size);
    var (flagSize, s) :- TakeInt(s, 2);
    var (flag, s) :- TakeSome(s, flagSize);
    Got((seed, flag), s)
  }

  function TakeRelationship(c: Library, s: Bytes): Parsed<RelationshipState> {
    var (version, s) :- TakeInt(s, 1);
    if version != 0 then Malformed
    else
      var (txId, s) :- c.takeHash(s);
      var (keyType, s) :- TakeInt(s, 4);
      var (keyIndex, s) :- TakeInt(s, 4);
      var (nextHash, s) :- c.takeHash(s);
      var (nextIndex, s) :- TakeInt(s, 8);
      var (terms, s) :- TakeTerms(s);
      var (encryptionType, s) :- TakeInt(s, 4);
      var (encryptionKey, s) :- c.takeHash(s);
      var (accepted, s) :- TakeBool(s);
      var (count, s) :- TakeInt(s, 8);
      var (members, s) :- TakeMembers(c, s, count);
      Got(RelationshipState(txId, keyType, keyIndex, nextHash, nextIndex, terms.0, terms.1, encryptionType,
                            encryptionKey, accepted, members, NoKey), s)
  }

  /** Everything but the lengths of seed and flag fits, and members hold their derived keys. */
  ghost predicate Storable(c: Library, r: RelationshipState) {
    && ReadsHash(c, r.txId) && ReadsHash(c, r.nextHash) && ReadsHash(c, r.encryptionKey)
    && r.keyType < Pow256(4) && r.keyIndex < Pow256(4) && r.nextIndex < Pow256(8)
    && r.encryptionType < Pow256(4) && |r.members| < Pow256(8)
    && (forall i :: 0 <= i < |r.members| ==> StorableMember(c, r.members[i]) && KeyedMember(r.members[i]))
  }

  predicate ShortTerms(r: RelationshipState) {
    |r.seed| < 65536 && |r.flag| < 65536
  }

  lemma TermsRoundTrip(seed: Bytes, flag: Bytes, rest: Bytes)
    requires |seed| < 65536 && |flag| < 65536 && rest != []
    ensures TakeTerms(LE(|seed|, 2) + (seed + (LE(|flag|, 2) + (flag + rest)))) == Got((seed, flag), rest)
  {
    assert Pow256(2) == 65536 by { assert Pow256(1) == 256; }
    var s3 := flag + rest;
    var s2 := LE(|flag|, 2) + s3;
    TakeIntAppend(|seed|, 2, seed + s2);
    TakeSomeAppend(seed, s2);
    TakeIntAppend(|flag|, 2, s3);
    TakeSomeAppend(flag, rest);
  }

  /** Whatever is read, a seed or flag that was cut off does not come back. */
  lemma LongTermsLost(seed: Bytes, flag: Bytes, rest: Bytes)
    requires |seed| >= 65536 || |flag| >= 65536
    ensures var t := TakeTerms(LE(|seed|, 2) + (seed + (LE(|flag|, 2) + (flag + rest))));
            t.Got? ==> t.value != (seed, flag)
  {
    assert Pow256(2) == 65536 by { assert Pow256(1) == 256; }
    var s2 := LE(|flag|, 2) + (flag + rest);
    TakeIntAppend(|seed|, 2, seed + s2);
    IntRoundTrip(|seed|, 2);
    IntRoundTrip(|flag|, 2);
    if |seed| < 65536 {
      TakeSomeAppend(seed, s2);
      TakeIntAppend(|flag|, 2, flag + rest);
    }
  }

  /** The parts around seed and flag. */
  function HeadBytes(c: Library, r: RelationshipState): Bytes {
    VERSION + (c.hashBytes(r.txId) + (LE(r.keyType, 4) + (LE(r.keyIndex, 4) + (c.hashBytes(r.nextHash) + LE(r.nextIndex, 8)))))
  }

  function TailBytes(c: Library, r: RelationshipState): Bytes {
    LE(r.encryptionType, 4)
    + (c.hashBytes(r.encryptionKey) + (BoolBytes(r.accepted) + (LE(|r.members|, 8) + MembersBytes(c, r.members))))
  }

  function TakeTail(c: Library, s: Bytes): Parsed<(nat, Hash32, bool, seq<MemberState>)> {
    var (encryptionType, s) :- TakeInt(s, 4);
    var (encryptionKey, s) :- c.takeHash(s);
    var (accepted, s) :- TakeBool(s);
    var (count, s) :- TakeInt(s, 8);
    var (members, s) :- TakeMembers(c, s, count);
    Got((encryptionType, encryptionKey, accepted, members), s)
  }

  lemma TailRoundTrip(c: Library, r: RelationshipState, rest: Bytes)
    requires Storable(c, r)
    ensures TakeTail(c, TailBytes(c, r) + rest) == Got((r.encryptionType, r.encryptionKey, r.accepted, r.members), rest)
  {
    hide StorableMember, KeyedMember, TakeMembers, MembersBytes;
    var s4 := MembersBytes(c, r.members) + rest;
    var s3 := LE(|r.members|, 8) + s4;
    var s2 := BoolBytes(r.accepted) + s3;
    var s1 := c.hashBytes(r.encryptionKey) + s2;
    assert TailBytes(c, r) + rest == LE(r.encryptionType, 4) + s1;
    TakeIntAppend(r.encryptionType, 4, s1);
    assert c.takeHash(s1) == Got(r.encryptionKey, s2);
    TakeBoolAppend(r.accepted, s3);
    TakeIntAppend(|r.members|, 8, s4);
    MembersRoundTrip(c, r.members, rest);
  }

  /** Reading a written relationship comes down to reading its seed and flag. */
  lemma HeadRead(c: Library, r: RelationshipState, s: Bytes)
    requires Storable(c, r)
    ensures TakeRelationship(c, HeadBytes(c, r) + s) ==
            match TakeTerms(s)
            case Malformed => Malformed
            case Got(terms, left) =>
              match TakeTail(c, left)
              case Malformed => Malformed
              case Got(tail, end) =>
                Got(r.(seed := terms.0, flag := terms.1, encryptionType := tail.0, encryptionKey := tail.1,
                       accepted := tail.2, members := tail.3, nextKey := NoKey), end)
  {
    hide StorableMember, KeyedMember, TakeMembers, TakeTerms;
    var s5 := LE(r.nextIndex, 8) + s;
    var s4 := c.hashBytes(r.nextHash) + s5;
    var s3 := LE(r.keyIndex, 4) + s4;
    var s2 := LE(r.keyType, 4) + s3;
    var s1 := c.hashBytes(r.txId) + s2;
    assert HeadBytes(c, r) + s == VERSION + s1;
    VersionRead(s1);
    assert c.takeHash(s1) == Got(r.txId, s2);
    TakeIntAppend(r.keyType, 4, s3);
    TakeIntAppend(r.keyIndex, 4, s4);
    assert c.takeHash(s4) == Got(r.nextHash, s5);
    TakeIntAppend(r.nextIndex, 8, s);
  }

  lemma RelationshipParts(c: Library, r: RelationshipState, rest: Bytes)
    ensures RelationshipBytes(c, r) + rest ==
            HeadBytes(c, r) + (LE(|r.seed|, 2) + (r.seed + (LE(|r.flag|, 2) + (r.flag + (TailBytes(c, r) + rest)))))
  {
  }

  function Stripped(r: RelationshipState): RelationshipState {
    r.(nextKey := NoKey)
  }

  /** A relationship reads back, all but its next key, exactly when seed and flag fit 16-bit lengths. */
  lemma RelationshipRoundTripIff(c: Library, r: RelationshipState, rest: Bytes)
    requires Storable(c, r)
    ensures ShortTerms(r) <==> TakeRelationship(c, RelationshipBytes(c, r) + rest) == Got(Stripped(r), rest)
    ensures !ShortTerms(r) ==>
              var t := TakeRelationship(c, RelationshipBytes(c, r) + rest); t.Got? ==> t.value != Stripped(r)
  {
    hide RelationshipBytes, HeadBytes, TailBytes, TakeTerms, TakeTail, TakeRelationship, Storable;
    var left := TailBytes(c, r) + rest;
    RelationshipParts(c, r, rest);
    HeadRead(c, r, LE(|r.seed|, 2) + (r.seed + (LE(|r.flag|, 2) + (r.flag + left))));
    TailRoundTrip(c, r, rest);
    TailNotEmpty(c, r);
    if ShortTerms(r) {
      TermsRoundTrip(r.seed, r.flag, left);
    } else {
      LongTermsLost(r.seed, r.flag, left);
    }
  }

  lemma TailNotEmpty(c: Library, r: RelationshipState)
    ensures TailBytes(c, r) != []
  {
    assert |TailBytes(c, r)| >= |LE(r.encryptionType, 4)|;
  }

  // ----- the whole store -----

  function EachBytes(c: Library, rs: seq<RelationshipState>): Bytes {
    ItemsBytes(r => RelationshipBytes(c, r), rs)
  }

  function TakeEach(c: Library, s: Bytes, n: nat): Parsed<seq<RelationshipState>> {
    TakeItems(s => TakeRelationship(c, s), s, n)
  }

  function StoreBytes(c: Library, rs: seq<RelationshipState>): Bytes {
    VERSION + (LE(|rs|, 8) + EachBytes(c, rs))
  }

  function TakeStore(c: Library, s: Bytes): Parsed<seq<RelationshipState>> {
    var (version, s) :- TakeInt(s, 1);
    if version != 0 then Malformed
    else
      var (count, s) :- TakeInt(s, 8);
      TakeEach(c, s, count)
  }

  function StrippedAll(rs: seq<RelationshipState>): (r: seq<RelationshipState>)
    ensures |r| == |rs| && forall i :: 0 <= i < |rs| ==> r[i] == Stripped(rs[i])
  {
    seq(|rs|, i requires 0 <= i < |rs| => Stripped(rs[i]))
  }

  lemma {:induction false} EachRoundTripIff(c: Library, rs: seq<RelationshipState>, rest: Bytes)
    requires forall i :: 0 <= i < |rs| ==> Storable(c, rs[i])
    ensures (forall i :: 0 <= i < |rs| ==> ShortTerms(rs[i])) <==>
            TakeEach(c, EachBytes(c, rs) + rest, |rs|) == Got(StrippedAll(rs), rest)
  {
    hide Storable, ShortTerms, RelationshipBytes, TakeRelationship, Stripped;
    if rs == [] {
      assert EachBytes(c, rs) + rest == rest;
    } else {
      var tail := EachBytes(c, rs[1..]) + rest;
      assert EachBytes(c, rs) + rest == RelationshipBytes(c, rs[0]) + tail;
      RelationshipRoundTripIff(c, rs[0], tail);
      EachRoundTripIff(c, rs[1..], rest);
      assert StrippedAll(rs) == [Stripped(rs[0])] + StrippedAll(rs[1..]);
      assert forall i :: 0 < i < |rs| ==> rs[i] == rs[1..][i - 1];
      var first := TakeRelationship(c, RelationshipBytes(c, rs[0]) + tail);
      if first.Got? {
        var others := TakeEach(c, first.rest, |rs| - 1);
        if others.Got? {
          ConsEqual(first.value, others.value, Stripped(rs[0]), StrippedAll(rs[1..]));
        }
      }
    }
  }

  lemma ConsEqual<T>(a: T, s: seq<T>, b: T, t: seq<T>)
    ensures [a] + s == [b] + t <==> a == b && s == t
  {
    if [a] + s == [b] + t {
      assert ([a] + s)[0] == a && ([b] + t)[0] == b;
      assert ([a] + s)[1..] == s && ([b] + t)[1..] == t;
    }
  }

  /**
   A saved store, followed by anything, reads back as all its relationships without their next keys and
   leaves what followed, exactly when every seed and flag fits.
   */
  lemma StoreRoundTripIff(c: Library, rs: seq<RelationshipState>, rest: Bytes)
    requires |rs| < Pow256(8) && forall i :: 0 <= i < |rs| ==> Storable(c, rs[i])
    ensures (forall i :: 0 <= i < |rs| ==> ShortTerms(rs[i])) <==>
            TakeStore(c, StoreBytes(c, rs) + rest) == Got(StrippedAll(rs), rest)
  {
    hide Storable, ShortTerms, TakeEach, EachBytes;
    var s2 := EachBytes(c, rs) + rest;
    var s1 := LE(|rs|, 8) + s2;
    assert StoreBytes(c, rs) + rest == VERSION + s1;
    VersionRead(s1);
    TakeIntAppend(|rs|, 8, s2);
    EachRoundTripIff(c, rs, rest);
  }

  // ----- loading -----

  /** Load derives every next key again. */
  function Rekeyed(r: RelationshipState, wallet: nat): RelationshipState {
    r.(nextKey := NextPublicKey(ChildKey(wallet, r.keyType, r.keyIndex), r.nextHash))
  }

  function RekeyedAll(rs: seq<RelationshipState>, wallet: nat): (r: seq<RelationshipState>)
    ensures |r| == |rs| && forall i :: 0 <= i < |rs| ==> r[i] == Rekeyed(rs[i], wallet)
  {
    seq(|rs|, i requires 0 <= i < |rs| => Rekeyed(rs[i], wallet))
  }

  /** After a save and a load every relationship on its chain is exactly what it was. */
  lemma LoadRestores(c: Library, wallet: nat, rs: seq<RelationshipState>)
    requires |rs| < Pow256(8)
    requires forall i :: 0 <= i < |rs| ==> Storable(c, rs[i]) && ShortTerms(rs[i]) && OnChain(rs[i], wallet)
    ensures var t := TakeStore(c, StoreBytes(c, rs)); t.Got? && RekeyedAll(t.value, wallet) == rs
  {
    hide Storable, StoreBytes, TakeStore, ShortTerms;
    assert StoreBytes(c, rs) + [] == StoreBytes(c, rs);
    StoreRoundTripIff(c, rs, []);
    forall i | 0 <= i < |rs| ensures Rekeyed(Stripped(rs[i]), wallet) == rs[i] {
    }
    assert RekeyedAll(StrippedAll(rs), wallet) == rs;
  }

  // ----- writing and reading the objects -----

  method SerializeMember(c: Library, m: Member, buf: Buffer)
    modifies buf
    ensures buf.data == old(buf.data) + MemberBytes(c, m.State())
  {
    hide *;
    ghost var x, s := buf.data, m.State();
    MemberWritten(c, m, x);
    buf.Write(VERSION);
    buf.Write(c.keyBytes(m.baseKey));
    buf.Write(c.hashBytes(m.nextHash));
    buf.Write(LE(m.nextIndex, 8));
    buf.Write(BoolBytes(m.accepted));
  }

  lemma MemberWritten(c: Library, m: Member, x: Bytes)
    ensures x + VERSION + c.keyBytes(m.baseKey) + c.hashBytes(m.nextHash) + LE(m.nextIndex, 8) + BoolBytes(m.accepted) ==
            x + MemberBytes(c, m.State())
  {
    Writes6(x, VERSION, c.keyBytes(m.baseKey), c.hashBytes(m.nextHash), LE(m.nextIndex, 8), BoolBytes(m.accepted), []);
    assert BoolBytes(m.accepted) + [] == BoolBytes(m.accepted);
  }

  method SerializeMembers(c: Library, members: seq<Member>, buf: Buffer)
    modifies buf
    ensures buf.data == old(buf.data) + MembersBytes(c, StatesOf(members))
  {
    hide MemberBytes;
    ghost var ms, before := StatesOf(members), buf.data;
    for k := 0 to |members|
      invariant buf.data + MembersBytes(c, ms[k..]) == before + MembersBytes(c, ms)
    {
      assert ms[k..][0] == members[k].State() && ms[k..][1..] == ms[k + 1..];
      Writes2(buf.data, MemberBytes(c, ms[k]), MembersBytes(c, ms[k + 1..]));
      SerializeMember(c, members[k], buf);
    }
    assert buf.data + [] == buf.data;
  }

  method SerializeRelationship(c: Library, r: Relationship, buf: Buffer)
    modifies buf
    ensures buf.data == old(buf.data) + RelationshipBytes(c, r.State())
  {
    hide *;
    ghost var x, s := buf.data, r.State();
    RelationshipWritten(c, s, x);
    SerializeHead(c, r, buf);
    SerializeTerms(c, r, buf);
    SerializeTail(c, r, buf);
  }

  method SerializeHead(c: Library, r: Relationship, buf: Buffer)
    modifies buf
    ensures buf.data == old(buf.data) + HeadBytes(c, r.State())
  {
    hide MembersBytes, LE;
    Writes6(buf.data, VERSION, c.hashBytes(r.txId), LE(r.keyType, 4), LE(r.keyIndex, 4), c.hashBytes(r.nextHash), LE(r.nextIndex, 8));
    buf.Write(VERSION);
    buf.Write(c.hashBytes(r.txId));
    buf.Write(LE(r.keyType, 4));
    buf.Write(LE(r.keyIndex, 4));
    buf.Write(c.hashBytes(r.nextHash));
    buf.Write(LE(r.nextIndex, 8));
  }

  function TermsBytes(r: RelationshipState): Bytes {
    LE(|r.seed|, 2) + (r.seed + (LE(|r.flag|, 2) + r.flag))
  }

  method SerializeTerms(c: Library, r: Relationship, buf: Buffer)
    modifies buf
    ensures buf.data == old(buf.data) + TermsBytes(r.State())
  {
    hide MembersBytes, LE;
    Writes4(buf.data, LE(|r.seed|, 2), r.seed, LE(|r.flag|, 2), r.flag);
    buf.Write(LE(|r.seed|, 2));
    buf.Write(r.seed);
    buf.Write(LE(|r.flag|, 2));
    buf.Write(r.flag);
  }

  method SerializeTail(c: Library, r: Relationship, buf: Buffer)
    modifies buf
    ensures buf.data == old(buf.data) + TailBytes(c, r.State())
  {
    hide MembersBytes, LE;
    ghost var ms := MembersBytes(c, StatesOf(r.members));
    Writes6(buf.data, LE(r.encryptionType, 4), c.hashBytes(r.encryptionKey), BoolBytes(r.accepted), LE(|r.members|, 8), ms, []);
    assert ms + [] == ms;
    buf.Write(LE(r.encryptionType, 4));
    buf.Write(c.hashBytes(r.encryptionKey));
    buf.Write(BoolBytes(r.accepted));
    buf.Write(LE(|r.members|, 8));
    SerializeMembers(c, r.members, buf);
  }

  lemma RelationshipWritten(c: Library, r: RelationshipState, x: Bytes)
    ensures x + HeadBytes(c, r) + TermsBytes(r) + TailBytes(c, r) == x + RelationshipBytes(c, r)
  {
    hide HeadBytes, TailBytes, RelationshipBytes;
    var tail := TailBytes(c, r);
    RelationshipParts(c, r, []);
    assert RelationshipBytes(c, r) + [] == RelationshipBytes(c, r) && tail + [] == tail;
    Writes4([], LE(|r.seed|, 2), r.seed, LE(|r.flag|, 2), r.flag);
    Writes4(LE(|r.seed|, 2), r.seed, LE(|r.flag|, 2), r.flag, tail);
    assert TermsBytes(r) + tail == LE(|r.seed|, 2) + (r.seed + (LE(|r.flag|, 2) + (r.flag + tail)));
    Writes2(x, HeadBytes(c, r), TermsBytes(r));
    Writes2(x, HeadBytes(c, r) + TermsBytes(r), tail);
    Writes2(HeadBytes(c, r), TermsBytes(r), tail);
  }

  /** Save writes every relationship, in order, behind a count. */
  method Serialize(c: Library, rs: Relationships) returns (data: Bytes)
    requires rs.Valid()
    ensures data == StoreBytes(c, rs.states)
  {
    hide RelationshipBytes, AddressIndex.Valid, LE, Relationship.State;
    var buf := new Buffer();
    buf.Write(VERSION);
    buf.Write(LE(|rs.list|, 8));
    ghost var head := buf.data;
    for k := 0 to |rs.list|
      invariant buf.data + EachBytes(c, rs.states[k..]) == head + EachBytes(c, rs.states)
    {
      assert rs.states[k..][0] == rs.list[k].State() && rs.states[k..][1..] == rs.states[k + 1..];
      Writes2(buf.data, RelationshipBytes(c, rs.states[k]), EachBytes(c, rs.states[k + 1..]));
      SerializeRelationship(c, rs.list[k], buf);
    }
    assert buf.data + [] == buf.data;
    Writes4([], VERSION, LE(|rs.list|, 8), EachBytes(c, rs.states), []);
    return buf.data;
  }

  /** A read object, compared with what the bytes say. */
  ghost predicate ReadAs<T>(p: Parsed<T>, value: Option<T>, rest: Bytes) {
    match p
    case Got(v, left) => value == Some(v) && rest == left
    case Malformed => value.None?
  }

  method DeserializeMember(c: Library, cur: Cursor, ghost home: object) returns (m: Member?)
    modifies cur
    ensures m != null ==> fresh(m) && m.home == home
    ensures ReadAs(TakeMember(c, old(cur.rest)), if m == null then None else Some(m.State()), cur.rest)
  {
    var version := cur.ReadInt(1);
    if version.None? || version.value != 0 {
      return null;
    }
    var baseKey := c.takeKey(cur.rest);
    if baseKey.Malformed? {
      return null;
    }
    cur.rest := baseKey.rest;
    var nextHash := c.takeHash(cur.rest);
    if nextHash.Malformed? {
      return null;
    }
    cur.rest := nextHash.rest;
    var nextIndex := cur.ReadInt(8);
    if nextIndex.None? {
      return null;
    }
    var accepted := cur.ReadBool();
    if accepted.None? {
      return null;
    }
    m := new Member(home, baseKey.value, nextHash.value);
    m.nextIndex, m.accepted := nextIndex.value, accepted.value;
  }

  method DeserializeMembers(c: Library, cur: Cursor, r: Relationship, n: nat) returns (ok: bool)
    requires r.Valid() && r.members == []
    modifies cur, r`members
    ensures r.Valid() && fresh(MemberSet(r))
    ensures ReadAs(TakeMembers(c, old(cur.rest), n), if ok then Some(StatesOf(r.members)) else None, cur.rest)
  {
    hide TakeMember;
    ghost var start := cur.rest;
    assert StatesOf(r.members) == [] && MemberSet(r) == {};
    NothingBefore(TakeMembers(c, start, n));
    for k := 0 to n
      invariant r.Valid() && fresh(MemberSet(r))
      invariant var p := TakeMembers(c, cur.rest, n - k);
                TakeMembers(c, start, n) == if p.Got? then Got(StatesOf(r.members) + p.value, p.rest) else Malformed
    {
      ghost var before, seen := cur.rest, StatesOf(r.members);
      var m := DeserializeMember(c, cur, r);
      if m == null {
        return false;
      }
      assert forall o :: o in r.members ==> o != m;
      ghost var objects := MemberSet(r);
      r.members := r.members + [m];
      assert MemberSet(r) == objects + {m};
      assert StatesOf(r.members) == seen + [m.State()];
      MembersUnfold(c, before, n - k, seen);
    }
    assert StatesOf(r.members) + [] == StatesOf(r.members);
    return true;
  }

  lemma NothingBefore<T>(p: Parsed<seq<T>>)
    ensures p == if p.Got? then Got([] + p.value, p.rest) else Malformed
  {
    if p.Got? {
      assert [] + p.value == p.value;
    }
  }

  lemma MembersUnfold(c: Library, s: Bytes, n: nat, seen: seq<MemberState>)
    requires n > 0 && TakeMember(c, s).Got?
    ensures var m := TakeMember(c, s);
            var p := TakeMembers(c, m.rest, n - 1);
            var q := TakeMembers(c, s, n);
            && (q.Got? <==> p.Got?)
            && (p.Got? ==> seen + q.value == seen + [m.value] + p.value && q.rest == p.rest)
  {
  }

  function TakeHead(c: Library, s: Bytes): Parsed<Head> {
    var (version, s) :- TakeInt(s, 1);
    if version != 0 then Malformed
    else
      var (txId, s) :- c.takeHash(s);
      var (keyType, s) :- TakeInt(s, 4);
      var (keyIndex, s) :- TakeInt(s, 4);
      var (nextHash, s) :- c.takeHash(s);
      var (nextIndex, s) :- TakeInt(s, 8);
      Got((txId, keyType, keyIndex, nextHash, nextIndex), s)
  }

  method DeserializeHead(c: Library, cur: Cursor) returns (h: Option<Head>)
    modifies cur
    ensures ReadAs(TakeHead(c, old(cur.rest)), h, cur.rest)
  {
    var version := cur.ReadInt(1);
    if version.None? || version.value != 0 {
      return None;
    }
    var txId := c.takeHash(cur.rest);
    if txId.Malformed? {
      return None;
    }
    cur.rest := txId.rest;
    var keyType := cur.ReadInt(4);
    if keyType.None? {
      return None;
    }
    var keyIndex := cur.ReadInt(4);
    if keyIndex.None? {
      return None;
    }
    var nextHash := c.takeHash(cur.rest);
    if nextHash.Malformed? {
      return None;
    }
    cur.rest := nextHash.rest;
    var nextIndex := cur.ReadInt(8);
    if nextIndex.None? {
      return None;
    }
    return Some((txId.value, keyType.value, keyIndex.value, nextHash.value, nextIndex.value));
  }

  method DeserializeTerms(cur: Cursor) returns (t: Option<(Bytes, Bytes)>)
    modifies cur
    ensures ReadAs(TakeTerms(old(cur.rest)), t, cur.rest)
  {
    var size := cur.ReadInt(2);
    if size.None? {
      return None;
    }
    var seed := cur.Read(size.value);
    if seed.None? {
      return None;
    }
    size := cur.ReadInt(2);
    if size.None? {
      return None;
    }
    var flag := cur.Read(size.value);
    if flag.None? {
      return None;
    }
    return Some((seed.value, flag.value));
  }

  method DeserializeTail(c: Library, cur: Cursor, r: Relationship) returns (t: Option<(nat, Hash32, bool)>)
    requires r.Valid() && r.members == []
    modifies cur, r`members
    ensures r.Valid() && fresh(MemberSet(r))
    ensures ReadAs(TakeTail(c, old(cur.rest)),
                   if t.None? then None else Some((t.value.0, t.value.1, t.value.2, StatesOf(r.members))), cur.rest)
  {
    hide TakeMembers, LE, FromLE;
    assert MemberSet(r) == {};
    var encryptionType := cur.ReadInt(4);
    if encryptionType.None? {
      return None;
    }
    var encryptionKey := c.takeHash(cur.rest);
    if encryptionKey.Malformed? {
      return None;
    }
    cur.rest := encryptionKey.rest;
    var accepted := cur.ReadBool();
    if accepted.None? {
      return None;
    }
    var count := cur.ReadInt(8);
    if count.None? {
      return None;
    }
    var ok := DeserializeMembers(c, cur, r, count.value);
    if !ok {
      return None;
    }
    return Some((encryptionType.value, encryptionKey.value, accepted.value));
  }

  type Head = (Hash32, nat, nat, Hash32, nat)

  /** The relationship a head, its terms and the bytes that follow describe. */
  function TakeBody(c: Library, s: Bytes, h: Head, terms: (Bytes, Bytes)): Parsed<RelationshipState> {
    var (t, s) :- TakeTail(c, s);
    Got(RelationshipState(h.0, h.1, h.2, h.3, h.4, terms.0, terms.1, t.0, t.1, t.2, t.3, NoKey), s)
  }

  lemma BodyIs(c: Library, s: Bytes, h: Head, terms: (Bytes, Bytes))
    ensures TakeBody(c, s, h, terms) ==
            match TakeTail(c, s)
            case Malformed => Malformed
            case Got(t, left) =>
              Got(RelationshipState(h.0, h.1, h.2, h.3, h.4, terms.0, terms.1, t.0, t.1, t.2, t.3, NoKey), left)
  {
  }

  method DeserializeBody(c: Library, cur: Cursor, h: Head, terms: (Bytes, Bytes)) returns (r: Relationship?)
    modifies cur
    ensures r != null ==> fresh(r) && r.Valid() && fresh(MemberSet(r))
    ensures ReadAs(TakeBody(c, old(cur.rest), h, terms), if r == null then None else Some(r.State()), cur.rest)
  {
    hide TakeTail, TakeBody, StatesOf, Relationship.State, Relationship.Valid, MemberSet;
    BodyIs(c, cur.rest, h, terms);
    r := new Relationship(h.0, terms.0, terms.1, 0, RawHash(0), false);
    StateIs(r);
    r.keyType, r.keyIndex, r.nextHash, r.nextIndex := h.1, h.2, h.3, h.4;
    var t := DeserializeTail(c, cur, r);
    if t.None? {
      return null;
    }
    r.encryptionType, r.encryptionKey, r.accepted := t.value.0, t.value.1, t.value.2;
    StateIs(r);
  }

  lemma RelationshipIsParts(c: Library, s: Bytes)
    ensures TakeRelationship(c, s) ==
            match TakeHead(c, s)
            case Malformed => Malformed
            case Got(h, s1) =>
              match TakeTerms(s1)
              case Malformed => Malformed
              case Got(terms, s2) => TakeBody(c, s2, h, terms)
  {
    hide TakeTerms, TakeMembers;
  }

  method DeserializeRelationship(c: Library, cur: Cursor) returns (r: Relationship?)
    modifies cur
    ensures r != null ==> fresh(r) && r.Valid() && fresh(MemberSet(r))
    ensures ReadAs(TakeRelationship(c, old(cur.rest)), if r == null then None else Some(r.State()), cur.rest)
  {
    hide TakeHead, TakeTerms, TakeBody, TakeRelationship, Relationship.State, Relationship.Valid, MemberSet;
    RelationshipIsParts(c, cur.rest);
    var h := DeserializeHead(c, cur);
    if h.None? {
      return null;
    }
    var terms := DeserializeTerms(cur);
    if terms.None? {
      return null;
    }
    r := DeserializeBody(c, cur, h.value, terms.value);
  }

  lemma StateIs(r: Relationship)
    ensures r.State() == RelationshipState(r.txId, r.keyType, r.keyIndex, r.nextHash, r.nextIndex, r.seed, r.flag,
                                           r.encryptionType, r.encryptionKey, r.accepted, StatesOf(r.members), r.nextKey)
  {
  }

  // ----- loading the objects -----

  /** The list holds distinct objects that show the ghost states. */
  ghost predicate Held(rs: Relationships)
    reads rs, rs.list, rs.own
  {
    Separate(rs.list, rs.own) && Shows(rs.list, rs.own, rs.states)
  }

  method AppendObject(rs: Relationships, r: Relationship)
    requires Held(rs) && r.Valid() && r !in rs.list
    modifies rs
    ensures Held(rs) && rs.list == old(rs.list) + [r] && rs.states == old(rs.states) + [old(r.State())]
    ensures rs.own == old(rs.own) + old(MemberSet(r)) && Objects(rs) == old(Objects(rs)) + {r}
  {
    hide StatesOf, Relationship.State;
    rs.list := rs.list + [r];
    rs.own := rs.own + MemberSet(r);
    rs.states := rs.states + [r.State()];
  }

  lemma EachUnfold(c: Library, s: Bytes, n: nat, seen: seq<RelationshipState>)
    requires n > 0
    ensures var r := TakeRelationship(c, s);
            var q := TakeEach(c, s, n);
            && (r.Malformed? ==> q.Malformed?)
            && (r.Got? ==>
                  var p := TakeEach(c, r.rest, n - 1);
                  && (q.Got? <==> p.Got?)
                  && (p.Got? ==> seen + q.value == seen + [r.value] + p.value && q.rest == p.rest))
  {
    hide TakeRelationship;
  }

  method DeserializeEach(c: Library, rs: Relationships, cur: Cursor, n: nat) returns (ok: bool)
    requires Held(rs) && rs.list == [] && rs.states == [] && rs.own == {}
    modifies rs, cur
    ensures Held(rs) && fresh(Objects(rs)) && fresh(rs.own)
    ensures ReadAs(TakeEach(c, old(cur.rest), n), if ok then Some(rs.states) else None, cur.rest)
  {
    hide TakeRelationship, TakeEach, Held, Relationship.State, Relationship.Valid;
    ghost var start := cur.rest;
    assert Objects(rs) == {};
    NothingBefore(TakeEach(c, start, n));
    for k := 0 to n
      invariant Held(rs) && fresh(Objects(rs)) && fresh(rs.own)
      invariant var p := TakeEach(c, cur.rest, n - k);
                TakeEach(c, start, n) == if p.Got? then Got(rs.states + p.value, p.rest) else Malformed
    {
      EachUnfold(c, cur.rest, n - k, rs.states);
      var r := DeserializeRelationship(c, cur);
      if r == null {
        return false;
      }
      assert r !in Objects(rs);
      AppendObject(rs, r);
    }
    EachEnd(c, cur.rest);
    assert rs.states + [] == rs.states;
    return true;
  }

  lemma EachEnd(c: Library, s: Bytes)
    ensures TakeEach(c, s, 0) == Got([], s)
  {
  }

  /** Derive the next key of every relationship again. */
  method RekeyEach(rs: Relationships)
    requires Held(rs)
    modifies rs`states, Objects(rs)
    ensures Held(rs) && rs.states == RekeyedAll(old(rs.states), rs.index.wallet)
  {
    hide StatesOf;
    ghost var before := rs.states;
    for k := 0 to |rs.list|
      invariant Held(rs) && |rs.states| == |before|
      invariant forall i :: 0 <= i < |before| ==> rs.states[i] == if i < k then Rekeyed(before[i], rs.index.wallet) else before[i]
    {
      RekeyOne(rs, rs.list[k], k);
    }
  }

  lemma RekeyedIs(r: RelationshipState, wallet: nat)
    ensures Rekeyed(r, wallet) == r.(nextKey := NextPublicKey(ChildKey(wallet, r.keyType, r.keyIndex), r.nextHash))
  {
  }

  method RekeyOne(rs: Relationships, r: Relationship, k: nat)
    requires Held(rs) && k < |rs.list| && rs.list[k] == r
    modifies rs`states, r`nextKey
    ensures Held(rs) && rs.states == old(rs.states)[k := Rekeyed(old(rs.states)[k], rs.index.wallet)]
  {
    hide StatesOf, Relationship.State, Rekeyed;
    RekeyedIs(r.State(), rs.index.wallet);
    StateIs(r);
    r.nextKey := NextPublicKey(PublicOf(rs.index.GetKey(r.keyType, r.keyIndex)), r.nextHash);
    StateIs(r);
    rs.states := rs.states[k := r.State()];
  }

  /** Load reads the store and derives the next keys; a store it cannot read is an error. */
  method Load(c: Library, rs: Relationships, data: Bytes) returns (ok: bool)
    modifies rs
    ensures match TakeStore(c, data)
            case Got(v, _) => ok && Held(rs) && rs.states == RekeyedAll(v, rs.index.wallet)
            case Malformed => !ok
  {
    hide TakeEach, RekeyedAll;
    var cur := new Cursor(data);
    var version := cur.ReadInt(1);
    if version.None? || version.value != 0 {
      return false;
    }
    var count := cur.ReadInt(8);
    if count.None? {
      return false;
    }
    rs.list, rs.states, rs.own := [], [], {};
    ok := DeserializeEach(c, rs, cur, count.value);
    if ok {
      RekeyEach(rs);
    }
  }
}
