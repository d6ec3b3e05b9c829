/**
 The stored form of the wallet: what Wallet.Serialize writes of its maps, in whatever order they are
 enumerated, and what Deserialize rebuilds from it.
 */
module WalletStore {
  import opened Results
  import opened Bitcoin
  import opened AddressSpec
  import opened LedgerSpec
  import opened Codec

  /** What is stored of an address: neither its public key nor whether it was given out. */
  datatype AddressRecord = AddressRecord(
    address: RawAddress,
    keyType: nat,
    keyIndex: nat,
    keyHash: Option<Hash32>,
    used: bool)

  datatype UtxoRecord = UtxoRecord(
    point: OutPoint,
    output: TxOut,
    keyType: nat,
    keyIndex: nat,
    keyHash: Option<Hash32>,
    pending: bool,
    reserved: bool,
    deleted: bool)

  /** The parts of the file, each map as the list of its entries in the order they were written. */
  datatype WalletFile = WalletFile(
    hashes: seq<(Hash20, RawAddress)>,
    lists: seq<seq<AddressRecord>>,
    derived: seq<AddressRecord>,
    buckets: seq<seq<UtxoRecord>>)

  // ----- records -----

  function HashOptionBytes(c: Library, h: Option<Hash32>): Bytes {
    match h
    case None => BoolBytes(false)
    case Some(hash) => BoolBytes(true) + c.hashBytes(hash)
  }

  function TakeHashOption(c: Library, s: Bytes): Parsed<Option<Hash32>> {
    var (present, s) :- TakeBool(s);
    if !present then Got(None, s)
    else
      var (hash, s) :- c.takeHash(s);
      Got(Some(hash), s)
  }

  lemma HashOptionRoundTrip(c: Library, h: Option<Hash32>, rest: Bytes)
    requires h.Some? ==> ReadsHash(c, h.value)
    ensures TakeHashOption(c, HashOptionBytes(c, h) + rest) == Got(h, rest)
  {
    match h
    case None => TakeBoolAppend(false, rest);
    case Some(hash) =>
      assert HashOptionBytes(c, h) + rest == BoolBytes(true) + (c.hashBytes(hash) + rest);
      TakeBoolAppend(true, c.hashBytes(hash) + rest);
  }

  /** The key a record belongs to. */
  function KeyRefBytes(c: Library, keyType: nat, keyIndex: nat, keyHash: Option<Hash32>): Bytes {
    LE(keyType, 4) + (LE(keyIndex, 4) + HashOptionBytes(c, keyHash))
  }

  function TakeKeyRef(c: Library, s: Bytes): Parsed<(nat, nat, Option<Hash32>)> {
    var (keyType, s) :- TakeInt(s, 4);
    var (keyIndex, s) :- TakeInt(s, 4);
    var (keyHash, s) :- TakeHashOption(c, s);
    Got((keyType, keyIndex, keyHash), s)
  }

  lemma KeyRefRoundTrip(c: Library, keyType: nat, keyIndex: nat, keyHash: Option<Hash32>, rest: Bytes)
    requires keyType < Pow256(4) && keyIndex < Pow256(4) && (keyHash.Some? ==> ReadsHash(c, keyHash.value))
    ensures TakeKeyRef(c, KeyRefBytes(c, keyType, keyIndex, keyHash) + rest) == Got((keyType, keyIndex, keyHash), rest)
  {
    hide HashOptionBytes, TakeHashOption;
    var s2 := HashOptionBytes(c, keyHash) + rest;
    var s1 := LE(keyIndex, 4) + s2;
    assert KeyRefBytes(c, keyType, keyIndex, keyHash) + rest == LE(keyType, 4) + s1;
    TakeIntAppend(keyType, 4, s1);
    TakeIntAppend(keyIndex, 4, s2);
    HashOptionRoundTrip(c, keyHash, rest);
  }

  function AddressBytes(c: Library, a: AddressRecord): Bytes {
    VERSION + (c.addressBytes(a.address) + (KeyRefBytes(c, a.keyType, a.keyIndex, a.keyHash) + BoolBytes(a.used)))
  }

  function TakeAddress(c: Library, s: Bytes): Parsed<AddressRecord> {
    var (version, s) :- TakeInt(s, 1);
    if version != 0 then Malformed
    else
      var (address, s) :- c.takeAddress(s);
      var (key, s) :- TakeKeyRef(c, s);
      var (used, s) :- TakeBool(s);
      Got(AddressRecord(address, key.0, key.1, key.2, used), s)
  }

  ghost predicate StorableAddress(c: Library, a: AddressRecord) {
    && ReadsAddress(c, a.address) && a.keyType < Pow256(4) && a.keyIndex < Pow256(4)
    && (a.keyHash.Some? ==> ReadsHash(c, a.keyHash.value))
  }

  lemma AddressRoundTrip(c: Library, a: AddressRecord, rest: Bytes)
    requires StorableAddress(c, a)
    ensures TakeAddress(c, AddressBytes(c, a) + rest) == Got(a, rest)
  {
    hide KeyRefBytes, TakeKeyRef;
    var s3 := BoolBytes(a.used) + rest;
    var s2 := KeyRefBytes(c, a.keyType, a.keyIndex, a.keyHash) + s3;
    var s1 := c.addressBytes(a.address) + s2;
    assert AddressBytes(c, a) + rest == VERSION + s1;
    VersionRead(s1);
    assert c.takeAddress(s1) == Got(a.address, s2);
    KeyRefRoundTrip(c, a.keyType, a.keyIndex, a.keyHash, s3);
    TakeBoolAppend(a.used, rest);
  }

  function FlagBytes(pending: bool, reserved: bool, deleted: bool): Bytes {
    BoolBytes(pending) + (BoolBytes(reserved) + BoolBytes(deleted))
  }

  function TakeFlags(s: Bytes): Parsed<(bool, bool, bool)> {
    var (pending, s) :- TakeBool(s);
    var (reserved, s) :- TakeBool(s);
    var (deleted, s) :- TakeBool(s);
    Got((pending, reserved, deleted), s)
  }

  lemma FlagsRoundTrip(pending: bool, reserved: bool, deleted: bool, rest: Bytes)
    ensures TakeFlags(FlagBytes(pending, reserved, deleted) + rest) == Got((pending, reserved, deleted), rest)
  {
    var s2 := BoolBytes(deleted) + rest;
    var s1 := BoolBytes(reserved) + s2;
    assert FlagBytes(pending, reserved, deleted) + rest == BoolBytes(pending) + s1;
    TakeBoolAppend(pending, s1);
    TakeBoolAppend(reserved, s2);
    TakeBoolAppend(deleted, rest);
  }

  function UtxoBytes(c: Library, u: UtxoRecord): Bytes {
    VERSION + (c.outputBytes(u.point, u.output)
    + (KeyRefBytes(c, u.keyType, u.keyIndex, u.keyHash) + FlagBytes(u.pending, u.reserved, u.deleted)))
  }

  function TakeUtxo(c: Library, s: Bytes): Parsed<UtxoRecord> {
    var (version, s) :- TakeInt(s, 1);
    if version != 0 then Malformed
    else
      var (core, s) :- c.takeOutput(s);
      var (key, s) :- TakeKeyRef(c, s);
      var (flags, s) :- TakeFlags(s);
      Got(UtxoRecord(core.0, core.1, key.0, key.1, key.2, flags.0, flags.1, flags.2), s)
  }

  ghost predicate StorableUtxo(c: Library, u: UtxoRecord) {
    && ReadsOutput(c, u.point, u.output) && u.keyType < Pow256(4) && u.keyIndex < Pow256(4)
    && (u.keyHash.Some? ==> ReadsHash(c, u.keyHash.value))
  }

  lemma UtxoRoundTrip(c: Library, u: UtxoRecord, rest: Bytes)
    requires StorableUtxo(c, u)
    ensures TakeUtxo(c, UtxoBytes(c, u) + rest) == Got(u, rest)
  {
    hide KeyRefBytes, TakeKeyRef, FlagBytes, TakeFlags;
    var s3 := FlagBytes(u.pending, u.reserved, u.deleted) + rest;
    var s2 := KeyRefBytes(c, u.keyType, u.keyIndex, u.keyHash) + s3;
    var s1 := c.outputBytes(u.point, u.output) + s2;
    assert UtxoBytes(c, u) + rest == VERSION + s1;
    VersionRead(s1);
    assert c.takeOutput(s1) == Got((u.point, u.output), s2);
    KeyRefRoundTrip(c, u.keyType, u.keyIndex, u.keyHash, s3);
    FlagsRoundTrip(u.pending, u.reserved, u.deleted, rest);
  }

  // ----- lists of records -----

  function HashPairBytes(c: Library, p: (Hash20, RawAddress)): Bytes {
    c.hash20Bytes(p.0) + c.addressBytes(p.1)
  }

  function TakeHashPair(c: Library, s: Bytes): Parsed<(Hash20, RawAddress)> {
    var (h, s) :- c.takeHash20(s);
    var (ra, s) :- c.takeAddress(s);
    Got((h, ra), s)
  }

  /** A count of the given width, then the items. */
  function CountedBytes<T>(write: T -> Bytes, items: seq<T>, width: nat): Bytes {
    LE(|items|, width) + ItemsBytes(write, items)
  }

  function TakeCounted<T>(read: Bytes -> Parsed<T>, s: Bytes, width: nat): Parsed<seq<T>> {
    var (count, s) :- TakeInt(s, width);
    TakeItems(read, s, count)
  }

  lemma CountedRoundTrip<T>(write: T -> Bytes, read: Bytes -> Parsed<T>, items: seq<T>, width: nat, rest: Bytes)
    requires |items| < Pow256(width)
    requires forall i, tail :: 0 <= i < |items| ==> read(write(items[i]) + tail) == Got(items[i], tail)
    ensures TakeCounted(read, CountedBytes(write, items, width) + rest, width) == Got(items, rest)
  {
    hide TakeItems, ItemsBytes;
    var tail := ItemsBytes(write, items) + rest;
    assert CountedBytes(write, items, width) + rest == LE(|items|, width) + tail;
    TakeIntAppend(|items|, width, tail);
    ItemsRoundTrip(write, read, items, rest);
  }

  // ----- the file -----

  function ListBytes(c: Library, list: seq<AddressRecord>): Bytes {
    CountedBytes(a => AddressBytes(c, a), list, 8)
  }

  function TakeList(c: Library, s: Bytes): Parsed<seq<AddressRecord>> {
    TakeCounted(s => TakeAddress(c, s), s, 8)
  }

  function BucketBytes(c: Library, bucket: seq<UtxoRecord>): Bytes {
    CountedBytes(u => UtxoBytes(c, u), bucket, 4)
  }

  function TakeBucket(c: Library, s: Bytes): Parsed<seq<UtxoRecord>> {
    TakeCounted(s => TakeUtxo(c, s), s, 4)
  }

  function HashesBytes(c: Library, hashes: seq<(Hash20, RawAddress)>): Bytes {
    CountedBytes(p => HashPairBytes(c, p), hashes, 8)
  }

  function TakeHashes(c: Library, s: Bytes): Parsed<seq<(Hash20, RawAddress)>> {
    TakeCounted(s => TakeHashPair(c, s), s, 8)
  }

  /** The four lists have no count of their own. */
  function FileBytes(c: Library, f: WalletFile): Bytes {
    VERSION + (HashesBytes(c, f.hashes) + (ItemsBytes(l => ListBytes(c, l), f.lists)
    + (ListBytes(c, f.derived) + CountedBytes(b => BucketBytes(c, b), f.buckets, 8))))
  }

  function TakeFile(c: Library, s: Bytes): Parsed<WalletFile> {
    var (version, s) :- TakeInt(s, 1);
    if version != 0 then Malformed
    else
      var (hashes, s) :- TakeHashes(c, s);
      var (lists, s) :- TakeItems(s => TakeList(c, s), s, KEY_TYPE_COUNT);
      var (derived, s) :- TakeList(c, s);
      var (buckets, s) :- TakeCounted(s => TakeBucket(c, s), s, 8);
      Got(WalletFile(hashes, lists, derived, buckets), s)
  }

  ghost predicate StorableList(c: Library, list: seq<AddressRecord>) {
    |list| < Pow256(8) && forall i :: 0 <= i < |list| ==> StorableAddress(c, list[i])
  }

  ghost predicate StorableBucket(c: Library, bucket: seq<UtxoRecord>) {
    |bucket| < Pow256(4) && forall i :: 0 <= i < |bucket| ==> StorableUtxo(c, bucket[i])
  }

  ghost predicate StorableFile(c: Library, f: WalletFile) {
    && |f.hashes| < Pow256(8) && |f.buckets| < Pow256(8) && |f.lists| == KEY_TYPE_COUNT
    && (forall i :: 0 <= i < |f.hashes| ==> ReadsHash20(c, f.hashes[i].0) && ReadsAddress(c, f.hashes[i].1))
    && (forall t :: 0 <= t < |f.lists| ==> StorableList(c, f.lists[t]))
    && StorableList(c, f.derived)
    && (forall i :: 0 <= i < |f.buckets| ==> StorableBucket(c, f.buckets[i]))
  }

  lemma HashPairRoundTrip(c: Library, p: (Hash20, RawAddress), rest: Bytes)
    requires ReadsHash20(c, p.0) && ReadsAddress(c, p.1)
    ensures TakeHashPair(c, HashPairBytes(c, p) + rest) == Got(p, rest)
  {
    var s1 := c.addressBytes(p.1) + rest;
    assert HashPairBytes(c, p) + rest == c.hash20Bytes(p.0) + s1;
    assert c.takeHash20(c.hash20Bytes(p.0) + s1) == Got(p.0, s1);
    assert c.takeAddress(s1) == Got(p.1, rest);
  }

  lemma HashesRoundTrip(c: Library, hashes: seq<(Hash20, RawAddress)>, rest: Bytes)
    requires |hashes| < Pow256(8)
    requires forall i :: 0 <= i < |hashes| ==> ReadsHash20(c, hashes[i].0) && ReadsAddress(c, hashes[i].1)
    ensures TakeHashes(c, HashesBytes(c, hashes) + rest) == Got(hashes, rest)
  {
    hide TakeHashPair, HashPairBytes, TakeCounted, CountedBytes, Pow256;
    forall i, tail | 0 <= i < |hashes| ensures TakeHashPair(c, HashPairBytes(c, hashes[i]) + tail) == Got(hashes[i], tail) {
      HashPairRoundTrip(c, hashes[i], tail);
    }
    CountedRoundTrip(p => HashPairBytes(c, p), s => TakeHashPair(c, s), hashes, 8, rest);
  }

  lemma ListRoundTrip(c: Library, list: seq<AddressRecord>, rest: Bytes)
    requires StorableList(c, list)
    ensures TakeList(c, ListBytes(c, list) + rest) == Got(list, rest)
  {
    hide TakeAddress, AddressBytes, StorableAddress, TakeCounted, CountedBytes, Pow256;
    forall i, tail | 0 <= i < |list| ensures TakeAddress(c, AddressBytes(c, list[i]) + tail) == Got(list[i], tail) {
      AddressRoundTrip(c, list[i], tail);
    }
    CountedRoundTrip(a => AddressBytes(c, a), s => TakeAddress(c, s), list, 8, rest);
  }

  lemma BucketRoundTrip(c: Library, bucket: seq<UtxoRecord>, rest: Bytes)
    requires StorableBucket(c, bucket)
    ensures TakeBucket(c, BucketBytes(c, bucket) + rest) == Got(bucket, rest)
  {
    hide TakeUtxo, UtxoBytes, StorableUtxo, TakeCounted, CountedBytes, Pow256;
    forall i, tail | 0 <= i < |bucket| ensures TakeUtxo(c, UtxoBytes(c, bucket[i]) + tail) == Got(bucket[i], tail) {
      UtxoRoundTrip(c, bucket[i], tail);
    }
    CountedRoundTrip(u => UtxoBytes(c, u), s => TakeUtxo(c, s), bucket, 4, rest);
  }

  /** The file reads back as written and leaves what follows, whatever order it lists its maps in. */
  lemma FileRoundTrip(c: Library, f: WalletFile, rest: Bytes)
    requires StorableFile(c, f)
    ensures TakeFile(c, FileBytes(c, f) + rest) == Got(f, rest)
  {
    hide StorableList, StorableBucket, TakeHashes, HashesBytes, TakeList, ListBytes, TakeBucket, BucketBytes,
         TakeItems, ItemsBytes, TakeCounted, CountedBytes, Pow256;
    var s4 := CountedBytes(b => BucketBytes(c, b), f.buckets, 8) + rest;
    var s3 := ListBytes(c, f.derived) + s4;
    var s2 := ItemsBytes(l => ListBytes(c, l), f.lists) + s3;
    var s1 := HashesBytes(c, f.hashes) + s2;
    assert FileBytes(c, f) + rest == VERSION + s1;
    VersionRead(s1);
    HashesRoundTrip(c, f.hashes, s2);
    forall t, tail | 0 <= t < |f.lists| ensures TakeList(c, ListBytes(c, f.lists[t]) + tail) == Got(f.lists[t], tail) {
      ListRoundTrip(c, f.lists[t], tail);
    }
    ItemsRoundTrip(l => ListBytes(c, l), s => TakeList(c, s), f.lists, s3);
    ListRoundTrip(c, f.derived, s4);
    forall i, tail | 0 <= i < |f.buckets|
      ensures TakeBucket(c, BucketBytes(c, f.buckets[i]) + tail) == Got(f.buckets[i], tail)
    {
      BucketRoundTrip(c, f.buckets[i], tail);
    }
    CountedRoundTrip(b => BucketBytes(c, b), s => TakeBucket(c, s), f.buckets, 8, rest);
  }
}
