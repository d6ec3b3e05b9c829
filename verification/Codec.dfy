/**
 Bytes on disk: little-endian integers, the cursor semantics of a Go byte reader, and the encodings of
 the library types, of which only that they read back what they wrote is used.
 */
module Codec {
  import opened Results
  import opened Bitcoin

  // ----- integers -----

  function Pow256(w: nat): (p: nat)
    ensures p > 0
  {
    if w == 0 then 1 else 256 * Pow256(w - 1)
  }

  /** The low `w` bytes of a number, least significant first: wider numbers are cut off. */
  function LE(n: nat, w: nat): (b: Bytes)
    ensures |b| == w
  {
    if w == 0 then [] else [n % 256] + LE(n / 256, w - 1)
  }

  function FromLE(b: Bytes): nat {
    if b == [] then 0 else b[0] + 256 * FromLE(b[1..])
  }

  /** An integer survives exactly when it fits its width. */
  lemma {:induction false} IntRoundTrip(n: nat, w: nat)
    ensures FromLE(LE(n, w)) < Pow256(w)
    ensures FromLE(LE(n, w)) == n <==> n < Pow256(w)
  {
    if w > 0 {
      IntRoundTrip(n / 256, w - 1);
      var b := LE(n, w);
      assert b[0] == n % 256 && b[1..] == LE(n / 256, w - 1);
      assert FromLE(b) == n % 256 + 256 * FromLE(b[1..]);
    }
  }

  // ----- reading -----

  /** What a parser read and what it left, or that it could not read. */
  datatype Parsed<+T> = Malformed | Got(value: T, rest: Bytes) {
    predicate IsFailure() {
      Malformed?
    }

    function PropagateFailure<U>(): Parsed<U>
      requires Malformed?
    {
      Malformed
    }

    function Extract(): (T, Bytes)
      requires Got?
    {
      (value, rest)
    }
  }

  /** binary.Read of an integer: all its bytes or an error. */
  function TakeInt(s: Bytes, w: nat): Parsed<nat> {
    if |s| < w then Malformed else Got(FromLE(s[..w]), s[w..])
  }

  function TakeBool(s: Bytes): Parsed<bool> {
    var (n, s) :- TakeInt(s, 1);
    Got(n != 0, s)
  }

  function BoolBytes(b: bool): Bytes {
    [if b then 1 else 0]
  }

  function Zeros(n: nat): Bytes {
    seq(n, _ => 0)
  }

  /** Read into a slice of `n` bytes: an error only at the end, a short read leaves zeros. */
  function TakeSome(s: Bytes, n: nat): (r: Parsed<Bytes>)
    ensures r.Got? ==> |r.value| == n
  {
    if s == [] then Malformed
    else if |s| < n then Got(s + Zeros(n - |s|), [])
    else Got(s[..n], s[n..])
  }

  lemma TakeIntAppend(n: nat, w: nat, rest: Bytes)
    ensures TakeInt(LE(n, w) + rest, w) == Got(FromLE(LE(n, w)), rest)
    ensures n < Pow256(w) ==> TakeInt(LE(n, w) + rest, w) == Got(n, rest)
  {
    assert (LE(n, w) + rest)[..w] == LE(n, w) && (LE(n, w) + rest)[w..] == rest;
    IntRoundTrip(n, w);
  }

  lemma TakeBoolAppend(b: bool, rest: Bytes)
    ensures TakeBool(BoolBytes(b) + rest) == Got(b, rest)
  {
    var s := BoolBytes(b) + rest;
    assert s[..1] == BoolBytes(b) && s[1..] == rest;
    assert FromLE(s[..1]) == s[0] + 256 * FromLE([]);
  }

  lemma TakeSomeAppend(b: Bytes, rest: Bytes)
    requires rest != []
    ensures TakeSome(b + rest, |b|) == Got(b, rest)
  {
    assert (b + rest)[..|b|] == b && (b + rest)[|b|..] == rest;
  }

  // ----- writes in a row -----

  lemma Writes2(x: Bytes, a: Bytes, b: Bytes)
    ensures x + a + b == x + (a + b)
  {
  }

  lemma Writes4(x: Bytes, a: Bytes, b: Bytes, c: Bytes, d: Bytes)
    ensures x + a + b + c + d == x + (a + (b + (c + d)))
  {
    Writes2(x, a, b);
    Writes2(x, a + b, c);
    Writes2(x, a + b + c, d);
    Writes2(a, b, c);
    Writes2(a, b + c, d);
    Writes2(b, c, d);
  }

  lemma Writes6(x: Bytes, a: Bytes, b: Bytes, c: Bytes, d: Bytes, e: Bytes, f: Bytes)
    ensures x + a + b + c + d + e + f == x + (a + (b + (c + (d + (e + f)))))
  {
    Writes4(x, a, b, c, d);
    var four := a + (b + (c + d));
    Writes2(x, four, e);
    Writes2(x, four + e, f);
    Writes2(four, e, f);
    Writes4([], a, b, c, d);
    assert [] + a == a;
    Writes4(a, b, c, d, e + f);
  }

  // ----- library types -----

  /** Every stored form starts with its version. */
  const VERSION: Bytes := [0]

  lemma VersionRead(rest: Bytes)
    ensures TakeInt(VERSION + rest, 1) == Got(0, rest)
  {
    assert LE(0, 1) == VERSION;
    TakeIntAppend(0, 1, rest);
    assert Pow256(1) == 256;
  }


  /** Items written one after the other, and read back by count. */
  function ItemsBytes<T>(write: T -> Bytes, items: seq<T>): Bytes {
    if items == [] then [] else write(items[0]) + ItemsBytes(write, items[1..])
  }

  function TakeItems<T>(read: Bytes -> Parsed<T>, s: Bytes, n: nat): Parsed<seq<T>>
    decreases n
  {
    if n == 0 then Got([], s)
    else
      var (item, s) :- read(s);
      var (items, s) :- TakeItems(read, s, n - 1);
      Got([item] + items, s)
  }

  lemma {:induction false} ItemsRoundTrip<T>(write: T -> Bytes, read: Bytes -> Parsed<T>, items: seq<T>, rest: Bytes)
    requires forall i, tail :: 0 <= i < |items| ==> read(write(items[i]) + tail) == Got(items[i], tail)
    ensures TakeItems(read, ItemsBytes(write, items) + rest, |items|) == Got(items, rest)
  {
    if items == [] {
      assert ItemsBytes(write, items) + rest == rest;
    } else {
      var tail := ItemsBytes(write, items[1..]) + rest;
      assert ItemsBytes(write, items) + rest == write(items[0]) + tail;
      ItemsRoundTrip(write, read, items[1..], rest);
      assert items == [items[0]] + items[1..];
    }
  }

  /** The serialization of the library's own types. */
  datatype Library = Library(
    hashBytes: Hash32 -> Bytes,
    takeHash: Bytes -> Parsed<Hash32>,
    keyBytes: PublicKey -> Bytes,
    takeKey: Bytes -> Parsed<PublicKey>,
    hash20Bytes: Hash20 -> Bytes,
    takeHash20: Bytes -> Parsed<Hash20>,
    addressBytes: RawAddress -> Bytes,
    takeAddress: Bytes -> Parsed<RawAddress>,
    outputBytes: (OutPoint, TxOut) -> Bytes,
    takeOutput: Bytes -> Parsed<(OutPoint, TxOut)>)

  ghost predicate ReadsHash(c: Library, h: Hash32) {
    forall rest :: c.takeHash(c.hashBytes(h) + rest) == Got(h, rest)
  }

  ghost predicate ReadsKey(c: Library, k: PublicKey) {
    forall rest :: c.takeKey(c.keyBytes(k) + rest) == Got(k, rest)
  }

  ghost predicate ReadsHash20(c: Library, h: Hash20) {
    forall rest :: c.takeHash20(c.hash20Bytes(h) + rest) == Got(h, rest)
  }

  ghost predicate ReadsAddress(c: Library, ra: RawAddress) {
    forall rest :: c.takeAddress(c.addressBytes(ra) + rest) == Got(ra, rest)
  }

  ghost predicate ReadsOutput(c: Library, p: OutPoint, o: TxOut) {
    forall rest :: c.takeOutput(c.outputBytes(p, o) + rest) == Got((p, o), rest)
  }

  // ----- the buffer and the cursor -----

  class Buffer {
    var data: Bytes

    constructor ()
      ensures data == []
    {
      data := [];
    }

    method Write(b: Bytes)
      modifies this
      ensures data == old(data) + b
    {
      data := data + b;
    }
  }

  class Cursor {
    var rest: Bytes

    constructor (b: Bytes)
      ensures rest == b
    {
      rest := b;
    }

    method ReadInt(w: nat) returns (n: Option<nat>)
      modifies this
      ensures match TakeInt(old(rest), w)
              case Got(v, left) => n == Some(v) && rest == left
              case Malformed => n.None?
    {
      if |rest| < w {
        return None;
      }
      n := Some(FromLE(rest[..w]));
      rest := rest[w..];
    }

    method ReadBool() returns (b: Option<bool>)
      modifies this
      ensures match TakeBool(old(rest))
              case Got(v, left) => b == Some(v) && rest == left
              case Malformed => b.None?
    {
      var n := ReadInt(1);
      b := if n.Some? then Some(n.value != 0) else None;
    }

    method Read(n: nat) returns (b: Option<Bytes>)
      modifies this
      ensures match TakeSome(old(rest), n)
              case Got(v, left) => b == Some(v) && rest == left
              case Malformed => b.None?
    {
      if rest == [] {
        return None;
      }
      if |rest| < n {
        b, rest := Some(rest + Zeros(n - |rest|)), [];
      } else {
        b, rest := Some(rest[..n]), rest[n..];
      }
    }
  }
}
