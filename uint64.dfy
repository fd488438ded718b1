/**
 * Go's fixed-width integers as the storage layer uses them: uint64 and int64
 * values, the wrap-around of their arithmetic and of the conversions between
 * them, and the 8-byte big-endian form in which numbers are written to the
 * database.
 */
module Uint64 {

  const TWO_64: int := 0x1_0000_0000_0000_0000
  const TWO_63: int := 0x8000_0000_0000_0000

  type Byte = x: int | 0 <= x < 256
  type Bytes = seq<Byte>

  /** Go's uint64. */
  type U64 = x: int | 0 <= x < 0x1_0000_0000_0000_0000

  /** Go's int64. */
  type I64 = x: int | -0x8000_0000_0000_0000 <= x < 0x8000_0000_0000_0000

  /** The low 64 bits of an unbounded integer, read as unsigned. */
  function Wrap(x: int): (r: U64)
    ensures 0 <= x < TWO_64 ==> r == x
  {
    x % TWO_64
  }

  /** `int64(u)`: the same 64 bits read as two's complement. */
  function ToInt64(u: U64): (r: I64)
    ensures Wrap(r) == u
    ensures u < TWO_63 <==> r >= 0
  {
    if u < TWO_63 then u else u - TWO_64
  }

  /** `uint64(i)`: the same 64 bits read as unsigned. */
  function ToUint64(i: I64): (r: U64)
    ensures ToInt64(r) == i
  {
    Wrap(i)
  }

  /** `a + b` on int64, which wraps on overflow. */
  function AddInt64(a: I64, b: I64): (r: I64)
    ensures Wrap(r) == Wrap(a + b)
    ensures -TWO_63 <= a + b < TWO_63 ==> r == a + b
  {
    ToInt64(Wrap(a + b))
  }

  /** `a + b` on uint64, which wraps on overflow. */
  function AddUint64(a: U64, b: U64): (r: U64)
    ensures a + b < TWO_64 ==> r == a + b
    ensures a + b >= TWO_64 ==> r == a + b - TWO_64
  {
    Wrap(a + b)
  }

  /** `a - b` on uint64, which wraps below zero. */
  function SubUint64(a: U64, b: U64): (r: U64)
    ensures b <= a ==> r == a - b
    ensures a < b ==> r == a - b + TWO_64
  {
    Wrap(a - b)
  }

  /** Two integers that differ by a multiple of 2^64 have the same low 64 bits. */
  lemma {:induction false} WrapCongruent(x: int, k: int)
    ensures Wrap(x + k * TWO_64) == Wrap(x)
    decreases if k < 0 then -k else k
  {
    if k > 0 {
      WrapCongruent(x, k - 1);
      assert x + k * TWO_64 == (x + (k - 1) * TWO_64) + TWO_64;
    } else if k < 0 {
      WrapCongruent(x, k + 1);
      assert x + k * TWO_64 == (x + (k + 1) * TWO_64) - TWO_64;
    }
  }

  /**
   * `uint64(int64(balance) + add)` is the unsigned sum modulo 2^64: the detour
   * through int64 changes nothing but where the wrap happens.
   */
  lemma SignedAddWraps(balance: U64, add: I64)
    ensures ToUint64(AddInt64(ToInt64(balance), add)) == Wrap(balance + add)
  {
    var s := ToInt64(balance);
    assert s == balance || s == balance - TWO_64;
    if s != balance {
      WrapCongruent(balance + add, -1);
      assert s + add == balance + add + (-1) * TWO_64;
    }
  }

  function Pow256(n: nat): (r: nat)
    ensures r > 0
  {
    if n == 0 then 1 else 256 * Pow256(n - 1)
  }

  /** The n-byte big-endian form of x, most significant byte first. */
  function ToBigEndian(x: nat, n: nat): (r: Bytes)
    ensures |r| == n
  {
    if n == 0 then [] else ToBigEndian(x / 256, n - 1) + [x % 256]
  }

  /** The number that a big-endian byte string denotes. */
  function FromBigEndian(b: Bytes): (r: nat)
    ensures r < Pow256(|b|)
  {
    if b == [] then 0
    else
      var hi := FromBigEndian(b[..|b| - 1]);
      assert hi * 256 <= (Pow256(|b| - 1) - 1) * 256;
      hi * 256 + b[|b| - 1]
  }

  /** Reading back the n-byte form of a number that fits in n bytes gives the number. */
  lemma {:induction false} BigEndianRoundTrip(x: nat, n: nat)
    requires x < Pow256(n)
    ensures FromBigEndian(ToBigEndian(x, n)) == x
  {
    if n > 0 {
      assert x / 256 < Pow256(n - 1);
      BigEndianRoundTrip(x / 256, n - 1);
      var b := ToBigEndian(x, n);
      assert b[..|b| - 1] == ToBigEndian(x / 256, n - 1);
    }
  }

  /** The database form of a uint64 (`Uint64ToBytes`, `encodeBlockNumber`). */
  function Uint64ToBytes(x: U64): (r: Bytes)
    ensures |r| == 8
  {
    ToBigEndian(x, 8)
  }

  /** `BytesToUint64`: the number in the first eight bytes. */
  function BytesToUint64(b: Bytes): (r: U64)
  {
    assert Pow256(8) == TWO_64;
    FromBigEndian(if |b| >= 8 then b[..8] else b)
  }

  /** A balance written with `Uint64ToBytes` reads back unchanged. */
  lemma Uint64BytesRoundTrip(x: U64)
    ensures BytesToUint64(Uint64ToBytes(x)) == x
  {
    assert Pow256(8) == TWO_64;
    BigEndianRoundTrip(x, 8);
    assert Uint64ToBytes(x)[..8] == Uint64ToBytes(x);
  }

  /** Distinct numbers have distinct database forms. */
  lemma Uint64ToBytesInjective(x: U64, y: U64)
    requires Uint64ToBytes(x) == Uint64ToBytes(y)
    ensures x == y
  {
    Uint64BytesRoundTrip(x);
    Uint64BytesRoundTrip(y);
  }
}
