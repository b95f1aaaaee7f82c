/** Bytes, Go's 64-bit and 32-bit integers, and the little-endian encoding of a length field. */
module Bytes {

  type byte = x: int | 0 <= x < 256

  const TWO_31 := 0x8000_0000
  const TWO_32 := 0x1_0000_0000
  const TWO_63 := 0x8000_0000_0000_0000
  const TWO_64 := 0x1_0000_0000_0000_0000

  datatype Option<+T> = None | Some(value: T)

  /** The outcome of a source operation that may stop the process (`Fatal`, a panic). */
  datatype Outcome<+T> = Ok(value: T) | Crash

  // ----- machine integers -----

  function Wrap64(x: int): int {
    var m := x % TWO_64;
    if m < TWO_63 then m else m - TWO_64
  }

  function Wrap32(x: int): int {
    var m := x % TWO_32;
    if m < TWO_31 then m else m - TWO_32
  }

  /** Bitwise complement of a two's complement integer. */
  function Complement(x: int): int {
    -x - 1
  }

  /** Adding `^int64(x-1)` with wrap-around is the same as subtracting `x` with wrap-around. */
  lemma AddComplementSubtracts(total: int, x: int)
    ensures Wrap64(total + Complement(Wrap64(x - 1))) == Wrap64(total - x)
  {
    var k := (x - 1) / TWO_64;
    var j := if (x - 1) % TWO_64 < TWO_63 then k else k + 1;
    assert Wrap64(x - 1) == x - 1 - TWO_64 * j;
    AddMultiple(total - x, j);
  }

  lemma AddMultiple(a: int, j: int)
    ensures (a + TWO_64 * j) % TWO_64 == a % TWO_64
  {
    var q, r := a / TWO_64, a % TWO_64;
    assert a + TWO_64 * j == TWO_64 * (q + j) + r;
  }

  // ----- little-endian integers -----

  function LittleEndian(v: nat, n: nat): (b: seq<byte>)
    ensures |b| == n
  {
    if n == 0 then [] else [v % 256] + LittleEndian(v / 256, n - 1)
  }

  /** The k-th byte is the k-th digit to the base 256, lowest first. */
  lemma {:induction false} LittleEndianAt(v: nat, n: nat, k: nat)
    requires k < n
    ensures LittleEndian(v, n)[k] == v / Pow256(k) % 256
  {
    if k > 0 {
      LittleEndianAt(v / 256, n - 1, k - 1);
      DivTwice(v, Pow256(k - 1));
    }
  }

  lemma DivTwice(v: nat, p: nat)
    requires p > 0
    ensures v / 256 / p == v / (256 * p)
  {
    var q, r := v / 256 / p, v / 256 % p;
    assert v / 256 == p * q + r;
    assert v == 256 * p * q + (256 * r + v % 256);
    Quotient(v, 256 * p, q, 256 * r + v % 256);
  }

  lemma Quotient(v: nat, d: nat, q: nat, r: nat)
    requires v == d * q + r && r < d
    ensures v / d == q
  {
    var e, m := v / d, v % d;
    assert v == d * e + m;
    SameQuotient(d, e, m, q, r);
  }

  lemma SameQuotient(d: nat, e: nat, m: nat, q: nat, r: nat)
    requires d * e + m == d * q + r && m < d && r < d
    ensures e == q
  {
    if e != q {
      var k := if e > q then e - q else q - e;
      assert d * k == if e > q then d * e - d * q else d * q - d * e;
      AtLeast(d, k);
    }
  }

  lemma AtLeast(d: nat, k: nat)
    requires k >= 1
    ensures d * k >= d
  {
  }

  function FromLittleEndian(b: seq<byte>): (v: nat) {
    if b == [] then 0 else b[0] + 256 * FromLittleEndian(b[1..])
  }

  function Pow256(n: nat): (p: nat)
    ensures p > 0
  {
    if n == 0 then 1 else 256 * Pow256(n - 1)
  }

  lemma {:induction false} LittleEndianRoundTrip(v: nat, n: nat)
    requires v < Pow256(n)
    ensures FromLittleEndian(LittleEndian(v, n)) == v
  {
    if n > 0 {
      LittleEndianRoundTrip(v / 256, n - 1);
      assert LittleEndian(v, n)[1..] == LittleEndian(v / 256, n - 1);
    }
  }

  lemma Pow256Of8()
    ensures Pow256(8) == TWO_64
  {
    assert Pow256(4) == 0x1_0000_0000;
    assert Pow256(6) == 0x1_0000_0000_0000;
  }

  /** An int64 as `binary.Write` lays it out. */
  function Int64Bytes(x: int): (b: seq<byte>)
    ensures |b| == 8
  {
    LittleEndian(x % TWO_64, 8)
  }

  /** An int64 as `binary.Read` reads it. */
  function ReadInt64(b: seq<byte>): int
    requires |b| == 8
  {
    Wrap64(FromLittleEndian(b))
  }

  lemma Int64RoundTrip(x: int)
    requires -0x8000_0000_0000_0000 <= x < 0x8000_0000_0000_0000
    ensures ReadInt64(Int64Bytes(x)) == x
  {
    Pow256Of8();
    var u: nat := if x >= 0 then x else x + TWO_64;
    assert u % TWO_64 == x % TWO_64 == u by { AddMultiple(x, 1); }
    LittleEndianRoundTrip(u, 8);
  }

  // ----- sequences -----

  /** `copy` of `b` into a zeroed array of `n` bytes. */
  function Pad(b: seq<byte>, n: nat): (r: seq<byte>)
    ensures |r| == n
    ensures forall i :: 0 <= i < n ==> r[i] == if i < |b| then b[i] else 0
  {
    if |b| >= n then b[..n] else b + seq(n - |b|, _ => 0)
  }

  lemma ConcatAssociates<T>(a: seq<T>, b: seq<T>, c: seq<T>)
    ensures a + b + c == a + (b + c)
  {
  }

  function Min(a: int, b: int): int {
    if a < b then a else b
  }

  function Max(a: int, b: int): int {
    if a < b then b else a
  }
}
