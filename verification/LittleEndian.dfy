/** Fixed-width little-endian integers, as every format here writes them. */
module LittleEndian {
  import opened Common

  type u32 = x: int | 0 <= x < 0x1_0000_0000
  type u64 = x: int | 0 <= x < 0x1_0000_0000_0000_0000

  function Pow256(n: nat): (p: nat)
    ensures p > 0
  {
    if n == 0 then 1 else 256 * Pow256(n - 1)
  }

  function Le(v: nat, n: nat): (b: seq<byte>)
    ensures |b| == n
  {
    if n == 0 then [] else [v % 256] + Le(v / 256, n - 1)
  }

  function FromLe(b: seq<byte>): nat {
    if b == [] then 0 else b[0] + 256 * FromLe(b[1..])
  }

  lemma {:induction false} FromLeBound(b: seq<byte>)
    ensures FromLe(b) < Pow256(|b|)
  {
    if b != [] {
      FromLeBound(b[1..]);
    }
  }

  lemma {:induction false} LeRoundTrip(v: nat, n: nat)
    requires v < Pow256(n)
    ensures FromLe(Le(v, n)) == v
  {
    if n > 0 {
      LeRoundTrip(v / 256, n - 1);
      assert Le(v, n)[1..] == Le(v / 256, n - 1);
    }
  }

  lemma LowFirst(b: byte, v: nat)
    ensures (b + 256 * v) % 256 == b && (b + 256 * v) / 256 == v
  {
  }

  /** And the bytes are the only ones that read as that value. */
  lemma {:induction false} FromLeRoundTrip(b: seq<byte>)
    ensures Le(FromLe(b), |b|) == b
  {
    if b != [] {
      var first, rest := b[0], b[1..];
      FromLeRoundTrip(rest);
      assert FromLe(b) == first + 256 * FromLe(rest);
      LowFirst(first, FromLe(rest));
      hide FromLe;
      assert b == [first] + rest;
    }
  }

  lemma Widths()
    ensures Pow256(4) == 0x1_0000_0000 && Pow256(8) == 0x1_0000_0000_0000_0000
  {
    assert Pow256(2) == 0x1_0000;
    assert Pow256(4) == 256 * (256 * Pow256(2));
    assert Pow256(6) == 256 * (256 * Pow256(4));
    assert Pow256(8) == 256 * (256 * Pow256(6));
  }

  function Put32(v: u32): (b: seq<byte>)
    ensures |b| == 4
  {
    Le(v, 4)
  }

  function Put64(v: u64): (b: seq<byte>)
    ensures |b| == 8
  {
    Le(v, 8)
  }

  function Get32(b: seq<byte>): (v: u32)
    requires |b| == 4
  {
    Widths();
    FromLeBound(b);
    FromLe(b)
  }

  function Get64(b: seq<byte>): (v: u64)
    requires |b| == 8
  {
    Widths();
    FromLeBound(b);
    FromLe(b)
  }

  lemma Get32Put32(v: u32)
    ensures Get32(Put32(v)) == v
  {
    Widths();
    LeRoundTrip(v, 4);
  }

  lemma Get64Put64(v: u64)
    ensures Get64(Put64(v)) == v
  {
    Widths();
    LeRoundTrip(v, 8);
  }

  /** The least significant byte comes first. */
  lemma LittleFirst(v: u32)
    ensures Put32(v) == [v % 0x100, v / 0x100 % 0x100, v / 0x1_0000 % 0x100, v / 0x100_0000]
  {
    assert Le(v / 0x100_0000, 1) == [v / 0x100_0000];
    assert Le(v / 0x1_0000, 2) == [v / 0x1_0000 % 0x100] + Le(v / 0x1_0000 / 0x100, 1);
    assert Le(v / 0x100, 3) == [v / 0x100 % 0x100] + Le(v / 0x100 / 0x100, 2);
  }

  /** A length as the wire states it: the low 32 bits. */
  function Low32(n: nat): u32 {
    n % 0x1_0000_0000
  }
}
