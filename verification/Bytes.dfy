/** Octets and the fixed-width big-endian integers of the wire formats. */
module Bytes {
  type byte = x: int | 0 <= x < 256
  type bytes = seq<byte>

  function Pow256(width: nat): (p: nat)
    ensures p > 0
  {
    if width == 0 then 1 else 256 * Pow256(width - 1)
  }

  /** The low `width` octets of `n`, most significant first; higher octets are cut off,
      as a conversion to a narrower unsigned integer does. */
  function BigEndian(n: nat, width: nat): (s: bytes)
    ensures |s| == width
    decreases width
  {
    if width == 0 then [] else BigEndian(n / 256, width - 1) + [n % 256]
  }

  function Value(s: bytes): nat
  {
    if s == [] then 0 else Value(s[..|s| - 1]) * 256 + s[|s| - 1]
  }

  lemma {:induction false} ValueOfBigEndian(n: nat, width: nat)
    ensures Value(BigEndian(n, width)) == n % Pow256(width)
    decreases width
  {
    if width == 0 {
    } else {
      var high := BigEndian(n / 256, width - 1);
      assert BigEndian(n, width)[..width - 1] == high;
      ValueOfBigEndian(n / 256, width - 1);
      DivModStep(n, Pow256(width - 1));
    }
  }

  /** Writing a number that fits and reading it back is the identity. */
  lemma ValueOfBigEndianFits(n: nat, width: nat)
    requires n < Pow256(width)
    ensures Value(BigEndian(n, width)) == n
  {
    ValueOfBigEndian(n, width);
    SmallMod(n, Pow256(width));
  }

  lemma SmallMod(n: nat, m: nat)
    requires n < m
    ensures n % m == n
  {}

  lemma DivModStep(n: nat, m: nat)
    requires m > 0
    ensures (n / 256) % m * 256 + n % 256 == n % (256 * m)
  {
    var q, r := (n / 256) / m, (n / 256) % m;
    assert n / 256 == q * m + r;
    assert n == (q * m + r) * 256 + n % 256;
    var low := r * 256 + n % 256;
    assert n == q * (256 * m) + low by {
      assert (q * m + r) * 256 == q * (256 * m) + r * 256;
    }
    assert r <= m - 1;
    assert r * 256 <= (m - 1) * 256;
    assert 0 <= low < 256 * m;
    ModUnique(n, 256 * m, q, low);
  }

  lemma ModUnique(n: int, m: int, q: int, r: int)
    requires m > 0 && n == q * m + r && 0 <= r < m
    ensures n % m == r && n / m == q
  {
    var d := n / m - q;
    assert n == n / m * m + n % m;
    assert d * m == r - n % m by { assert d * m == n / m * m - q * m; }
    assert -m < d * m < m;
    assert d == 0;
  }

  lemma {:induction false} ValueBound(s: bytes)
    ensures Value(s) < Pow256(|s|)
  {
    if s == [] {
    } else {
      ValueBound(s[..|s| - 1]);
    }
  }

  lemma {:induction false} BigEndianOfValue(s: bytes)
    ensures BigEndian(Value(s), |s|) == s
  {
    if s == [] {
    } else {
      var high, low := s[..|s| - 1], s[|s| - 1];
      BigEndianOfValue(high);
      ModUnique(Value(s), 256, Value(high), low);
      assert s == high + [low];
    }
  }

  /** The first octet weighs most. */
  lemma {:induction false} FirstWeighsMost(b: byte, s: bytes)
    ensures Value([b] + s) == b * Pow256(|s|) + Value(s)
    decreases |s|
  {
    if s == [] {
      assert [b] + s == [b] && [b][..0] == [];
    } else {
      var init, last := s[..|s| - 1], s[|s| - 1];
      assert ([b] + s)[..|s|] == [b] + init;
      FirstWeighsMost(b, init);
      assert b * (256 * Pow256(|init|)) == (b * Pow256(|init|)) * 256;
    }
  }

  lemma Widths()
    ensures Pow256(1) == 0x100 && Pow256(2) == 0x1_0000 && Pow256(4) == 0x1_0000_0000
    ensures Pow256(8) == 0x1_0000_0000_0000_0000
  {
    assert Pow256(1) == 256;
    assert Pow256(2) == 256 * Pow256(1);
    assert Pow256(3) == 256 * Pow256(2);
    assert Pow256(4) == 256 * Pow256(3);
    assert Pow256(5) == 256 * Pow256(4);
    assert Pow256(6) == 256 * Pow256(5);
    assert Pow256(7) == 256 * Pow256(6);
    assert Pow256(8) == 256 * Pow256(7);
  }
}
