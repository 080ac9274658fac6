/** Big-endian numbers of a fixed width, and writing into the middle of a byte sequence. */
module Bytes {
  type Byte = b: int | 0 <= b < 256

  function Pow256(n: nat): (p: nat)
    ensures p > 0
  {
    if n == 0 then 1 else 256 * Pow256(n - 1)
  }

  /** The `n` low-order bytes of `v`, most significant first. */
  function Put(v: nat, n: nat): (s: seq<Byte>)
    ensures |s| == n
    decreases n
  {
    if n == 0 then [] else Put(v / 256, n - 1) + [v % 256]
  }

  /** The number a byte sequence stands for. */
  function Parse(s: seq<Byte>): (v: nat)
    ensures v < Pow256(|s|)
  {
    if s == [] then 0 else Parse(s[..|s| - 1]) * 256 + s[|s| - 1]
  }

  lemma {:induction false} ParsePut(v: nat, n: nat)
    requires v < Pow256(n)
    ensures Parse(Put(v, n)) == v
    decreases n
  {
    if n > 0 {
      var s := Put(v, n);
      assert s[..n - 1] == Put(v / 256, n - 1);
      ParsePut(v / 256, n - 1);
    }
  }

  /** The most significant byte comes first. */
  lemma {:induction false} PutDigit(v: nat, n: nat, i: nat)
    requires i < n
    ensures Put(v, n)[i] == v / Pow256(n - 1 - i) % 256
    decreases n
  {
    if i == n - 1 {
      assert Pow256(0) == 1;
    } else {
      PutDigit(v / 256, n - 1, i);
      var p := Pow256(n - 2 - i);
      assert Pow256(n - 1 - i) == 256 * p;
      DivideTwice(v, p);
    }
  }

  lemma DivideTwice(v: nat, p: nat)
    requires p > 0
    ensures v / 256 / p == v / (256 * p)
  {
    var q := v / 256 / p;
    var r := v - 256 * p * q;
    assert v / 256 == p * q + v / 256 % p;
    assert r == 256 * (v / 256 % p) + v % 256;
    assert 0 <= r < 256 * p;
    Quotient(v, 256 * p, q, r);
  }

  lemma Quotient(v: int, d: int, q: int, r: int)
    requires d > 0 && v == d * q + r && 0 <= r < d
    ensures v / d == q
  {
    assert d * q <= v < d * (q + 1);
    assert d * (v / d) <= v < d * (v / d + 1);
    FactorLess(d, q, v / d + 1);
    FactorLess(d, v / d, q + 1);
  }

  lemma FactorLess(d: int, a: int, b: int)
    requires d > 0 && d * a < d * b
    ensures a < b
  {
  }

  lemma {:induction false} PutParse(s: seq<Byte>)
    ensures Put(Parse(s), |s|) == s
  {
    if s != [] {
      var init := s[..|s| - 1];
      PutParse(init);
      var v := Parse(s);
      assert v / 256 == Parse(init) && v % 256 == s[|s| - 1];
      assert s == init + [s[|s| - 1]];
    }
  }

  lemma Widths()
    ensures Pow256(1) == 0x100 && Pow256(2) == 0x1_0000 && Pow256(4) == 0x1_0000_0000
    ensures Pow256(8) == 0x1_0000_0000_0000_0000
  {
    assert Pow256(0) == 1;
    assert Pow256(1) == 0x100;
    assert Pow256(2) == 0x1_0000;
    assert Pow256(3) == 0x100_0000;
    assert Pow256(4) == 0x1_0000_0000;
    assert Pow256(5) == 0x100_0000_0000;
    assert Pow256(6) == 0x1_0000_0000_0000;
    assert Pow256(7) == 0x100_0000_0000_0000;
  }

  /** `s` with the bytes from `off` on overwritten by `bs`. */
  function Splice(s: seq<Byte>, off: nat, bs: seq<Byte>): (r: seq<Byte>)
    requires off + |bs| <= |s|
    ensures |r| == |s|
  {
    s[..off] + bs + s[off + |bs|..]
  }

  /** A stretch beside the overwritten one reads as before. */
  lemma SpliceBeside(s: seq<Byte>, off: nat, bs: seq<Byte>, a: nat, b: nat)
    requires off + |bs| <= |s| && a <= b <= |s| && (b <= off || off + |bs| <= a)
    ensures Splice(s, off, bs)[a..b] == s[a..b]
  {
  }

  /** A stretch within the overwritten one reads as written. */
  lemma SpliceWithin(s: seq<Byte>, off: nat, bs: seq<Byte>, a: nat, b: nat)
    requires off + |bs| <= |s| && a <= b <= |bs|
    ensures Splice(s, off, bs)[off + a..off + b] == bs[a..b]
  {
  }

  lemma SliceOfSlice(s: seq<Byte>, lo: nat, hi: nat, a: nat, b: nat)
    requires lo <= hi <= |s| && a <= b <= hi - lo
    ensures s[lo..hi][a..b] == s[lo + a..lo + b]
  {
    var t := s[lo..hi];
    assert forall k :: a <= k < b ==> t[k] == s[lo + k];
  }

  lemma SpliceAll(s: seq<Byte>, bs: seq<Byte>)
    requires |bs| == |s|
    ensures Splice(s, 0, bs) == bs
  {
  }

  /** The in-place copy of `bs` into a buffer. */
  method Write(raw: array<Byte>, off: nat, bs: seq<Byte>)
    requires off + |bs| <= raw.Length
    modifies raw
    ensures raw[..] == Splice(old(raw[..]), off, bs)
  {
    var i := 0;
    ghost var s := raw[..];
    while i < |bs|
      invariant 0 <= i <= |bs|
      invariant forall p :: 0 <= p < raw.Length ==> raw[p] == if off <= p < off + i then bs[p - off] else s[p]
    {
      raw[off + i] := bs[i];
      i := i + 1;
    }
    assert forall p :: 0 <= p < raw.Length ==> raw[..][p] == Splice(s, off, bs)[p];
  }
}
