/** Service addresses and network blocks of the default renderer (cmd/render/plugin/default/main.go).

    Addresses are big-endian byte strings of any length. Blocks are what net.ParseCIDR returns: an
    aligned base address and a number of leading one bits in the mask (section 3.1 of RFC 4632).
 */
module Addresses {
  import opened Wrappers

  type byte = x: int | 0 <= x < 256

  // ---------------------------------------------------------------------------------------------
  // Powers of two and division.

  function Pow2(n: nat): (r: nat)
    ensures r > 0
  {
    if n == 0 then 1 else 2 * Pow2(n - 1)
  }

  lemma {:induction false} Pow2Add(m: nat, n: nat)
    ensures Pow2(m + n) == Pow2(m) * Pow2(n)
  {
    if m > 0 {
      Pow2Add(m - 1, n);
      MulAssociates(2, Pow2(m - 1), Pow2(n));
    }
  }

  lemma MulAssociates(a: int, b: int, c: int)
    ensures a * (b * c) == (a * b) * c
  {
  }

  lemma Pow2Eight()
    ensures Pow2(8) == 256
  {
    assert Pow2(4) == 16;
    Pow2Add(4, 4);
  }

  /** Division with the remainder in range is unique. */
  lemma DivUnique(x: int, d: int, q: int, r: int)
    requires d > 0 && x == q * d + r && 0 <= r < d
    ensures x / d == q && x % d == r
  {
    var q', r' := x / d, x % d;
    assert (q - q') * d == r' - r;
    if q > q' {
      MulAtLeast(q - q', d);
    } else if q < q' {
      MulAtLeast(q' - q, d);
    }
  }

  lemma MulAtLeast(a: int, d: int)
    requires a >= 1 && d > 0
    ensures a * d >= d
  {
  }

  lemma DivDiv(x: nat, m: nat, n: nat)
    requires m > 0 && n > 0
    ensures m * n > 0 && (x / m) / n == x / (m * n)
  {
    var y, r := x / m, x % m;
    var q, s := y / n, y % n;
    assert x == y * m + r && y == q * n + s;
    assert (q * n + s) * m == q * (m * n) + s * m by {
      assert (q * n) * m == q * (m * n);
    }
    assert 0 <= s * m <= (n - 1) * m by { MulMonotone(s, n - 1, m); }
    assert (n - 1) * m + m == m * n;
    MulAtLeast(n, m);
    DivUnique(x, m * n, q, s * m + r);
  }

  lemma MulMonotone(a: int, b: int, c: int)
    requires 0 <= a <= b && 0 <= c
    ensures 0 <= a * c <= b * c
  {
    assert (b - a) * c >= 0;
  }

  // ---------------------------------------------------------------------------------------------
  // Values and the increment.

  /** The number a big-endian byte string stands for. */
  function Value(s: seq<byte>): nat {
    if s == [] then 0 else Value(s[..|s| - 1]) * 256 + s[|s| - 1]
  }

  lemma {:induction false} ValueBound(s: seq<byte>)
    ensures Value(s) < Pow2(8 * |s|)
  {
    if s != [] {
      ValueBound(s[..|s| - 1]);
      Pow2Add(8 * (|s| - 1), 8);
      Pow2Eight();
    }
  }

  lemma {:induction false} ValueInjective(s: seq<byte>, t: seq<byte>)
    requires |s| == |t| && Value(s) == Value(t)
    ensures s == t
  {
    if s != [] {
      var n := |s| - 1;
      DivUnique(Value(s), 256, Value(s[..n]), s[n]);
      DivUnique(Value(t), 256, Value(t[..n]), t[n]);
      ValueInjective(s[..n], t[..n]);
      assert s == s[..n] + [s[n]] && t == t[..n] + [t[n]];
    }
  }

  /** Adding one with carry from the last byte; the carry out of the first byte is lost. */
  function Incremented(s: seq<byte>): (r: seq<byte>)
    ensures |r| == |s|
  {
    if s == [] then []
    else
      var n := |s| - 1;
      if s[n] < 255 then s[..n] + [s[n] + 1] else Incremented(s[..n]) + [0]
  }

  lemma {:induction false} IncrementAddsOne(s: seq<byte>)
    ensures Value(Incremented(s)) == (Value(s) + 1) % Pow2(8 * |s|)
  {
    ValueBound(s);
    if s != [] {
      var n, r := |s| - 1, Incremented(s);
      var top := Pow2(8 * n);
      Pow2Add(8 * n, 8);
      Pow2Eight();
      ValueBound(s[..n]);
      if s[n] < 255 {
        assert r[..n] == s[..n];
        DivUnique(Value(s) + 1, top * 256, 0, Value(s) + 1);
      } else {
        assert r[..n] == Incremented(s[..n]);
        IncrementAddsOne(s[..n]);
        if Value(s[..n]) + 1 == top {
          DivUnique(top, top, 1, 0);
          DivUnique(Value(s) + 1, top * 256, 1, 0);
        } else {
          DivUnique(Value(s[..n]) + 1, top, 0, Value(s[..n]) + 1);
          DivUnique(Value(s) + 1, top * 256, 0, Value(s) + 1);
        }
      }
    }
  }

  /** The increment of an unsigned byte. */
  function NextByte(b: byte): byte {
    if b == 255 then 0 else b + 1
  }

  /** The carry runs through the trailing 255s and stops at the byte before them. */
  lemma {:induction false} CarryStops(s: seq<byte>, j: int)
    requires -1 <= j < |s| && (forall i :: j < i < |s| ==> s[i] == 255) && (j >= 0 ==> s[j] < 255)
    ensures forall i :: 0 <= i < |s| ==> Incremented(s)[i] == if i < j then s[i] else if i == j then s[j] + 1 else 0
  {
    if j < |s| - 1 {
      CarryStops(s[..|s| - 1], j);
    }
  }

  /** incIPv4, in place and for addresses of any length. */
  method IncIPv4(ip: array<byte>)
    modifies ip
    ensures ip[..] == Incremented(old(ip[..]))
    ensures Value(ip[..]) == (Value(old(ip[..])) + 1) % Pow2(8 * ip.Length)
  {
    ghost var s := ip[..];
    var j := ip.Length - 1;
    while j >= 0
      invariant -1 <= j < ip.Length
      invariant forall i :: 0 <= i <= j ==> ip[i] == s[i]
      invariant forall i :: j < i < ip.Length ==> ip[i] == 0 && s[i] == 255
    {
      ip[j] := NextByte(ip[j]);
      if ip[j] > 0 {
        break;
      }
      j := j - 1;
    }
    ghost var t := ip[..];
    CarryResult(s, t, j);
  }

  lemma CarryResult(s: seq<byte>, t: seq<byte>, j: int)
    requires -1 <= j < |s| == |t| && (forall i :: j < i < |s| ==> s[i] == 255 && t[i] == 0)
    requires (forall i :: 0 <= i < j ==> t[i] == s[i]) && (j >= 0 ==> s[j] < 255 && t[j] == s[j] + 1)
    ensures t == Incremented(s) && Value(t) == (Value(s) + 1) % Pow2(8 * |s|)
  {
    CarryStops(s, j);
    IncrementAddsOne(s);
  }

  // ---------------------------------------------------------------------------------------------
  // Masks.

  /** Bitwise conjunction of two numbers of `n` bits. */
  function BitAnd(x: nat, y: nat, n: nat): nat {
    if n == 0 then 0 else 2 * BitAnd(x / 2, y / 2, n - 1) + (if x % 2 == 1 && y % 2 == 1 then 1 else 0)
  }

  lemma {:induction false} AllOnes(x: nat, n: nat)
    requires x < Pow2(n)
    ensures BitAnd(x, Pow2(n) - 1, n) == x
  {
    if n > 0 {
      AllOnes(x / 2, n - 1);
      var m := Pow2(n) - 1;
      assert m / 2 == Pow2(n - 1) - 1 && m % 2 == 1;
    }
  }

  /** A mask of `n - k` ones followed by `k` zeros clears the last `k` bits. */
  lemma {:induction false} MaskClears(x: nat, k: nat, n: nat)
    requires k <= n && x < Pow2(n)
    ensures Pow2(k) <= Pow2(n) && BitAnd(x, Pow2(n) - Pow2(k), n) == x - x % Pow2(k)
    decreases n
  {
    Pow2Monotone(k, n);
    if k == 0 {
      AllOnes(x, n);
      DivUnique(x, 1, x, 0);
    } else {
      var p, q := Pow2(k - 1), Pow2(n - 1);
      MaskClears(x / 2, k - 1, n - 1);
      EvenMask(x, q - p, n, p);
    }
  }

  lemma EvenMask(x: nat, y: nat, n: nat, p: nat)
    requires n > 0 && p > 0 && BitAnd(x / 2, y, n - 1) == x / 2 - (x / 2) % p
    ensures BitAnd(x, 2 * y, n) == x - x % (2 * p)
  {
    HalfRemainder(x, p);
    assert (2 * y) / 2 == y && (2 * y) % 2 == 0;
    assert x == 2 * (x / 2) + x % 2;
  }

  lemma {:induction false} Pow2Monotone(m: nat, n: nat)
    requires m <= n
    ensures Pow2(m) <= Pow2(n)
  {
    if m < n { Pow2Monotone(m, n - 1); }
  }

  lemma HalfRemainder(x: nat, p: nat)
    requires p > 0
    ensures x % (2 * p) == 2 * ((x / 2) % p) + x % 2
  {
    var h, b := x / 2, x % 2;
    var q, r := h / p, h % p;
    assert x == q * (2 * p) + (2 * r + b) by {
      assert h == q * p + r;
      assert q * (2 * p) == 2 * (q * p);
    }
    DivUnique(x, 2 * p, q, 2 * r + b);
  }

  /** The byte of a mask that has `ones` one bits from this byte on. */
  function MaskByte(ones: int): byte {
    if ones >= 8 then 255
    else if ones <= 0 then 0
    else PowerSmall(8 - ones); 256 - Pow2(8 - ones)
  }

  lemma PowerSmall(k: nat)
    requires k < 8
    ensures Pow2(k) <= 128
  {
    Pow2Monotone(k, 7);
    assert Pow2(4) == 16 && Pow2(3) == 8;
    Pow2Add(4, 3);
  }

  /** net.CIDRMask */
  function Mask(ones: nat, length: nat): seq<byte> {
    seq(length, i requires 0 <= i < length => MaskByte(ones - 8 * i))
  }

  function Masked(b: byte, m: byte): nat {
    BitAnd(b, m, 8)
  }

  /** Masking a byte keeps its first bits, as many as the mask has ones. */
  lemma MaskedByte(b: byte, ones: int)
    ensures ones <= 0 ==> Masked(b, MaskByte(ones)) == 0
    ensures ones >= 8 ==> Masked(b, MaskByte(ones)) == b
    ensures 0 <= ones <= 8 ==> Masked(b, MaskByte(ones)) == b - b % Pow2(8 - ones)
  {
    Pow2Eight();
    var k := if ones >= 8 then 0 else if ones <= 0 then 8 else 8 - ones;
    MaskClears(b, k, 8);
    if k == 8 { DivUnique(b, 256, 0, b); }
  }

  /** A block of addresses: its base address and the number of fixed leading bits. */
  datatype IPNet = IPNet(ip: seq<byte>, ones: nat)
  {
    function Bits(): nat {
      8 * |ip|
    }

    /** What net.ParseCIDR guarantees: the prefix fits and the base has no bit outside the mask. */
    predicate Valid() {
      && ones <= Bits()
      && forall i :: 0 <= i < |ip| ==> Masked(ip[i], Mask(ones, |ip|)[i]) == ip[i]
    }

    /** net.IPNet.Contains */
    predicate Contains(addr: seq<byte>) {
      && |addr| == |ip|
      && forall i :: 0 <= i < |addr| ==> Masked(ip[i], Mask(ones, |ip|)[i]) == Masked(addr[i], Mask(ones, |ip|)[i])
    }

    /** How many addresses the block has. */
    function Size(): nat
      requires ones <= Bits()
    {
      Pow2(Bits() - ones)
    }
  }

  /** Equality of two addresses under a mask of `ones` leading ones. */
  ghost predicate SamePrefix(s: seq<byte>, t: seq<byte>, ones: nat)
    requires |s| == |t|
  {
    forall i :: 0 <= i < |s| ==> Masked(s[i], MaskByte(ones - 8 * i)) == Masked(t[i], MaskByte(ones - 8 * i))
  }

  lemma LastByteShort(v: nat, b: byte, shift: nat)
    requires shift >= 8
    ensures (v * 256 + b) / Pow2(shift) == v / Pow2(shift - 8)
  {
    Pow2Add(8, shift - 8);
    Pow2Eight();
    DivUnique(v * 256 + b, 256, v, b);
    DivDiv(v * 256 + b, 256, Pow2(shift - 8));
  }

  /** Dividing by a part `p` of 256 leaves the other part `q` of each byte before the last. */
  lemma LastByteLong(v: nat, b: byte, p: nat, q: nat)
    requires p > 0 && q * p == 256
    ensures (v * 256 + b) / p == v * q + b / p
    ensures b / p < q
    ensures (v * 256 + b) % p == b % p
  {
    var h, r := b / p, b % p;
    assert b == h * p + r;
    MulAssociates(v, q, p);
    assert (v * q + h) * p == (v * q) * p + h * p;
    DivUnique(v * 256 + b, p, v * q + h, r);
    if h >= q {
      MulMonotone(q, h, p);
    }
  }

  lemma SplitByte(k: nat)
    requires k <= 8
    ensures Pow2(8 - k) * Pow2(k) == 256
  {
    Pow2Add(8 - k, k);
    Pow2Eight();
  }

  /** The values of two addresses agree but for the last bits. */
  ghost predicate SameLead(s: seq<byte>, t: seq<byte>, ones: nat)
    requires |s| == |t| && ones <= 8 * |s|
  {
    Value(s) / Pow2(8 * |s| - ones) == Value(t) / Pow2(8 * |s| - ones)
  }

  /** Two addresses agree under the mask exactly if their values agree without the last bits. */
  lemma {:induction false} PrefixByValue(s: seq<byte>, t: seq<byte>, ones: nat)
    requires |s| == |t| && ones <= 8 * |s|
    ensures SamePrefix(s, t, ones) <==> SameLead(s, t, ones)
  {
    if s == [] {
    } else if ones <= 8 * (|s| - 1) {
      ShortPrefix(s, t, ones);
      PrefixByValue(s[..|s| - 1], t[..|s| - 1], ones);
    } else {
      LongPrefix(s, t, ones);
      PrefixByValue(s[..|s| - 1], t[..|s| - 1], 8 * (|s| - 1));
    }
  }

  /** The mask does not reach the last byte. */
  lemma ShortPrefix(s: seq<byte>, t: seq<byte>, ones: nat)
    requires |s| == |t| && |s| > 0 && ones <= 8 * (|s| - 1)
    ensures var n := |s| - 1;
            && (SamePrefix(s, t, ones) <==> SamePrefix(s[..n], t[..n], ones))
            && (SameLead(s, t, ones) <==> SameLead(s[..n], t[..n], ones))
  {
    ShortPrefixBytes(s, t, ones);
    ShortPrefixValue(s, 8 * |s| - ones);
    ShortPrefixValue(t, 8 * |s| - ones);
  }

  lemma ShortPrefixBytes(s: seq<byte>, t: seq<byte>, ones: nat)
    requires |s| == |t| && |s| > 0 && ones <= 8 * (|s| - 1)
    ensures SamePrefix(s, t, ones) <==> SamePrefix(s[..|s| - 1], t[..|s| - 1], ones)
  {
    var n := |s| - 1;
    MaskedByte(s[n], ones - 8 * n);
    MaskedByte(t[n], ones - 8 * n);
    SamePrefixSnoc(s, t, ones);
  }

  lemma ShortPrefixValue(s: seq<byte>, shift: nat)
    requires |s| > 0 && shift >= 8
    ensures Value(s) / Pow2(shift) == Value(s[..|s| - 1]) / Pow2(shift - 8)
  {
    var v := Value(s[..|s| - 1]);
    LastByteShort(v, s[|s| - 1], shift);
    assert Value(s) == v * 256 + s[|s| - 1];
  }

  lemma SamePrefixSnoc(s: seq<byte>, t: seq<byte>, ones: nat)
    requires |s| == |t| && |s| > 0
    ensures var n := |s| - 1;
            SamePrefix(s, t, ones) <==>
              SamePrefix(s[..n], t[..n], ones) && Masked(s[n], MaskByte(ones - 8 * n)) == Masked(t[n], MaskByte(ones - 8 * n))
  {
    var n := |s| - 1;
    if SamePrefix(s, t, ones) {
      forall i | 0 <= i < n ensures Masked(s[..n][i], MaskByte(ones - 8 * i)) == Masked(t[..n][i], MaskByte(ones - 8 * i)) {
        assert Masked(s[i], MaskByte(ones - 8 * i)) == Masked(t[i], MaskByte(ones - 8 * i));
      }
    }
    if SamePrefix(s[..n], t[..n], ones) {
      forall i | 0 <= i < n ensures Masked(s[i], MaskByte(ones - 8 * i)) == Masked(t[i], MaskByte(ones - 8 * i)) {
        assert s[..n][i] == s[i] && t[..n][i] == t[i];
      }
    }
  }

  /** The mask covers all bytes before the last and part of the last. */
  lemma LongPrefix(s: seq<byte>, t: seq<byte>, ones: nat)
    requires |s| == |t| && |s| > 0 && 8 * (|s| - 1) < ones <= 8 * |s|
    ensures var n, p := |s| - 1, Pow2(8 * |s| - ones);
            && (SamePrefix(s, t, ones) <==> SamePrefix(s[..n], t[..n], 8 * n) && s[n] / p == t[n] / p)
            && (SameLead(s, t, ones) <==> SameLead(s[..n], t[..n], 8 * n) && s[n] / p == t[n] / p)
  {
    LongPrefixBytes(s, t, ones);
    var k := 8 * |s| - ones;
    SplitByte(k);
    LongPrefixValues(s, t, Pow2(k), Pow2(8 - k));
  }

  lemma LongPrefixBytes(s: seq<byte>, t: seq<byte>, ones: nat)
    requires |s| == |t| && |s| > 0 && 8 * (|s| - 1) < ones <= 8 * |s|
    ensures var n, p := |s| - 1, Pow2(8 * |s| - ones);
            SamePrefix(s, t, ones) <==> SamePrefix(s[..n], t[..n], 8 * n) && s[n] / p == t[n] / p
  {
    var n := |s| - 1;
    FullBytes(s[..n], t[..n], ones, 8 * n);
    SamePrefixSnoc(s, t, ones);
    MaskedByte(s[n], ones - 8 * n);
    MaskedByte(t[n], ones - 8 * n);
    SameHigh(s[n], t[n], Pow2(8 * |s| - ones));
  }

  lemma LongPrefixValues(s: seq<byte>, t: seq<byte>, p: nat, q: nat)
    requires |s| == |t| && |s| > 0 && p > 0 && q * p == 256
    ensures var n := |s| - 1;
            Value(s) / p == Value(t) / p <==> Value(s[..n]) == Value(t[..n]) && s[n] / p == t[n] / p
  {
    var n := |s| - 1;
    var v, w := Value(s[..n]), Value(t[..n]);
    assert Value(s) == v * 256 + s[n] && Value(t) == w * 256 + t[n];
    PairQuotients(v, s[n], w, t[n], p, q);
  }

  lemma PairQuotients(v: nat, a: byte, w: nat, b: byte, p: nat, q: nat)
    requires p > 0 && q * p == 256
    ensures (v * 256 + a) / p == (w * 256 + b) / p <==> v == w && a / p == b / p
  {
    LastByteLong(v, a, p, q);
    LastByteLong(w, b, p, q);
    QuotientPair(v, a / p, w, b / p, q);
  }

  lemma SameHigh(a: nat, b: nat, p: nat)
    requires p > 0
    ensures a - a % p == b - b % p <==> a / p == b / p
  {
    assert a - a % p == (a / p) * p && b - b % p == (b / p) * p;
    if (a / p) * p == (b / p) * p {
      DivUnique((a / p) * p, p, a / p, 0);
      DivUnique((b / p) * p, p, b / p, 0);
    }
  }

  lemma QuotientPair(v: nat, a: nat, w: nat, b: nat, q: nat)
    requires a < q && b < q
    ensures v * q + a == w * q + b <==> v == w && a == b
  {
    if v * q + a == w * q + b {
      DivUnique(v * q + a, q, v, a);
      DivUnique(w * q + b, q, w, b);
    }
  }

  /** Beyond the end of the bytes the length of the mask does not matter. */
  lemma FullBytes(s: seq<byte>, t: seq<byte>, ones: nat, ones': nat)
    requires |s| == |t| && ones >= 8 * |s| && ones' >= 8 * |s|
    ensures SamePrefix(s, t, ones) <==> SamePrefix(s, t, ones')
  {
    forall i | 0 <= i < |s| ensures MaskByte(ones - 8 * i) == MaskByte(ones' - 8 * i) {
    }
  }

  // ---------------------------------------------------------------------------------------------
  // Blocks.

  /** An address lies in a block exactly if it has the block's leading bits, that is, if its value is
      less than the block's size past the base. */
  lemma ContainsByValue(net: IPNet, addr: seq<byte>)
    requires net.Valid() && |addr| == |net.ip|
    ensures net.Contains(addr) <==> Value(addr) / net.Size() == Value(net.ip) / net.Size()
    ensures net.Contains(addr) <==> Value(net.ip) <= Value(addr) < Value(net.ip) + net.Size()
  {
    PrefixByValue(net.ip, addr, net.ones);
    ContainsPrefix(net, addr);
    BaseAligned(net);
    SameBlock(Value(net.ip), Value(addr), net.Size());
  }

  lemma ContainsPrefix(net: IPNet, addr: seq<byte>)
    requires |addr| == |net.ip|
    ensures net.Contains(addr) <==> SamePrefix(net.ip, addr, net.ones)
  {
  }

  lemma SameBlock(base: nat, v: nat, size: nat)
    requires size > 0 && base % size == 0
    ensures v / size == base / size <==> base <= v < base + size
  {
    assert base == (base / size) * size;
    assert v == (v / size) * size + v % size;
    if base <= v < base + size {
      DivUnique(v, size, base / size, v - base);
    }
  }

  /** The base of a block is a multiple of its size. */
  lemma BaseAligned(net: IPNet)
    requires net.Valid()
    ensures Value(net.ip) % net.Size() == 0
  {
    assert forall i :: 0 <= i < |net.ip| ==> Masked(net.ip[i], MaskByte(net.ones - 8 * i)) == net.ip[i];
    AlignedByValue(net.ip, net.ones);
  }

  lemma {:induction false} AlignedByValue(s: seq<byte>, ones: nat)
    requires ones <= 8 * |s|
    requires forall i :: 0 <= i < |s| ==> Masked(s[i], MaskByte(ones - 8 * i)) == s[i]
    ensures Value(s) % Pow2(8 * |s| - ones) == 0
  {
    if s != [] {
      var n := |s| - 1;
      MaskedByte(s[n], ones - 8 * n);
      if ones <= 8 * n {
        forall i | 0 <= i < n ensures Masked(s[..n][i], MaskByte(ones - 8 * i)) == s[..n][i] {
          assert s[..n][i] == s[i];
        }
        AlignedByValue(s[..n], ones);
        AlignedShort(Value(s[..n]), s[n], 8 * n - ones);
      } else {
        AlignedLast(Value(s[..n]), s[n], 8 * |s| - ones);
      }
    }
  }

  lemma AlignedShort(v: nat, b: byte, k: nat)
    requires v % Pow2(k) == 0 && b == 0
    ensures (v * 256 + b) % Pow2(k + 8) == 0
  {
    Pow2Add(8, k);
    Pow2Eight();
    MultipleScales(v, Pow2(k));
  }

  lemma MultipleScales(v: nat, d: nat)
    requires d > 0 && v % d == 0
    ensures (v * 256) % (256 * d) == 0
  {
    var q := v / d;
    assert v == q * d;
    MulAssociates(q, d, 256);
    DivUnique(v * 256, 256 * d, q, 0);
  }

  lemma AlignedLast(v: nat, b: byte, k: nat)
    requires k < 8 && b - b % Pow2(k) == b
    ensures (v * 256 + b) % Pow2(k) == 0
  {
    SplitByte(k);
    LastByteLong(v, b, Pow2(k), Pow2(8 - k));
  }

  ghost predicate Disjoint(a: IPNet, b: IPNet) {
    forall addr :: !(a.Contains(addr) && b.Contains(addr))
  }

  predicate Overlapping(a: IPNet, b: IPNet) {
    a.Contains(b.ip) || b.Contains(a.ip)
  }

  /** A common address of two blocks puts the base of the smaller one into the larger one. */
  lemma CommonAddress(a: IPNet, b: IPNet, addr: seq<byte>)
    requires a.Valid() && b.Valid() && a.Contains(addr) && b.Contains(addr) && a.ones <= b.ones
    ensures a.Contains(b.ip)
  {
    ContainsByValue(a, addr);
    ContainsByValue(b, addr);
    ContainsByValue(a, b.ip);
    var factor := Pow2(b.ones - a.ones);
    Pow2Add(b.Bits() - b.ones, b.ones - a.ones);
    DivDiv(Value(addr), b.Size(), factor);
    DivDiv(Value(b.ip), b.Size(), factor);
  }

  /** The overlap test is sound and complete: testing the two base addresses decides whether the blocks
      have any address in common. */
  lemma OverlapTest(a: IPNet, b: IPNet)
    requires a.Valid() && b.Valid()
    ensures Overlapping(a, b) <==> !Disjoint(a, b)
  {
    if a.Contains(b.ip) {
      assert b.Contains(b.ip);
    }
    if b.Contains(a.ip) {
      assert a.Contains(a.ip);
    }
    if !Disjoint(a, b) {
      var addr :| a.Contains(addr) && b.Contains(addr);
      if a.ones <= b.ones {
        CommonAddress(a, b, addr);
      } else {
        CommonAddress(b, a, addr);
      }
    }
  }

  // ---------------------------------------------------------------------------------------------
  // Service addresses.

  const API_OFFSET := 1
  const DNS_OFFSET := 10

  datatype NetError =
    | CountMismatch
    | BadNetworkCount
    | Overlap(pod: IPNet, service: IPNet)
    | NotInNetwork(service: IPNet)

  /** offsetServiceIP on the block whose base address is in `base`: it succeeds exactly if the block is
      larger than the offset, and then returns the base plus the offset; an offset beyond all addresses of
      the family wraps around. Only a copy is incremented, so the block itself stays as it is. */
  method OffsetServiceIP(base: array<byte>, ones: nat, offset: nat) returns (r: Result<seq<byte>, NetError>)
    requires IPNet(base[..], ones).Valid()
    ensures base[..] == old(base[..])
    ensures var net := IPNet(base[..], ones);
      var wrapped := offset % Pow2(net.Bits());
      && (r.Ok? <==> wrapped < net.Size())
      && (r.Ok? ==> net.Contains(r.value) && Value(r.value) == Value(net.ip) + wrapped)
      && (r.Err? ==> r.error == NotInNetwork(net))
  {
    var net := IPNet(base[..], ones);
    var ip := new byte[base.Length](i requires 0 <= i < |net.ip| => net.ip[i]);
    assert ip[..] == net.ip;
    ghost var start, all := Value(net.ip), Pow2(8 * ip.Length);
    ValueBound(net.ip);
    DivUnique(start, all, 0, start);
    for i := 0 to offset
      invariant Value(ip[..]) == (start + i) % all
    {
      NextRemainder(start + i, all);
      IncIPv4(ip);
    }
    var addr := ip[..];
    OffsetInBlock(net, offset, addr);
    if net.Contains(addr) {
      r := Ok(addr);
    } else {
      r := Err(NotInNetwork(net));
    }
  }

  lemma NextRemainder(x: nat, m: nat)
    requires m > 0
    ensures (x % m + 1) % m == (x + 1) % m
  {
    var q, r := x / m, x % m;
    assert x == q * m + r;
    if r + 1 < m {
      DivUnique(x + 1, m, q, r + 1);
      DivUnique(r + 1, m, 0, r + 1);
    } else {
      assert x + 1 == (q + 1) * m by { assert (q + 1) * m == q * m + m; }
      DivUnique(x + 1, m, q + 1, 0);
      DivUnique(r + 1, m, 1, 0);
    }
  }

  lemma OffsetInBlock(net: IPNet, offset: nat, addr: seq<byte>)
    requires net.Valid() && |addr| == |net.ip|
    requires Value(addr) == (Value(net.ip) + offset) % Pow2(net.Bits())
    ensures var wrapped := offset % Pow2(net.Bits());
      && (net.Contains(addr) <==> wrapped < net.Size())
      && (net.Contains(addr) ==> Value(addr) == Value(net.ip) + wrapped)
  {
    var all, base := Pow2(net.Bits()), Value(net.ip);
    ContainsByValue(net, addr);
    ValueBound(net.ip);
    BlockEnds(net);
    WrappedSum(base, offset, all);
    SumInBlock(base, net.Size(), all, offset % all, Value(addr));
  }

  lemma SumInBlock(base: nat, size: nat, all: nat, wrapped: nat, v: nat)
    requires base + size <= all && wrapped < all && v == if base + wrapped < all then base + wrapped else base + wrapped - all
    ensures base <= v < base + size <==> wrapped < size
    ensures base <= v < base + size ==> v == base + wrapped
  {
  }

  lemma WrappedSum(base: nat, offset: nat, all: nat)
    requires base < all
    ensures var sum := base + offset % all;
      (base + offset) % all == if sum < all then sum else sum - all
  {
    var q, sum := offset / all, base + offset % all;
    assert offset == q * all + offset % all;
    if sum < all {
      DivUnique(base + offset, all, q, sum);
    } else {
      assert (q + 1) * all == q * all + all;
      DivUnique(base + offset, all, q + 1, sum - all);
    }
  }

  /** A block ends within the address space. */
  lemma BlockEnds(net: IPNet)
    requires net.Valid()
    ensures Value(net.ip) + net.Size() <= Pow2(net.Bits())
  {
    BaseAligned(net);
    ValueBound(net.ip);
    Pow2Add(net.ones, net.Bits() - net.ones);
    NextMultiple(Value(net.ip), net.Size(), Pow2(net.ones));
  }

  /** In an address family of at least one byte no offset below 256 wraps around. */
  lemma OffsetFits(net: IPNet, offset: nat)
    requires |net.ip| >= 1 && offset < 256
    ensures offset % Pow2(net.Bits()) == offset
  {
    Pow2Eight();
    Pow2Monotone(8, net.Bits());
    DivUnique(offset, Pow2(net.Bits()), 0, offset);
  }

  lemma NextMultiple(v: nat, size: nat, count: nat)
    requires size > 0 && v % size == 0 && v < count * size
    ensures v + size <= count * size
  {
    var q := v / size;
    assert v == q * size;
    assert (q + 1) * size == q * size + size;
    if q + 1 <= count {
      MulMonotone(q + 1, count, size);
    } else {
      MulMonotone(count, q, size);
    }
  }

  // ---------------------------------------------------------------------------------------------
  // The checks on the command line's networks.

  datatype ServiceIPs = ServiceIPs(api: seq<seq<byte>>, dns: seq<seq<byte>>)

  /** A block as net.ParseCIDR returns it, of either address family. */
  predicate Parsed(net: IPNet) {
    net.Valid() && (|net.ip| == 4 || |net.ip| == 16) && !Mapped(net.ip)
  }

  /** An IPv4 address written as one of sixteen bytes, which net.IPNet.Contains reads as four bytes. */
  predicate Mapped(ip: seq<byte>) {
    |ip| == 16 && (forall i :: 0 <= i < 10 ==> ip[i] == 0) && ip[10] == 255 && ip[11] == 255
  }

  predicate GoodCounts(pods: seq<IPNet>, services: seq<IPNet>) {
    |pods| == |services| && 1 <= |pods| <= 2
  }

  /** No address is both a pod address and a service address. */
  ghost predicate AllDisjoint(pods: seq<IPNet>, services: seq<IPNet>) {
    forall p, s :: p in pods && s in services ==> Disjoint(p, s)
  }

  /** The service block has room for the two fixed addresses. */
  predicate Roomy(net: IPNet)
    requires Parsed(net)
  {
    10 < net.Size()
  }

  /** The API and the DNS address of one service block: distinct, inside the block, at the fixed
      offsets, and not an address of any pod. */
  ghost predicate GoodAddresses(pods: seq<IPNet>, net: IPNet, api: seq<byte>, dns: seq<byte>) {
    && AtOffsets(net, api, dns) && api != dns
    && forall p :: p in pods ==> !p.Contains(api) && !p.Contains(dns)
  }

  lemma AddressesGood(pods: seq<IPNet>, services: seq<IPNet>, net: IPNet, api: seq<byte>, dns: seq<byte>)
    requires AllDisjoint(pods, services) && net in services && AtOffsets(net, api, dns)
    ensures GoodAddresses(pods, net, api, dns)
  {
    forall p | p in pods ensures !p.Contains(api) && !p.Contains(dns) {
      assert Disjoint(p, net);
    }
  }

  /** A block with room for the fixed addresses starts at a multiple of sixteen. */
  lemma RoomyAligned(net: IPNet)
    requires Parsed(net) && Roomy(net)
    ensures Value(net.ip) % 16 == 0
  {
    BaseAligned(net);
    var k := net.Bits() - net.ones;
    assert Pow2(3) == 8 && Pow2(4) == 16;
    if k < 4 { Pow2Monotone(k, 3); }
    Pow2Add(k - 4, 4);
    MultipleOf(Value(net.ip), Pow2(k - 4), 16);
  }

  lemma MultipleOf(v: nat, a: nat, b: nat)
    requires a > 0 && b > 0 && v % (a * b) == 0
    ensures v % b == 0
  {
    var q := v / (a * b);
    assert v == q * (a * b);
    MulAssociates(q, a, b);
    DivUnique(v, b, q * a, 0);
  }

  /** The addresses of two service blocks, of one or two families, are all distinct exactly if the blocks
      have different base addresses; nothing in the checks demands that. */
  lemma TwoServiceBlocks(a: IPNet, b: IPNet, apiA: seq<byte>, dnsA: seq<byte>, apiB: seq<byte>, dnsB: seq<byte>)
    requires Parsed(a) && Parsed(b) && Roomy(a) && Roomy(b)
    requires AtOffsets(a, apiA, dnsA) && AtOffsets(b, apiB, dnsB)
    ensures apiA == apiB <==> a.ip == b.ip
    ensures dnsA == dnsB <==> a.ip == b.ip
    ensures apiA != dnsB && dnsA != apiB
  {
    RoomyAligned(a);
    RoomyAligned(b);
    SameOffset(a.ip, b.ip, apiA, apiB, API_OFFSET);
    SameOffset(a.ip, b.ip, dnsA, dnsB, DNS_OFFSET);
    OffsetsApart(Value(a.ip), Value(b.ip));
  }

  lemma SameOffset(a: seq<byte>, b: seq<byte>, addrA: seq<byte>, addrB: seq<byte>, offset: nat)
    requires |addrA| == |a| && |addrB| == |b|
    requires Value(addrA) == Value(a) + offset && Value(addrB) == Value(b) + offset
    ensures addrA == addrB <==> a == b
  {
    if addrA == addrB { ValueInjective(a, b); }
    if a == b { ValueInjective(addrA, addrB); }
  }

  lemma OffsetsApart(v: nat, w: nat)
    requires v % 16 == 0 && w % 16 == 0
    ensures v + API_OFFSET != w + DNS_OFFSET && v + DNS_OFFSET != w + API_OFFSET
  {
  }

  /** Giving the same pod and service blocks twice passes every check, although the error message asks for
      different address families. */
  lemma SameFamilyAccepted(pod: IPNet, service: IPNet)
    requires Parsed(pod) && Parsed(service) && Disjoint(pod, service) && Roomy(service)
    ensures var pods, services := [pod, pod], [service, service];
      && GoodCounts(pods, services) && AllDisjoint(pods, services)
      && forall s :: s in services ==> Parsed(s) && Roomy(s)
  {
  }

  /** The network checks of flagsToAssetConfig accept exactly the networks that are as many, one or
      two, pairwise disjoint and roomy; each error names a network at fault. */
  method ServiceAddresses(pods: seq<IPNet>, services: seq<IPNet>) returns (r: Result<ServiceIPs, NetError>)
    requires (forall p :: p in pods ==> Parsed(p)) && (forall s :: s in services ==> Parsed(s))
    ensures r.Ok? <==>
      && |pods| == |services| && 1 <= |pods| <= 2 && AllDisjoint(pods, services)
      && forall s :: s in services ==> Roomy(s)
    ensures r.Ok? ==>
      && |r.value.api| == |r.value.dns| == |services|
      && forall i :: 0 <= i < |services| ==> GoodAddresses(pods, services[i], r.value.api[i], r.value.dns[i])
    ensures r.Err? ==> match r.error
      case CountMismatch => |pods| != |services|
      case BadNetworkCount => |pods| == |services| && !GoodCounts(pods, services)
      case Overlap(p, s) => GoodCounts(pods, services) && p in pods && s in services && !Disjoint(p, s)
      case NotInNetwork(s) => GoodCounts(pods, services) && AllDisjoint(pods, services) && s in services && !Roomy(s)
  {
    if |pods| != |services| {
      return Err(CountMismatch);
    }
    if |pods| > 2 || |pods| < 1 {
      return Err(BadNetworkCount);
    }
    var overlap := FindOverlap(pods, services);
    if overlap.Some? {
      return Err(overlap.value);
    }
    r := FixedAddresses(services);
    if r.Ok? {
      forall i | 0 <= i < |services| ensures GoodAddresses(pods, services[i], r.value.api[i], r.value.dns[i]) {
        AddressesGood(pods, services, services[i], r.value.api[i], r.value.dns[i]);
      }
    }
  }

  /** The nested loops over pod and service networks. */
  method FindOverlap(pods: seq<IPNet>, services: seq<IPNet>) returns (e: Option<NetError>)
    requires (forall p :: p in pods ==> Parsed(p)) && (forall s :: s in services ==> Parsed(s))
    ensures e.None? <==> AllDisjoint(pods, services)
    ensures e.Some? ==>
      e.value.Overlap? && e.value.pod in pods && e.value.service in services && !Disjoint(e.value.pod, e.value.service)
  {
    for i := 0 to |pods|
      invariant AllDisjoint(pods[..i], services)
    {
      for j := 0 to |services|
        invariant forall k :: 0 <= k < j ==> Disjoint(pods[i], services[k])
      {
        assert pods[i] in pods && services[j] in services;
        OverlapTest(pods[i], services[j]);
        if Overlapping(pods[i], services[j]) {
          return Some(Overlap(pods[i], services[j]));
        }
      }
    }
    assert pods[..|pods|] == pods;
    e := None;
  }

  /** The two fixed addresses of one service network. */
  method FixedPair(net: IPNet) returns (api: Result<seq<byte>, NetError>, dns: Result<seq<byte>, NetError>)
    requires Parsed(net)
    ensures api.Ok? && dns.Ok? <==> Roomy(net)
    ensures api.Ok? ==> net.Contains(api.value) && Value(api.value) == Value(net.ip) + API_OFFSET
    ensures dns.Ok? ==> net.Contains(dns.value) && Value(dns.value) == Value(net.ip) + DNS_OFFSET
    ensures (api.Err? ==> api.error == NotInNetwork(net)) && (dns.Err? ==> dns.error == NotInNetwork(net))
  {
    OffsetFits(net, API_OFFSET);
    OffsetFits(net, DNS_OFFSET);
    var base := new byte[|net.ip|](i requires 0 <= i < |net.ip| => net.ip[i]);
    assert base[..] == net.ip;
    api := OffsetServiceIP(base, net.ones, API_OFFSET);
    dns := OffsetServiceIP(base, net.ones, DNS_OFFSET);
  }

  /** The two addresses are at their offsets in the block. */
  ghost predicate AtOffsets(net: IPNet, api: seq<byte>, dns: seq<byte>) {
    && net.Contains(api) && Value(api) == Value(net.ip) + 1
    && net.Contains(dns) && Value(dns) == Value(net.ip) + 10
  }

  /** The loop over service networks. */
  method FixedAddresses(services: seq<IPNet>) returns (r: Result<ServiceIPs, NetError>)
    requires forall s :: s in services ==> Parsed(s)
    ensures r.Ok? <==> forall s :: s in services ==> Roomy(s)
    ensures r.Ok? ==>
      && |r.value.api| == |r.value.dns| == |services|
      && forall i :: 0 <= i < |services| ==> AtOffsets(services[i], r.value.api[i], r.value.dns[i])
    ensures r.Err? ==> r.error.NotInNetwork? && r.error.service in services && !Roomy(r.error.service)
  {
    var ips := ServiceIPs([], []);
    for i := 0 to |services|
      invariant |ips.api| == |ips.dns| == i
      invariant forall k :: 0 <= k < i ==> Roomy(services[k])
      invariant forall k :: 0 <= k < i ==> AtOffsets(services[k], ips.api[k], ips.dns[k])
    {
      var net := services[i];
      assert net in services;
      var api, dns := FixedPair(net);
      if api.Err? {
        return Err(api.error);
      }
      if dns.Err? {
        return Err(dns.error);
      }
      ips := ServiceIPs(ips.api + [api.value], ips.dns + [dns.value]);
    }
    r := Ok(ips);
  }
}
