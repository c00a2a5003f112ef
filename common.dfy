/** Shared vocabulary: optional values, bytes, C integer widths and printf-style decimals. */
module Common {

  /** A C pointer that may be NULL, or an item that may be absent. */
  datatype Option<T> = None | Some(value: T)

  /** One octet of a C `char`/`uint8_t` buffer. */
  type Byte = bv8

  const TWO_32: int := 0x1_0000_0000
  const TWO_31: int := 0x8000_0000

  /** `uint64_t`. */
  type Uint64 = x: int | 0 <= x < 0x1_0000_0000_0000_0000

  /** `(int32_t)v` for an unsigned value: keep the low 32 bits, read them as two's complement. */
  function ToInt32(v: nat): (r: int)
    ensures -TWO_31 <= r < TWO_31
    ensures (r - v) % TWO_32 == 0
  {
    var low := v % TWO_32;
    if low >= TWO_31 then low - TWO_32 else low
  }

  /**
   * `volc_error_code_e`, the codes the public API returns. The header that fixes their numbers is
   * not part of this model; the values below are stand-ins that keep success at 0 and the three
   * failure codes distinct, non-zero and negative.
   */
  const ERR_NO_ERROR: int := 0
  const ERR_FAILED: int := -1
  const ERR_LICENSE_EXHAUSTED: int := -2
  const ERR_LICENSE_EXPIRED: int := -3

  /** Dafny's `/` on a non-negative dividend brackets it between two multiples of the divisor. */
  lemma DivBounds(m: nat, d: int)
    requires d > 0
    ensures (m / d) * d <= m < (m / d) * d + d
    ensures (-(m / d)) * d == -((m / d) * d)
    ensures m < d ==> m / d == 0
  {
    var q, r := m / d, m % d;
    assert m == q * d + r && 0 <= r < d;
    assert (-q) * d == -(q * d);
    assert q >= 1 ==> q * d >= d;
    assert q <= -1 ==> q * d <= -d;
  }

  /** C's `/` on `int` with a positive divisor: the quotient rounds toward zero, unlike Dafny's `/`. */
  function CDiv(n: int, d: int): (q: int)
    requires d > 0
    ensures n >= 0 ==> q * d <= n < q * d + d
    ensures n < 0 ==> q * d - d < n <= q * d
    ensures -d < n < d ==> q == 0
  {
    var m: nat := if n >= 0 then n else -n;
    DivBounds(m, d);
    if n >= 0 then m / d else -(m / d)
  }

  /** The decimal digit for 0..9. */
  function Digit(d: int): (c: char)
    requires 0 <= d < 10
    ensures '0' <= c <= '9'
  {
    "0123456789"[d]
  }

  /** `%u`: the decimal digits of `n`, without leading zeros. */
  function DecimalNat(n: nat): (s: string)
    decreases n
  {
    if n < 10 then [Digit(n)] else DecimalNat(n / 10) + [Digit(n % 10)]
  }

  /** `%d`: a leading '-' for negative values. */
  function DecimalInt(i: int): (s: string)
  {
    if i < 0 then "-" + DecimalNat(-i) else DecimalNat(i)
  }

  lemma {:induction false} DecimalNatShape(n: nat)
    ensures |DecimalNat(n)| >= 1
    ensures forall k :: 0 <= k < |DecimalNat(n)| ==> '0' <= DecimalNat(n)[k] <= '9'
    ensures n < 10 <==> |DecimalNat(n)| == 1
    decreases n
  {
    if n >= 10 {
      DecimalNatShape(n / 10);
    }
  }

  /** Different numbers print differently. */
  lemma {:induction false} DecimalNatInjective(a: nat, b: nat)
    requires DecimalNat(a) == DecimalNat(b)
    ensures a == b
    decreases a
  {
    DecimalNatShape(a);
    DecimalNatShape(b);
    if a >= 10 && b >= 10 {
      var sa, sb := DecimalNat(a), DecimalNat(b);
      assert sa[..|sa| - 1] == DecimalNat(a / 10);
      assert sb[..|sb| - 1] == DecimalNat(b / 10);
      DecimalNatInjective(a / 10, b / 10);
      assert Digit(a % 10) == sa[|sa| - 1] == sb[|sb| - 1] == Digit(b % 10);
      assert a % 10 == b % 10;
    }
  }

  lemma DecimalIntSign(i: int)
    ensures |DecimalInt(i)| >= 1
    ensures DecimalInt(i)[0] == '-' <==> i < 0
  {
    DecimalNatShape(if i < 0 then -i else i);
  }

  lemma DecimalIntInjective(a: int, b: int)
    requires DecimalInt(a) == DecimalInt(b)
    ensures a == b
  {
    DecimalIntSign(a);
    DecimalIntSign(b);
    if a < 0 {
      var s := DecimalInt(a);
      assert s == "-" + DecimalNat(-a) && s == "-" + DecimalNat(-b);
      assert DecimalNat(-a) == s[1..] == DecimalNat(-b);
      DecimalNatInjective(-a, -b);
    } else {
      assert b >= 0;
      DecimalNatInjective(a, b);
    }
  }

  /** `snprintf(buf, cap, ...)` keeps at most `cap - 1` characters and a NUL. */
  function Truncate(s: string, cap: nat): (r: string)
    requires cap >= 1
    ensures |r| <= cap - 1 && r <= s
    ensures |s| <= cap - 1 ==> r == s
  {
    if |s| <= cap - 1 then s else s[..cap - 1]
  }

  /** Cutting a longer text keeps the cut of its beginning as a prefix. */
  lemma TruncateExtends(s: string, more: string, cap: nat)
    requires cap >= 1
    ensures Truncate(s, cap) <= Truncate(s + more, cap)
  {
    if |s| > cap - 1 {
      assert (s + more)[..cap - 1] == s[..cap - 1];
    }
  }

  /** `memcpy(dst + at, src, |src|)`, one byte at a time. */
  method CopyInto(dst: array<Byte>, at: int, src: seq<Byte>)
    requires 0 <= at && at + |src| <= dst.Length
    modifies dst
    ensures forall k :: 0 <= k < dst.Length ==>
      dst[k] == if at <= k < at + |src| then src[k - at] else old(dst[k])
  {
    var i := 0;
    while i < |src|
      invariant 0 <= i <= |src|
      invariant forall k :: 0 <= k < dst.Length ==>
        dst[k] == if at <= k < at + i then src[k - at] else old(dst[k])
    {
      dst[at + i] := src[i];
      i := i + 1;
    }
  }
}
