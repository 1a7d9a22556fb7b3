/** Shared vocabulary of the model: identifiers, dates, exceptions, exact money
    arithmetic with .NET's two-decimal rounding, and the text helpers the
    services use (whitespace tests, zero-padded number formatting). */
module Common {

  /** A `Guid`; `EmptyGuid` stands for `Guid.Empty`. Fresh identities are
      passed in by the caller instead of being drawn by `Guid.NewGuid`. */
  type Guid = nat
  const EmptyGuid: Guid := 0

  datatype Option<T> = None | Some(value: T)

  /** LINQ's `FirstOrDefault(p)`: the first element satisfying `p`, if any. */
  function FirstWhere<T>(s: seq<T>, p: T -> bool): (r: Option<T>)
    ensures r.Some? <==> exists k :: 0 <= k < |s| && p(s[k])
    ensures r.Some? ==> p(r.value) && r.value in s
    ensures r.Some? ==> exists k :: 0 <= k < |s| && s[k] == r.value && forall j :: 0 <= j < k ==> !p(s[j])
  {
    if s == [] then None
    else if p(s[0]) then Some(s[0])
    else
      var t := FirstWhere(s[1..], p);
      assert t.Some? ==> exists k :: 0 <= k < |s| - 1 && s[1..][k] == t.value
                          && forall j :: 0 <= j < k ==> !p(s[1..][j]);
      t
  }

  /** The two exception types the entities throw, with their message. */
  datatype ExceptionKind = ArgumentException | InvalidOperationException
  datatype Exception = Exception(kind: ExceptionKind, message: string)

  /** The outcome of a call that may throw. */
  datatype Try<T> = Ok(value: T) | Throws(error: Exception)

  /* ---------------- Dates ---------------- */

  /** A `DateOnly` as a month count (year * 12 + month - 1) and a day of the
      month. `AddMonths` moves the month count only; day-of-month clamping at
      the end of short months is not modelled. */
  datatype Date = Date(monthIndex: int, day: int)

  function AddMonths(d: Date, k: int): Date
  {
    Date(d.monthIndex + k, d.day)
  }

  /** `a < b` on dates. */
  predicate Before(a: Date, b: Date)
  {
    a.monthIndex < b.monthIndex || (a.monthIndex == b.monthIndex && a.day < b.day)
  }

  /* ---------------- Money ---------------- */

  /** `decimal.Round(x, 2)`: round to the nearest cent, ties to the even cent
      (MidpointRounding.ToEven, the .NET default). */
  function Round2(x: real): (r: real)
    ensures -0.005 <= r - x <= 0.005
    ensures IsWholeCents(r)
  {
    var n := RoundedCents(x);
    CentsAreWhole(n);
    n as real / 100.0
  }

  /** The whole number of cents nearest to `x`, ties to the even one. */
  function RoundedCents(x: real): (n: int)
    ensures -0.5 <= n as real - x * 100.0 <= 0.5
  {
    var y := x * 100.0;
    var f := y.Floor;
    var d := y - f as real;
    if d < 0.5 then f else if d > 0.5 then f + 1 else if f % 2 == 0 then f else f + 1
  }

  lemma CentsAreWhole(n: int)
    ensures IsWholeCents(n as real / 100.0)
  {
    assert n as real / 100.0 * 100.0 == n as real;
  }

  predicate IsWholeCents(r: real)
  {
    (r * 100.0).Floor as real == r * 100.0
  }

  /** Rounding leaves whole-cent amounts alone, so it is idempotent. */
  lemma RoundWholeCents(r: real)
    requires IsWholeCents(r)
    ensures Round2(r) == r
  {
    var y := r * 100.0;
    assert y - y.Floor as real == 0.0;
  }

  /** An amount rounds to a non-negative one exactly when it is at least
      -0.005, and to a positive one exactly when it exceeds 0.005. These are
      the thresholds at which the validating constructors that receive
      rounded amounts start to throw. */
  lemma RoundSign(x: real)
    ensures Round2(x) >= 0.0 <==> x >= -0.005
    ensures Round2(x) > 0.0 <==> x > 0.005
  {
    var y := x * 100.0;
    var f := y.Floor;
    var d := y - f as real;
    assert 0.0 <= d < 1.0;
    if x >= -0.005 {
      assert y >= -0.5;
      if f <= -2 {
        assert false;
      } else if f == -1 {
        assert d >= 0.5;
        assert Round2(x) == 0.0;
      }
    } else {
      assert y < -0.5;
      assert f <= -1;
      if f == -1 {
        assert d < 0.5;
      }
    }
    if x > 0.005 {
      assert y > 0.5;
      if f == 0 {
        assert d > 0.5;
      }
    } else {
      assert y <= 0.5;
      if f == 0 {
        assert d <= 0.5;
      }
    }
  }

  function Sum(s: seq<real>): real
  {
    if s == [] then 0.0 else Sum(s[..|s| - 1]) + s[|s| - 1]
  }

  lemma {:induction false} SumAppend(s: seq<real>, t: seq<real>)
    ensures Sum(s + t) == Sum(s) + Sum(t)
    decreases |t|
  {
    if t == [] {
      assert s + t == s;
    } else {
      assert (s + t)[..|s + t| - 1] == s + t[..|t| - 1];
      SumAppend(s, t[..|t| - 1]);
    }
  }

  /** LINQ's `Average`, with the services' convention that an empty source
      averages to 0. */
  function Average(s: seq<real>): real
  {
    if |s| == 0 then 0.0 else Sum(s) / |s| as real
  }

  /** A sum of `|s|` terms between `lo` and `hi` lies between `|s| * lo` and
      `|s| * hi`. */
  lemma {:induction false} SumBounds(s: seq<real>, lo: real, hi: real)
    requires forall i :: 0 <= i < |s| ==> lo <= s[i] <= hi
    ensures lo * |s| as real <= Sum(s) <= hi * |s| as real
    decreases |s|
  {
    if s != [] {
      SumBounds(s[..|s| - 1], lo, hi);
    }
  }

  /* ---------------- Text ---------------- */

  /** `char.IsWhiteSpace`: the Unicode White_Space characters. */
  predicate IsWhiteSpace(c: char)
  {
    ('\U{0009}' <= c <= '\U{000D}') || c == '\U{0020}' || c == '\U{0085}' || c == '\U{00A0}'
    || c == '\U{1680}' || ('\U{2000}' <= c <= '\U{200A}') || c == '\U{2028}' || c == '\U{2029}'
    || c == '\U{202F}' || c == '\U{205F}' || c == '\U{3000}'
  }

  /** `string.IsNullOrWhiteSpace` on a non-null string. */
  predicate IsBlank(s: string)
  {
    forall i :: 0 <= i < |s| ==> IsWhiteSpace(s[i])
  }

  /** `s.Contains(sub)` with ordinal comparison. */
  predicate ContainsSubstring(s: string, sub: string)
  {
    exists i :: 0 <= i <= |s| - |sub| && OccursAt(s, sub, i)
  }

  predicate OccursAt(s: string, sub: string, i: int)
    requires 0 <= i <= |s| - |sub|
  {
    s[i..i + |sub|] == sub
  }

  predicate IsDigit(c: char)
  {
    '0' <= c <= '9'
  }

  predicate AllDigits(s: string)
  {
    forall i :: 0 <= i < |s| ==> IsDigit(s[i])
  }

  function DigitChar(d: nat): (c: char)
    requires d < 10
  {
    ('0' as int + d) as char
  }

  /** `c - '0'` for a digit character. */
  function DigitValue(c: char): int
  {
    c as int - '0' as int
  }

  /** `n.ToString()` for a non-negative integer: its decimal digits, no
      leading zeros. */
  function NatToString(n: nat): (s: string)
    ensures |s| >= 1 && AllDigits(s)
    decreases n
  {
    if n < 10 then [DigitChar(n)] else NatToString(n / 10) + [DigitChar(n % 10)]
  }

  function Zeros(k: nat): (s: string)
    ensures |s| == k && forall i :: 0 <= i < k ==> s[i] == '0'
  {
    if k == 0 then "" else "0" + Zeros(k - 1)
  }

  /** `n.ToString("D<width>")` (and `"00"` for width 2): the digits of `n`
      left-padded with zeros to at least `width` characters. */
  function FormatD(n: nat, width: nat): (s: string)
  {
    var digits := NatToString(n);
    if |digits| >= width then digits else Zeros(width - |digits|) + digits
  }

  /** The value of a string of decimal digits. */
  function ParseDigits(s: string): nat
    requires AllDigits(s)
  {
    if s == [] then 0 else ParseDigits(s[..|s| - 1]) * 10 + DigitValue(s[|s| - 1])
  }

  function Pow10(k: nat): (p: nat)
    ensures p >= 1
  {
    if k == 0 then 1 else 10 * Pow10(k - 1)
  }

  lemma {:induction false} ParseNatToString(n: nat)
    ensures ParseDigits(NatToString(n)) == n
    decreases n
  {
    if n >= 10 {
      var s := NatToString(n);
      assert s[..|s| - 1] == NatToString(n / 10);
      ParseNatToString(n / 10);
    }
  }

  lemma {:induction false} ParseLeadingZeros(k: nat, s: string)
    requires AllDigits(s)
    ensures AllDigits(Zeros(k) + s) && ParseDigits(Zeros(k) + s) == ParseDigits(s)
    decreases |s|
  {
    var z := Zeros(k) + s;
    assert AllDigits(z) by {
      forall i | 0 <= i < |z| ensures IsDigit(z[i]) {
        if i < k { assert z[i] == '0'; } else { assert z[i] == s[i - k]; }
      }
    }
    if s == [] {
      assert z == Zeros(k);
      ParseZeros(k);
    } else {
      assert z[..|z| - 1] == Zeros(k) + s[..|s| - 1];
      ParseLeadingZeros(k, s[..|s| - 1]);
    }
  }

  lemma {:induction false} ParseZeros(k: nat)
    ensures AllDigits(Zeros(k)) && ParseDigits(Zeros(k)) == 0
    decreases k
  {
    if k > 0 {
      var z := Zeros(k);
      assert z[..|z| - 1] == Zeros(k - 1) by {
        assert Zeros(k) == Zeros(k - 1) + "0" by { ZerosSnoc(k); }
      }
      ParseZeros(k - 1);
    }
  }

  lemma {:induction false} ZerosSnoc(k: nat)
    requires k > 0
    ensures Zeros(k) == Zeros(k - 1) + "0"
    decreases k
  {
    if k > 1 { ZerosSnoc(k - 1); }
  }

  /** The decimal rendering of `n` has at most `k` digits when `n < 10^k`,
      and at least `k` digits when `n >= 10^(k-1)`. */
  lemma {:induction false} NatToStringLength(n: nat, k: nat)
    ensures n < Pow10(k) && k >= 1 ==> |NatToString(n)| <= k
    ensures k >= 1 && n >= Pow10(k - 1) ==> |NatToString(n)| >= k
    decreases n
  {
    if n >= 10 {
      if k >= 1 {
        NatToStringLength(n / 10, k - 1);
        if k == 1 { assert Pow10(1) == 10; }
        if n < Pow10(k) && k >= 2 { assert n / 10 < Pow10(k - 1); }
        if k >= 2 && n >= Pow10(k - 1) { assert n / 10 >= Pow10(k - 2); }
      }
    } else if k >= 2 {
      assert Pow10(k - 1) >= 10 by { Pow10Grows(k - 1); }
    }
  }

  lemma {:induction false} Pow10Grows(k: nat)
    requires k >= 1
    ensures Pow10(k) >= 10
    decreases k
  {
    if k > 1 { Pow10Grows(k - 1); }
  }

  /** A zero-padded rendering is all digits, has exactly `width` characters
      when the number fits, and parses back to the number. */
  lemma FormatDRoundTrip(n: nat, width: nat)
    ensures AllDigits(FormatD(n, width))
    ensures ParseDigits(FormatD(n, width)) == n
    ensures width >= 1 && n < Pow10(width) ==> |FormatD(n, width)| == width
  {
    ParseNatToString(n);
    var digits := NatToString(n);
    if |digits| < width {
      ParseLeadingZeros(width - |digits|, digits);
    }
    NatToStringLength(n, width);
  }
}
