/**
 * The parts of Kotlin/JVM integer semantics the apps rely on: truncating
 * division and remainder, decimal `toString()`, and the saturating
 * Float-to-integer conversions. Integers are unbounded here; the 32- and
 * 64-bit limits appear only where a conversion saturates at them.
 */
module KotlinInt {
  import opened Wrappers

  const INT_MIN: int := -0x8000_0000
  const INT_MAX: int := 0x7fff_ffff
  const LONG_MIN: int := -0x8000_0000_0000_0000
  const LONG_MAX: int := 0x7fff_ffff_ffff_ffff

  /** `a / b` on Int and Long: the quotient is truncated toward zero. */
  function Div(a: int, b: int): (q: int)
    requires b > 0
    ensures a >= 0 ==> q >= 0 && q * b <= a < q * b + b
    ensures a < 0 ==> q <= 0 && q * b - b < a <= q * b
  {
    DivideMagnitude(if a >= 0 then a else -a, b);
    if a >= 0 then a / b else -((-a) / b)
  }

  /** Euclidean division of a magnitude: the quotient's multiple is within one divisor below it. */
  lemma DivideMagnitude(n: nat, b: int)
    requires b > 0
    ensures n / b >= 0 && (n / b) * b <= n < (n / b) * b + b
    ensures (-(n / b)) * b == -((n / b) * b)
  {
    var m, r := n / b, n % b;
    assert n == m * b + r && 0 <= r < b;
  }

  /** `a % b` on Int and Long: the remainder takes the sign of `a`. */
  function Rem(a: int, b: int): (r: int)
    requires b > 0
    ensures Div(a, b) * b + r == a
    ensures a >= 0 ==> 0 <= r < b
    ensures a < 0 ==> -b < r <= 0
  {
    if a >= 0 then a % b else -((-a) % b)
  }

  /** Whole seconds of a millisecond count, then whole minutes of those, are the whole minutes of it. */
  lemma MillisToMinutes(a: int)
    ensures Div(Div(a, 1000), 60) == Div(a, 60000)
  {
    var n := if a >= 0 then a else -a;
    var q, r := n / 60000, n % 60000;
    var r2, r1 := r / 1000, r % 1000;
    assert n == 60000 * q + 1000 * r2 + r1 && 0 <= r1 < 1000 && 0 <= r2 < 60;
    assert n / 1000 == 60 * q + r2;
    assert (n / 1000) / 60 == q;
  }

  /** `Float.toLong()` / `Float.toInt()` for finite values: truncate toward zero, saturate at the bounds. */
  function Truncate(x: real): int
  {
    if x >= 0.0 then x.Floor else -((-x).Floor)
  }

  function Clamp(v: int, lo: int, hi: int): (r: int)
    requires lo <= hi
    ensures lo <= r <= hi
    ensures lo <= v <= hi ==> r == v
  {
    if v < lo then lo else if v > hi then hi else v
  }

  function FloatToLong(x: real): (r: int)
    ensures LONG_MIN <= r <= LONG_MAX
    ensures x >= 0.0 && x < (LONG_MAX + 1) as real ==> r as real <= x < r as real + 1.0
    ensures x < 0.0 && x > (LONG_MIN - 1) as real ==> r as real - 1.0 < x <= r as real
    ensures x >= (LONG_MAX + 1) as real ==> r == LONG_MAX
    ensures x <= (LONG_MIN - 1) as real ==> r == LONG_MIN
  {
    Clamp(Truncate(x), LONG_MIN, LONG_MAX)
  }

  function FloatToInt(x: real): (r: int)
    ensures INT_MIN <= r <= INT_MAX
    ensures x >= 0.0 && x < (INT_MAX + 1) as real ==> r as real <= x < r as real + 1.0
    ensures x < 0.0 && x > (INT_MIN - 1) as real ==> r as real - 1.0 < x <= r as real
    ensures x >= (INT_MAX + 1) as real ==> r == INT_MAX
    ensures x <= (INT_MIN - 1) as real ==> r == INT_MIN
  {
    Clamp(Truncate(x), INT_MIN, INT_MAX)
  }

  /** `TimeUnit.SECONDS.toMillis(d)`: multiply by 1000, saturating at the Long bounds. */
  function SecondsToMillis(d: int): (r: int)
    ensures LONG_MIN <= d <= LONG_MAX ==> LONG_MIN <= r <= LONG_MAX
    ensures -(LONG_MAX / 1000) <= d <= LONG_MAX / 1000 ==> r == d * 1000
    ensures d > LONG_MAX / 1000 ==> r == LONG_MAX
    ensures d < -(LONG_MAX / 1000) ==> r == LONG_MIN
  {
    if d > LONG_MAX / 1000 then LONG_MAX
    else if d < -(LONG_MAX / 1000) then LONG_MIN
    else d * 1000
  }

  // ---------------------------------------------------------------------------
  // Decimal text: `Int.toString()`, `"%0Nd".format(v)`, and the inverse reading.

  predicate IsDigit(c: char) { '0' <= c <= '9' }

  predicate AllDigits(s: string) { forall i | 0 <= i < |s| :: IsDigit(s[i]) }

  function DigitChar(d: int): (c: char)
    requires 0 <= d < 10
    ensures IsDigit(c)
  {
    ('0' as int + d) as char
  }

  /** The decimal digits of `n`, most significant first, without leading zeros. */
  function NatToString(n: nat): (s: string)
    ensures |s| >= 1 && AllDigits(s)
    ensures |s| == 1 <==> n < 10
    ensures |s| <= 2 <==> n < 100
    ensures |s| > 1 ==> s[0] != '0'
    decreases n
  {
    if n < 10 then [DigitChar(n)] else NatToString(n / 10) + [DigitChar(n % 10)]
  }

  /** The number written by a string of digits (leading zeros allowed). */
  function DigitsValue(s: string): nat
    requires AllDigits(s)
  {
    if s == [] then 0 else DigitsValue(s[..|s| - 1]) * 10 + (s[|s| - 1] as int - '0' as int)
  }

  lemma {:induction false} DigitsValueOfNatToString(n: nat)
    ensures DigitsValue(NatToString(n)) == n
    decreases n
  {
    if n >= 10 {
      var s := NatToString(n);
      assert s[..|s| - 1] == NatToString(n / 10);
      DigitsValueOfNatToString(n / 10);
    }
  }

  function Zeros(k: nat): (z: string)
    ensures |z| == k && AllDigits(z)
    ensures forall i | 0 <= i < k :: z[i] == '0'
  {
    seq(k, _ => '0')
  }

  lemma {:induction false} LeadingZerosValue(k: nat, d: string)
    requires AllDigits(d)
    ensures AllDigits(Zeros(k) + d)
    ensures DigitsValue(Zeros(k) + d) == DigitsValue(d)
    decreases |d|
  {
    var s := Zeros(k) + d;
    if d == [] {
      assert s == Zeros(k);
      ZerosValue(k);
    } else {
      assert s[..|s| - 1] == Zeros(k) + d[..|d| - 1];
      LeadingZerosValue(k, d[..|d| - 1]);
    }
  }

  lemma {:induction false} ZerosValue(k: nat)
    ensures DigitsValue(Zeros(k)) == 0
  {
    if k > 0 {
      assert Zeros(k)[..k - 1] == Zeros(k - 1);
      ZerosValue(k - 1);
    }
  }

  /** `Int.toString()` / `Long.toString()`: a minus sign for negatives, then the digits of the magnitude. */
  function IntToString(n: int): (s: string)
    ensures |s| >= 1
    ensures n >= 0 ==> AllDigits(s)
    ensures n < 0 ==> s[0] == '-' && AllDigits(s[1..])
  {
    if n < 0 then "-" + NatToString(-n) else NatToString(n)
  }

  /** Reads back an optional minus sign followed by at least one digit. */
  function ParseInt(s: string): Option<int>
  {
    if |s| >= 2 && s[0] == '-' && AllDigits(s[1..]) then Some(0 - DigitsValue(s[1..]))
    else if |s| >= 1 && AllDigits(s) then Some(DigitsValue(s))
    else None
  }

  lemma {:induction false} ParseIntToString(n: int)
    ensures ParseInt(IntToString(n)) == Some(n)
  {
    var s := IntToString(n);
    if n < 0 {
      var d := NatToString(-n);
      assert s == "-" + d;
      assert s[1..] == d;
      DigitsValueOfNatToString(-n);
      assert ParseInt(s) == Some(0 - DigitsValue(d));
    } else {
      assert IsDigit(s[0]);
      DigitsValueOfNatToString(n);
      assert ParseInt(s) == Some(DigitsValue(s));
    }
  }

  /** Distinct integers have distinct decimal texts (media ids are compared as text). */
  lemma IntToStringInjective(a: int, b: int)
    ensures IntToString(a) == IntToString(b) <==> a == b
  {
    ParseIntToString(a);
    ParseIntToString(b);
  }

  /**
   * `"%0<width>d".format(v)`: the sign, then zeros after the sign until the
   * whole text is at least `width` characters, then the digits. The width is
   * a minimum: the text is never cut.
   */
  function FormatZeroPadded(v: int, width: nat): (r: string)
    ensures |r| == if |IntToString(v)| < width then width else |IntToString(v)|
    ensures ParseInt(r) == Some(v)
    ensures ':' !in r
    ensures v >= 0 ==> AllDigits(r)
    ensures v < 0 ==> r[0] == '-' && AllDigits(r[1..])
  {
    var sign := if v < 0 then "-" else "";
    var digits := NatToString(if v < 0 then -v else v);
    var pad := if |sign| + |digits| < width then width - |sign| - |digits| else 0;
    PaddedParses(sign, pad, if v < 0 then -v else v);
    sign + Zeros(pad) + digits
  }

  lemma PaddedParses(sign: string, pad: nat, n: nat)
    requires sign == "" || sign == "-"
    requires sign == "-" ==> n > 0
    ensures var r := sign + Zeros(pad) + NatToString(n);
      && ':' !in r
      && ParseInt(r) == Some(if sign == "-" then 0 - n else n)
  {
    var body := Zeros(pad) + NatToString(n);
    LeadingZerosValue(pad, NatToString(n));
    DigitsValueOfNatToString(n);
    NoColonInDigits(body);
    if sign == "-" {
      assert sign + Zeros(pad) + NatToString(n) == "-" + body;
      SignedParses(body);
    } else {
      assert sign + Zeros(pad) + NatToString(n) == body;
      UnsignedParses(body);
    }
  }

  lemma NoColonInDigits(s: string)
    requires AllDigits(s)
    ensures ':' !in s && ':' !in "-" + s
  {
    assert forall i | 0 <= i < |s| :: IsDigit(s[i]);
  }

  lemma SignedParses(body: string)
    requires |body| >= 1 && AllDigits(body)
    ensures ParseInt("-" + body) == Some(0 - DigitsValue(body))
  {
    var r := "-" + body;
    assert r[1..] == body;
  }

  lemma UnsignedParses(body: string)
    requires |body| >= 1 && AllDigits(body)
    ensures ParseInt(body) == Some(DigitsValue(body))
  {
    assert IsDigit(body[0]);
  }
}
