/**
 * `Number.toFormattedDuration(timeUnit)`: a duration rendered as
 * `"%02d:%02d"` of whole minutes and the seconds within the minute.
 */
module DurationFormat {
  import opened Wrappers
  import opened KotlinInt

  /** The two `java.util.concurrent.TimeUnit` values the apps pass. */
  datatype TimeUnit = Seconds | Milliseconds

  /** `timeUnit.toMinutes(d)`: a down-conversion, truncating toward zero. */
  function ToMinutes(unit: TimeUnit, d: int): (m: int)
    ensures m == Div(ToSeconds(unit, d), 60)
    ensures d >= 0 ==> m >= 0
  {
    MillisToMinutes(d);
    match unit
    case Seconds => Div(d, 60)
    case Milliseconds => Div(d, 60000)
  }

  /** `timeUnit.toSeconds(d)`: whole seconds, truncating toward zero. */
  function ToSeconds(unit: TimeUnit, d: int): (sec: int)
    ensures d >= 0 ==> 0 <= sec <= d
    ensures d < 0 ==> d <= sec <= 0
    ensures unit == Seconds ==> sec == d
    ensures unit == Milliseconds ==> sec == Div(d, 1000)
    ensures unit == Milliseconds && d >= 0 ==> sec * 1000 <= d < sec * 1000 + 1000
    ensures unit == Milliseconds && d < 0 ==> sec * 1000 - 1000 < d <= sec * 1000
  {
    match unit
    case Seconds => d
    case Milliseconds => Div(d, 1000)
  }

  /** The text the apps show for a duration of `n` in `unit` (seconds by default). */
  function ToFormattedDuration(n: int, unit: TimeUnit := Seconds): (t: string)
    ensures n >= 0 ==> |t| >= 5 && t[|t| - 3] == ':' && ':' !in t[..|t| - 3] && ':' !in t[|t| - 2..]
  {
    FormatZeroPadded(ToMinutes(unit, n), 2) + ":" + FormatZeroPadded(Rem(ToSeconds(unit, n), 60), 2)
  }

  /** The text before the first ':' and the text after it. */
  function SplitAtColon(s: string): (r: Option<(string, string)>)
    ensures r.Some? ==> r.value.0 + ":" + r.value.1 == s && ':' !in r.value.0
    ensures r.None? <==> ':' !in s
  {
    if s == [] then None
    else if s[0] == ':' then Some(([], s[1..]))
    else match SplitAtColon(s[1..])
      case None => None
      case Some(parts) => Some(([s[0]] + parts.0, parts.1))
  }

  /** Reads a rendered duration back into its minutes and seconds fields. */
  function ParseDuration(s: string): Option<(int, int)>
  {
    match SplitAtColon(s)
    case None => None
    case Some(parts) =>
      match (ParseInt(parts.0), ParseInt(parts.1))
      case (Some(m), Some(sec)) => Some((m, sec))
      case _ => None
  }

  lemma {:induction false} SplitAtColonAppend(a: string, b: string)
    requires ':' !in a
    ensures SplitAtColon(a + ":" + b) == Some((a, b))
    decreases |a|
  {
    if a == [] {
      assert a + ":" + b == [':'] + b;
    } else {
      assert (a + ":" + b)[1..] == a[1..] + ":" + b;
      SplitAtColonAppend(a[1..], b);
      assert [a[0]] + a[1..] == a;
    }
  }

  /** Both fields of the text read back as exactly the minutes and seconds the formatter was given. */
  lemma DurationFields(n: int, unit: TimeUnit)
    ensures ParseDuration(ToFormattedDuration(n, unit)) == Some((ToMinutes(unit, n), Rem(ToSeconds(unit, n), 60)))
  {
    SplitAtColonAppend(FormatZeroPadded(ToMinutes(unit, n), 2), FormatZeroPadded(Rem(ToSeconds(unit, n), 60), 2));
  }

  /**
   * Round trip in seconds: the minutes field times 60 plus the seconds field
   * is the input, for every input; for a non-negative input the fields are
   * `n / 60` and `n % 60`, and the seconds field lies in 0..59.
   */
  lemma SecondsRoundTrip(n: int)
    ensures ParseDuration(ToFormattedDuration(n)).Some?
    ensures var (m, s) := ParseDuration(ToFormattedDuration(n)).value;
      && m * 60 + s == n
      && (n >= 0 ==> m == n / 60 && s == n % 60 && 0 <= s < 60)
  {
    DurationFields(n, Seconds);
  }

  /** Round trip in milliseconds: the fields recompose the whole seconds of the input. */
  lemma MillisecondsRoundTrip(ms: int)
    ensures ParseDuration(ToFormattedDuration(ms, Milliseconds)).Some?
    ensures var (m, s) := ParseDuration(ToFormattedDuration(ms, Milliseconds)).value;
      m * 60 + s == Div(ms, 1000)
  {
    DurationFields(ms, Milliseconds);
    MillisToMinutes(ms);
  }

  /** Milliseconds are formatted as their whole seconds, truncated toward zero. */
  lemma MillisecondsAsSeconds(ms: int)
    ensures ToFormattedDuration(ms, Milliseconds) == ToFormattedDuration(Div(ms, 1000), Seconds)
  {
    MillisToMinutes(ms);
  }

  /**
   * `toFormattedDuration` on a `Float`, such as the seek slider's value:
   * `toLong()` first drops the fraction, so a non-negative value is shown as
   * its whole part.
   */
  function FloatToFormattedDuration(x: real, unit: TimeUnit := Seconds): (t: string)
    ensures 0.0 <= x < (LONG_MAX + 1) as real ==> t == ToFormattedDuration(x.Floor, unit)
    ensures x >= 0.0 ==> |t| >= 5 && t[|t| - 3] == ':'
  {
    ToFormattedDuration(FloatToLong(x), unit)
  }

  /**
   * Width: each field is at least two characters, and the minutes are never
   * capped. Below 6000 seconds the text is exactly five characters; from
   * 6000 on the minutes field has three or more digits.
   */
  lemma DurationLength(n: int)
    requires n >= 0
    ensures var minutes := NatToString(n / 60);
      && |ToFormattedDuration(n)| == (if |minutes| < 2 then 2 else |minutes|) + 3
      && (n < 6000 <==> |ToFormattedDuration(n)| == 5)
      && (n >= 6000 <==> |minutes| >= 3)
  {
    assert IntToString(n / 60) == NatToString(n / 60);
    assert IntToString(n % 60) == NatToString(n % 60);
    assert n < 6000 <==> n / 60 < 100;
  }
}
