/**
 * Times of day and the `to_str` / `from_str` conversions.
 *
 * A time of day is a number of seconds since midnight. In the log it is
 * written with the default `time_format`, `%H:%M:%S`; `Render` and
 * `ParseClock` model that fixed format, and their round trip shows that a
 * time key and its rendered string identify each other.
 */
module Clock {

  import opened Wrappers

  const SecondsPerDay: int := 86400

  /** Seconds since midnight, as `datetime.now().time()` gives them at second resolution. */
  type Seconds = t: int | 0 <= t < SecondsPerDay

  /** A value handed to `to_str` / `from_str`: already a string, or a time. */
  datatype Stamp = Text(s: string) | At(t: Seconds)

  function Digit(d: nat): (c: char)
    requires d < 10
    ensures '0' <= c <= '9'
  {
    (48 + d) as char
  }

  function DigitValue(c: char): (d: nat)
    requires '0' <= c <= '9'
    ensures d < 10 && Digit(d) == c
  {
    (c as int) - 48
  }

  predicate IsDigit(c: char) {
    '0' <= c <= '9'
  }

  /** `%H:%M:%S`: two digits each for hours, minutes and seconds. */
  function Render(t: Seconds): (r: string)
    ensures |r| == 8 && r[2] == ':' && r[5] == ':'
  {
    var h, rest := t / 3600, t % 3600;
    var m, s := rest / 60, rest % 60;
    [Digit(h / 10), Digit(h % 10), ':', Digit(m / 10), Digit(m % 10), ':', Digit(s / 10), Digit(s % 10)]
  }

  /** Reads `HH:MM:SS` with hours below 24 and minutes and seconds below 60; anything else fails. */
  function ParseClock(r: string): (t: Option<Seconds>)
    ensures t.Some? ==> |r| == 8
  {
    if |r| == 8 && r[2] == ':' && r[5] == ':'
       && IsDigit(r[0]) && IsDigit(r[1]) && IsDigit(r[3]) && IsDigit(r[4])
       && IsDigit(r[6]) && IsDigit(r[7])
    then
      var h := DigitValue(r[0]) * 10 + DigitValue(r[1]);
      var m := DigitValue(r[3]) * 10 + DigitValue(r[4]);
      var s := DigitValue(r[6]) * 10 + DigitValue(r[7]);
      if h < 24 && m < 60 && s < 60 then Some(h * 3600 + m * 60 + s) else None
    else None
  }

  lemma DigitRoundTrip(d: nat)
    requires d < 10
    ensures DigitValue(Digit(d)) == d
  {
  }

  /** Reading back a rendered time gives the same time. */
  lemma ParseRender(t: Seconds)
    ensures ParseClock(Render(t)) == Some(t)
  {
    var h, rest := t / 3600, t % 3600;
    var m, s := rest / 60, rest % 60;
    var r := Render(t);
    DigitRoundTrip(h / 10); DigitRoundTrip(h % 10);
    DigitRoundTrip(m / 10); DigitRoundTrip(m % 10);
    DigitRoundTrip(s / 10); DigitRoundTrip(s % 10);
    assert DigitValue(r[0]) * 10 + DigitValue(r[1]) == h;
    assert DigitValue(r[3]) * 10 + DigitValue(r[4]) == m;
    assert DigitValue(r[6]) * 10 + DigitValue(r[7]) == s;
    assert h * 3600 + m * 60 + s == t;
  }

  /** Distinct times render to distinct strings, so time keys may stand for their strings. */
  lemma RenderInjective(t: Seconds, u: Seconds)
    requires Render(t) == Render(u)
    ensures t == u
  {
    ParseRender(t);
    ParseRender(u);
  }

  /** `to_str(value)`: a string is returned as it is, a time is rendered. */
  function ToStr(v: Stamp): (r: string)
    ensures v.Text? ==> r == v.s
    ensures v.At? ==> ParseClock(r) == Some(v.t)
  {
    match v
    case Text(s) => s
    case At(t) => ParseRender(t); Render(t)
  }

  /** `from_str(value)`: a time is returned as it is, a string is parsed (`None` is the parse error). */
  function FromStr(v: Stamp): (r: Option<Seconds>)
    ensures v.At? ==> r == Some(v.t)
  {
    match v
    case Text(s) => ParseClock(s)
    case At(t) => Some(t)
  }

  /**
   * Converting to a string first changes nothing that `from_str` sees: this is
   * why `popup` may store `to_str(get_time())` and later subtract
   * `from_str` of it.
   */
  lemma FromStrOfToStr(v: Stamp)
    ensures FromStr(Text(ToStr(v))) == FromStr(v)
  {
  }

  /** `to_str` is idempotent. */
  lemma ToStrIdempotent(v: Stamp)
    ensures ToStr(Text(ToStr(v))) == ToStr(v)
  {
  }
}
