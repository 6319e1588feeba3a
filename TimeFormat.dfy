/**
 * Rendering of a nanosecond time as "MM:SS" (Player.format_time in
 * examples/video-player.py), with a decoder for the rendered text so that
 * the rendering can be shown to keep exactly the whole minutes and the
 * remaining seconds of its input.
 *
 * The script is read as Python 3, so `value / Gst.SECOND` is a float
 * division; `'%02d'` then truncates toward zero, and `seconds % 60` is
 * Python's floor modulo. For integer nanoseconds both work out to integer
 * arithmetic: the minutes are the quotient truncated toward zero and the
 * seconds are the floored whole seconds modulo 60. Minutes are not clamped.
 */
module TimeFormat {
  import opened Wrappers
  import opened Gst

  predicate IsDigit(c: char) {
    '0' <= c <= '9'
  }

  predicate AllDigits(s: string) {
    forall i :: 0 <= i < |s| ==> IsDigit(s[i])
  }

  function DigitChar(d: nat): (c: char)
    requires d < 10
    ensures IsDigit(c) && c as int - '0' as int == d
  {
    ('0' as int + d) as char
  }

  function DigitValue(c: char): nat
    requires IsDigit(c)
  {
    c as int - '0' as int
  }

  /** Decimal digits of n without leading zeros, as `%d` prints them. */
  function Decimal(n: nat): (s: string)
    ensures |s| >= 1 && AllDigits(s)
    ensures |s| == 1 <==> n < 10
    ensures s[0] == '0' <==> n == 0
  {
    if n < 10 then [DigitChar(n)] else Decimal(n / 10) + [DigitChar(n % 10)]
  }

  /** The number a string of decimal digits denotes (leading zeros allowed). */
  function DecimalValue(s: string): nat
    requires AllDigits(s)
  {
    if s == [] then 0 else DecimalValue(s[..|s| - 1]) * 10 + DigitValue(s[|s| - 1])
  }

  lemma {:induction false} DecimalRoundTrip(n: nat)
    ensures DecimalValue(Decimal(n)) == n
  {
    if n >= 10 {
      var s := Decimal(n);
      assert s[..|s| - 1] == Decimal(n / 10);
      DecimalRoundTrip(n / 10);
    }
  }

  /** A digit string with a non-zero first digit denotes a positive number. */
  lemma {:induction false} NonZeroLead(s: string)
    requires AllDigits(s) && |s| >= 1 && s[0] != '0'
    ensures DecimalValue(s) >= 1
  {
    if |s| > 1 {
      NonZeroLead(s[..|s| - 1]);
    }
  }

  /** Decimal is the only rendering without leading zeros: any such digit
      string is Decimal of the number it denotes. */
  lemma {:induction false} DecimalCanonical(s: string)
    requires AllDigits(s) && |s| >= 1
    requires |s| > 1 ==> s[0] != '0'
    ensures Decimal(DecimalValue(s)) == s
  {
    if |s| > 1 {
      var init := s[..|s| - 1];
      NonZeroLead(init);
      DecimalCanonical(init);
      var n := DecimalValue(s);
      assert n / 10 == DecimalValue(init) && n % 10 == DigitValue(s[|s| - 1]);
    }
  }

  lemma {:induction false} LeadingZero(s: string)
    requires AllDigits(s)
    ensures AllDigits("0" + s) && DecimalValue("0" + s) == DecimalValue(s)
  {
    if s != [] {
      var z := "0" + s;
      assert z[..|z| - 1] == "0" + s[..|s| - 1];
      LeadingZero(s[..|s| - 1]);
    }
  }

  /** Python's `'%02d' % n`: at least two characters, zero-padded; a negative
      number is a minus sign and its digits (already two characters wide). */
  function Pad2(n: int): (s: string)
    ensures n >= 0 ==> |s| >= 2 && AllDigits(s) && DecimalValue(s) == n
    ensures 0 <= n < 100 ==> |s| == 2
    ensures n >= 10 ==> s == Decimal(n)
    ensures n < 0 ==> s == "-" + Decimal(-n)
    ensures n < 0 ==> |s| >= 2 && s[0] == '-' && AllDigits(s[1..]) && DecimalValue(s[1..]) == -n
  {
    if n < 0 then
      DecimalRoundTrip(-n);
      assert ("-" + Decimal(-n))[1..] == Decimal(-n);
      "-" + Decimal(-n)
    else if n < 10 then
      DecimalRoundTrip(n);
      LeadingZero(Decimal(n));
      "0" + Decimal(n)
    else
      DecimalRoundTrip(n);
      Decimal(n)
  }

  /** Whole minutes of a time, truncated toward zero (`'%02d' % (seconds / 60)`). */
  function Minutes(v: int): int {
    if v >= 0 then v / SECOND / 60 else -((-v) / SECOND / 60)
  }

  /** Remaining whole seconds (`'%02d' % (seconds % 60)`), always in [0, 60). */
  function Seconds(v: int): int {
    v / SECOND % 60
  }

  /** Player.format_time. */
  function FormatTime(v: int): (r: string)
    ensures |r| >= 5 && r[|r| - 3] == ':'
    ensures AllDigits(r[|r| - 2..])
  {
    Pad2(Minutes(v)) + ":" + Pad2(Seconds(v))
  }

  /** Reads "M...M:SS" back as (minutes, seconds); None for any other text. */
  function ParseClock(s: string): Option<(nat, nat)> {
    if |s| >= 4 && s[|s| - 3] == ':' && AllDigits(s[..|s| - 3]) && AllDigits(s[|s| - 2..]) then
      Some((DecimalValue(s[..|s| - 3]), DecimalValue(s[|s| - 2..])))
    else
      None
  }

  /** A non-negative time renders as its whole minutes and the seconds that
      remain, so the rendered text gives back the whole seconds of the input. */
  lemma FormatTimeDecodes(v: int)
    requires v >= 0
    ensures ParseClock(FormatTime(v)) == Some((v / SECOND / 60, v / SECOND % 60))
    ensures var (m, s) := ParseClock(FormatTime(v)).value; m * 60 + s == v / SECOND && s < 60
  {
    var mm, ss := Pad2(Minutes(v)), Pad2(Seconds(v));
    var r := FormatTime(v);
    assert r[..|r| - 3] == mm;
    assert r[|r| - 2..] == ss;
  }

  /** A negative time shows a minus sign in the minutes field, or no sign at all
      when it lies within the first minute before zero. */
  lemma FormatTimeNegative(v: int)
    requires v < 0
    ensures FormatTime(v)[0] == '-' <==> v <= -60 * SECOND
  {
  }

  /** Two sample renderings: 125 s and 0 s. */
  lemma FormatTimeExamples()
    ensures FormatTime(125 * SECOND) == "02:05"
    ensures FormatTime(0) == "00:00"
  {
    assert Minutes(125 * SECOND) == 2 && Seconds(125 * SECOND) == 5;
    assert Pad2(2) == "02" && Pad2(5) == "05";
    assert Minutes(0) == 0 && Seconds(0) == 0;
    assert Pad2(0) == "00";
  }

  /** The unknown-time sentinel is not special to the formatter: it renders as
      307445734 minutes and 33 seconds. */
  lemma FormatTimeOfUnknown()
    ensures FormatTime(CLOCK_TIME_NONE) == "307445734:33"
  {
    assert Minutes(CLOCK_TIME_NONE) == 307445734;
    assert Seconds(CLOCK_TIME_NONE) == 33;
    assert Decimal(3) == "3";
    assert Decimal(30) == "30";
    assert Decimal(307) == "307";
    assert Decimal(3074) == "3074";
    assert Decimal(30744) == "30744";
    assert Decimal(307445) == "307445";
    assert Decimal(3074457) == "3074457";
    assert Decimal(30744573) == "30744573";
    assert Decimal(307445734) == "307445734";
  }
}
