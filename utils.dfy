/**
 * The `m:ss` and `h:mm:ss` clock formatters of lib/utils.ts, on whole
 * seconds, together with a parser for their output that shows no
 * information is lost.
 */
module Utils {
  import opened Wrappers
  import opened Text
  import opened JsMath

  /** `String(n).padStart(2, "0")`. */
  function Pad2(n: int): string {
    PadStart(IntToString(n), 2, '0')
  }

  /** `formatTime`: `"0:00"` for zero, otherwise unpadded minutes and two-digit seconds. */
  function FormatTime(seconds: int): (t: string)
    ensures seconds > 0 ==> t == NatToString(seconds / 60) + ":" + Pad2(seconds % 60)
  {
    if seconds == 0 then "0:00"
    else IntToString(FloorDiv(seconds, 60)) + ":" + Pad2(TruncMod(seconds, 60))
  }

  /**
   * `formatLongTime`: `"0:00:00"` for zero; `h:mm:ss` when there is at least
   * one whole hour; otherwise the same `m:ss` as `formatTime`.
   */
  function FormatLongTime(seconds: int): (t: string)
    ensures seconds >= 3600 ==>
      t == NatToString(seconds / 3600) + ":" + Pad2((seconds % 3600) / 60) + ":" + Pad2(seconds % 60)
    ensures 0 < seconds < 3600 ==> t == FormatTime(seconds)
  {
    if seconds == 0 then "0:00:00"
    else
      var hours := FloorDiv(seconds, 3600);
      var minutes := FloorDiv(TruncMod(seconds, 3600), 60);
      var secs := TruncMod(seconds, 60);
      if hours > 0 then IntToString(hours) + ":" + Pad2(minutes) + ":" + Pad2(secs)
      else IntToString(minutes) + ":" + Pad2(secs)
  }

  /** Reads `m:ss` or `h:mm:ss` back into a number of seconds. */
  function ParseClock(t: string): Option<nat> {
    var p := Split(t, ':');
    if |p| == 2 && IsField(p[0]) && IsField(p[1]) then
      Some(ParseDigits(p[0]) * 60 + ParseDigits(p[1]))
    else if |p| == 3 && IsField(p[0]) && IsField(p[1]) && IsField(p[2]) then
      Some((ParseDigits(p[0]) * 60 + ParseDigits(p[1])) * 60 + ParseDigits(p[2]))
    else None
  }

  lemma {:induction false} SplitTwo(a: string, b: string)
    requires AllDigits(a) && AllDigits(b)
    ensures Split(a + ":" + b, ':') == [a, b]
  {
    DigitsHaveNoSeparator(a, ':');
    DigitsHaveNoSeparator(b, ':');
    SplitField(a, ':', b);
    SplitNoSep(b, ':');
  }

  lemma {:induction false} SplitThree(a: string, b: string, c: string)
    requires AllDigits(a) && AllDigits(b) && AllDigits(c)
    ensures Split(a + ":" + b + ":" + c, ':') == [a, b, c]
  {
    DigitsHaveNoSeparator(a, ':');
    assert a + ":" + b + ":" + c == a + [':'] + (b + ":" + c);
    SplitField(a, ':', b + ":" + c);
    SplitTwo(b, c);
  }

  /** The two-digit field of a value in 0..59 reads back as that value. */
  lemma Pad2Field(n: nat)
    requires n < 60
    ensures IsField(Pad2(n)) && |Pad2(n)| == 2 && ParseDigits(Pad2(n)) == n
  {
    PadNatRoundTrip(n, 2);
    PadNatWidth(n, 2);
  }

  /** The remainder by 60 is determined by any decomposition `60 * q + r`. */
  lemma Mod60Unique(a: int, q: int, r: int)
    requires 0 <= r < 60 && a == 60 * q + r
    ensures a % 60 == r
  {
  }

  /** Hours, minutes and seconds of a clock reading recombine to the reading. */
  lemma ClockArithmetic(seconds: nat)
    ensures (seconds % 3600) / 60 < 60 && seconds % 60 < 60
    ensures ((seconds / 3600) * 60 + (seconds % 3600) / 60) * 60 + seconds % 60 == seconds
  {
    var h, r := seconds / 3600, seconds % 3600;
    var m, s := r / 60, r % 60;
    assert r == 60 * m + s;
    assert seconds == 3600 * h + r;
    assert seconds == 60 * (60 * h + m) + s;
    Mod60Unique(seconds, 60 * h + m, s);
  }

  lemma NaturalClockParts(seconds: nat)
    ensures FloorDiv(seconds, 60) == seconds / 60 && TruncMod(seconds, 60) == seconds % 60
    ensures FloorDiv(seconds, 3600) == seconds / 3600 && TruncMod(seconds, 3600) == seconds % 3600
    ensures FloorDiv(seconds % 3600, 60) == (seconds % 3600) / 60
  {
  }

  /**
   * For a positive number of seconds `formatTime` prints two fields, the
   * second exactly two digits in 00..59, and reading them back as
   * `m * 60 + ss` gives the input.
   */
  lemma FormatTimeRoundTrip(seconds: nat)
    requires seconds > 0
    ensures var p := Split(FormatTime(seconds), ':');
      |p| == 2 && IsField(p[1]) && |p[1]| == 2 && ParseDigits(p[1]) < 60
    ensures ParseClock(FormatTime(seconds)) == Some(seconds)
  {
    var m, s := seconds / 60, seconds % 60;
    NaturalClockParts(seconds);
    assert FormatTime(seconds) == NatToString(m) + ":" + Pad2(s);
    MinutesText(FormatTime(seconds), seconds, m, s);
  }

  /** The `m:ss` text of a reading whose fields are known. */
  lemma MinutesText(t: string, seconds: nat, m: nat, s: nat)
    requires s < 60 && m * 60 + s == seconds
    requires t == NatToString(m) + ":" + Pad2(s)
    ensures var p := Split(t, ':');
      |p| == 2 && IsField(p[1]) && |p[1]| == 2 && ParseDigits(p[1]) < 60
    ensures ParseClock(t) == Some(seconds)
  {
    Pad2Field(s);
    ParseNatToString(m);
    SplitTwo(NatToString(m), Pad2(s));
  }

  /** `formatTime(0)` is `"0:00"`, which also reads back as zero. */
  lemma FormatTimeZero()
    ensures FormatTime(0) == "0:00"
    ensures ParseClock(FormatTime(0)) == Some(0)
  {
    assert FormatTime(0) == "0" + ":" + "00";
    SplitTwo("0", "00");
  }

  /**
   * With at least one hour, `formatLongTime` prints three fields, minutes
   * and seconds exactly two digits each in 00..59, and reading them back
   * as `h * 3600 + m * 60 + ss` gives the input.
   */
  lemma FormatLongTimeHours(seconds: nat)
    requires seconds >= 3600
    ensures var p := Split(FormatLongTime(seconds), ':');
      && |p| == 3 && IsField(p[1]) && IsField(p[2])
      && |p[1]| == 2 && |p[2]| == 2 && ParseDigits(p[1]) < 60 && ParseDigits(p[2]) < 60
    ensures ParseClock(FormatLongTime(seconds)) == Some(seconds)
  {
    var h, m, s := seconds / 3600, (seconds % 3600) / 60, seconds % 60;
    ClockArithmetic(seconds);
    HoursText(FormatLongTime(seconds), seconds, h, m, s);
  }

  /** The `h:mm:ss` text of a reading whose fields are known. */
  lemma HoursText(t: string, seconds: nat, h: nat, m: nat, s: nat)
    requires m < 60 && s < 60 && (h * 60 + m) * 60 + s == seconds
    requires t == NatToString(h) + ":" + Pad2(m) + ":" + Pad2(s)
    ensures var p := Split(t, ':');
      && |p| == 3 && IsField(p[1]) && IsField(p[2])
      && |p[1]| == 2 && |p[2]| == 2 && ParseDigits(p[1]) < 60 && ParseDigits(p[2]) < 60
    ensures ParseClock(t) == Some(seconds)
  {
    Pad2Field(m);
    Pad2Field(s);
    ParseNatToString(h);
    ThreeFields(NatToString(h), Pad2(m), Pad2(s));
  }

  /** Three digit fields joined by `:` split back and read as `(a * 60 + b) * 60 + c`. */
  lemma ThreeFields(a: string, b: string, c: string)
    requires IsField(a) && IsField(b) && IsField(c)
    ensures Split(a + ":" + b + ":" + c, ':') == [a, b, c]
    ensures ParseClock(a + ":" + b + ":" + c) == Some((ParseDigits(a) * 60 + ParseDigits(b)) * 60 + ParseDigits(c))
  {
    SplitThree(a, b, c);
  }

  /**
   * Below one hour `formatLongTime` is `formatTime`: no hours field at all,
   * unlike the zero case, which prints `"0:00:00"`.
   */
  lemma FormatLongTimeUnderAnHour(seconds: nat)
    requires 0 < seconds < 3600
    ensures FormatLongTime(seconds) == FormatTime(seconds)
    ensures |Split(FormatLongTime(seconds), ':')| == 2
    ensures |Split(FormatLongTime(0), ':')| == 3
  {
    FormatTimeRoundTrip(seconds);
    ZeroLongTime();
  }

  /** `formatLongTime(0)` is `"0:00:00"`, three fields reading back as zero. */
  lemma ZeroLongTime()
    ensures FormatLongTime(0) == "0:00:00"
    ensures |Split(FormatLongTime(0), ':')| == 3
    ensures ParseClock(FormatLongTime(0)) == Some(0)
  {
    var z, zz := "0", "00";
    assert zz[..1] == z && z[..0] == [];
    assert ParseDigits(z) == 0 && ParseDigits(zz) == 0;
    ThreeFields(z, zz, zz);
    var t := z + ":" + zz + ":" + zz;
    assert ParseClock(t) == Some(0);
    assert FormatLongTime(0) == t;
  }

  /** Every output of `formatLongTime` on a non-negative input reads back as the input. */
  lemma FormatLongTimeRoundTrip(seconds: nat)
    ensures ParseClock(FormatLongTime(seconds)) == Some(seconds)
  {
    if seconds == 0 {
      ZeroLongTime();
    } else if seconds < 3600 {
      FormatLongTimeUnderAnHour(seconds);
      FormatTimeRoundTrip(seconds);
    } else {
      FormatLongTimeHours(seconds);
    }
  }
}
