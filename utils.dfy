/** The shared client helper `formatLapTime`: "M:SS.HH", whole hundredths cut off, not rounded. */
module Utils {
  import opened Text

  /**
   * `formatLapTime(ms)` for a non-negative whole number of milliseconds: floor of the
   * minutes, floor of the seconds within the minute and floor of the hundredths within
   * the second, the last two padded to two digits.
   */
  function FormatLapTime(ms: nat): string
  {
    NatToString(ms / 60000) + ":" + ZeroPad((ms / 1000) % 60, 2) + "." + ZeroPad((ms % 1000) / 10, 2)
  }

  /** "M:SS.HH" with all three fields made of digits. */
  predicate LapTimeShaped(s: string)
  {
    && |s| >= 7 && s[|s| - 6] == ':' && s[|s| - 3] == '.'
    && AllDigits(s[..|s| - 6]) && AllDigits(s[|s| - 5..|s| - 3]) && AllDigits(s[|s| - 2..])
  }

  function MinutesPart(s: string): nat
    requires LapTimeShaped(s)
  {
    ParseNat(s[..|s| - 6])
  }

  function SecondsPart(s: string): nat
    requires LapTimeShaped(s)
  {
    ParseNat(s[|s| - 5..|s| - 3])
  }

  function HundredthsPart(s: string): nat
    requires LapTimeShaped(s)
  {
    ParseNat(s[|s| - 2..])
  }

  lemma Slices(m: string, ss: string, hh: string)
    requires |m| >= 1 && |ss| == 2 && |hh| == 2
    ensures var s := m + ":" + ss + "." + hh;
      |s| >= 7 && s[|s| - 6] == ':' && s[|s| - 3] == '.'
      && s[..|s| - 6] == m && s[|s| - 5..|s| - 3] == ss && s[|s| - 2..] == hh
  {
  }

  lemma FieldArithmetic(ms: nat)
    ensures (ms / 60000) * 60000 + ((ms / 1000) % 60) * 1000 + ((ms % 1000) / 10) * 10 == ms - ms % 10
  {
    var q := ms / 1000;
    assert q / 60 == ms / 60000;
    assert ms == q * 1000 + ms % 1000;
    assert q == (q / 60) * 60 + q % 60;
    assert ms % 1000 == ((ms % 1000) / 10) * 10 + ms % 10;
  }

  /** The text reads back as the time cut down to whole hundredths, with seconds below 60. */
  lemma FormatLapTimeReads(ms: nat)
    ensures LapTimeShaped(FormatLapTime(ms))
    ensures SecondsPart(FormatLapTime(ms)) < 60 && HundredthsPart(FormatLapTime(ms)) < 100
    ensures MinutesPart(FormatLapTime(ms)) * 60000 + SecondsPart(FormatLapTime(ms)) * 1000
      + HundredthsPart(FormatLapTime(ms)) * 10 == ms - ms % 10
  {
    var m, ss, hh := NatToString(ms / 60000), ZeroPad((ms / 1000) % 60, 2), ZeroPad((ms % 1000) / 10, 2);
    NatToStringLength((ms / 1000) % 60);
    NatToStringLength((ms % 1000) / 10);
    ZeroPadReads((ms / 1000) % 60, 2);
    ZeroPadReads((ms % 1000) / 10, 2);
    ParseNatToString(ms / 60000);
    Slices(m, ss, hh);
    FieldArithmetic(ms);
  }
}
