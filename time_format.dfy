/**
 * The lap-time text shared by the dashboard, the leaderboard and the lap
 * comparison (`formatTime`, "M:SS.mmm"), and `(ms / 1000).toFixed(3)` for
 * whole milliseconds.
 */
module TimeFormat {
  import opened Text

  function Abs(i: int): nat { if i < 0 then -i else i }

  /** A sign, then `n` thousandths written as seconds with three decimals. */
  function Signed(negative: bool, n: nat): string
  {
    (if negative then "-" else "") + NatToString(n / 1000) + "." + ZeroPad(n % 1000, 3)
  }

  /** `(ms / 1000).toFixed(3)` for a whole number of milliseconds: sign, seconds, point, three digits. */
  function SecondsText(ms: int): string
  {
    Signed(ms < 0, Abs(ms))
  }

  /** Half-up rounding to a whole number, as `toFixed` rounds a value that is not a tie-breaking case. */
  function RoundHalfUp(x: real): int
  {
    (x + 0.5).Floor
  }

  function AbsReal(x: real): real { if x < 0.0 then -x else x }

  /**
   * `(ms / 1000).toFixed(3)` for any number of milliseconds: the magnitude is rounded to
   * a whole millisecond and a negative value keeps its '-', even when it rounds to zero.
   */
  function FixedSeconds(ms: real): string
  {
    var n := RoundHalfUp(AbsReal(ms));
    Signed(ms < 0.0, if n < 0 then 0 else n)
  }

  /** A signed decimal with exactly three digits after the point. */
  predicate SecondsShaped(s: string)
  {
    && |s| >= 5 && s[|s| - 4] == '.'
    && (if s[0] == '-' then AllDigits(s[1..|s| - 4]) else AllDigits(s[..|s| - 4]))
    && AllDigits(s[|s| - 3..])
  }

  /** Reads `SecondsText` back: the last four characters are ".mmm", a leading '-' negates. */
  function ReadSeconds(s: string): int
    requires SecondsShaped(s)
  {
    var magnitude :=
      if s[0] == '-' then ParseNat(s[1..|s| - 4]) * 1000 + ParseNat(s[|s| - 3..])
      else ParseNat(s[..|s| - 4]) * 1000 + ParseNat(s[|s| - 3..]);
    if s[0] == '-' then -magnitude else magnitude
  }

  /** The slices of "sign + q + '.' + r" when `r` has three characters. */
  lemma SignedDecimalSlices(sign: string, q: string, r: string)
    requires |sign| <= 1 && |q| >= 1 && |r| == 3
    ensures var s := sign + q + "." + r;
      |s| >= 5 && s[|s| - 4] == '.' && s[|sign|..|s| - 4] == q && s[|s| - 3..] == r
  {
  }

  /** A sign, a digit string, a point and three digits read back as the signed number they spell. */
  lemma ReadSecondsOfParts(negative: bool, q: string, r: string)
    requires |q| >= 1 && |r| == 3 && AllDigits(q) && AllDigits(r)
    ensures var s := (if negative then "-" else "") + q + "." + r;
      && SecondsShaped(s) && (s[0] == '-' <==> negative)
      && ReadSeconds(s) == if negative then -(ParseNat(q) * 1000 + ParseNat(r)) else ParseNat(q) * 1000 + ParseNat(r)
  {
    var sign := if negative then "-" else "";
    SignedDecimalSlices(sign, q, r);
    assert IsDigit(q[0]);
  }

  lemma SignedReads(negative: bool, n: nat)
    ensures SecondsShaped(Signed(negative, n))
    ensures Signed(negative, n)[0] == '-' <==> negative
    ensures ReadSeconds(Signed(negative, n)) == if negative then -(n as int) else n as int
  {
    var q, r := NatToString(n / 1000), ZeroPad(n % 1000, 3);
    NatToStringLength(n % 1000);
    ZeroPadReads(n % 1000, 3);
    ParseNatToString(n / 1000);
    ReadSecondsOfParts(negative, q, r);
    assert (n / 1000) * 1000 + n % 1000 == n;
  }

  /** The seconds text of a whole number of milliseconds reads back as that number, with a '-' exactly when it is negative. */
  lemma SecondsTextReads(ms: int)
    ensures SecondsShaped(SecondsText(ms))
    ensures SecondsText(ms)[0] == '-' <==> ms < 0
    ensures ReadSeconds(SecondsText(ms)) == ms
  {
    SignedReads(ms < 0, Abs(ms));
  }

  /** On whole milliseconds the real-valued text agrees with the integer one. */
  lemma FixedSecondsOfWhole(ms: int)
    ensures FixedSeconds(ms as real) == SecondsText(ms)
  {
    assert RoundHalfUp(AbsReal(ms as real)) == Abs(ms);
  }

  /** The real-valued text reads back within half a millisecond, and carries a '-' exactly for a negative value. */
  lemma FixedSecondsReads(ms: real)
    ensures SecondsShaped(FixedSeconds(ms))
    ensures FixedSeconds(ms)[0] == '-' <==> ms < 0.0
    ensures ms - 0.5 <= ReadSeconds(FixedSeconds(ms)) as real <= ms + 0.5
  {
    var n := RoundHalfUp(AbsReal(ms));
    assert n >= 0;
    SignedReads(ms < 0.0, n);
  }

  /** Padding `s + t` on the left only pads `s`. */
  lemma PadStartAppend(s: string, t: string, width: nat, c: char)
    requires width >= |t|
    ensures PadStart(s + t, width, c) == PadStart(s, width - |t|, c) + t
  {
  }

  /** The seconds field of `formatTime`: the six characters "SS.mmm". */
  function SecondsField(rem: int): string
  {
    PadStart(SecondsText(rem), 6, '0')
  }

  /** Concatenation regrouped. */
  lemma Regroup(a: string, b: string, c: string)
    ensures (a + b) + c == a + (b + c)
  {
  }

  lemma SecondsTextOfNat(n: nat)
    ensures SecondsText(n) == NatToString(n / 1000) + ("." + ZeroPad(n % 1000, 3))
  {
    var q, z := NatToString(n / 1000), ZeroPad(n % 1000, 3);
    assert SecondsText(n) == Signed(false, n);
    assert Signed(false, n) == ("" + q + ".") + z;
    assert "" + q == q;
    Regroup(q, ".", z);
  }

  lemma SecondsFieldShape(rem: nat)
    requires rem < 60000
    ensures SecondsField(rem) == ZeroPad(rem / 1000, 2) + "." + ZeroPad(rem % 1000, 3)
  {
    var q, z := NatToString(rem / 1000), ZeroPad(rem % 1000, 3);
    SecondsTextOfNat(rem);
    assert |q| <= 2 by {
      NatToStringLength(rem / 1000);
    }
    assert |z| == 3 by {
      NatToStringLength(rem % 1000);
      ZeroPadReads(rem % 1000, 3);
    }
    assert SecondsField(rem) == PadStart(q + ("." + z), 6, '0');
    PadStartAppend(q, "." + z, 6, '0');
    assert ZeroPad(rem / 1000, 2) == PadStart(q, 2, '0');
    Regroup(PadStart(q, 2, '0'), ".", z);
  }

  /** JavaScript's `%`: the remainder takes the sign of the dividend. */
  function TruncRem(a: int, d: int): int
    requires d > 0
  {
    if a >= 0 then a % d else -((-a) % d)
  }

  /**
   * `formatTime(ms)` for a whole number of milliseconds: `Math.floor(ms / 60000)`,
   * a colon, and `((ms % 60000) / 1000).toFixed(3).padStart(6, "0")`.
   */
  function FormatTime(ms: int): string
  {
    IntToString(ms / 60000) + ":" + SecondsField(TruncRem(ms, 60000))
  }

  /**
   * `formatTime(ms)` for a positive real number of milliseconds (a mean lap time):
   * `toFixed(3)` on the seconds rounds the remainder to the nearest millisecond.
   */
  function FormatTimeOfReal(ms: real): string
    requires ms > 0.0
  {
    var minutes := (ms / 60000.0).Floor;
    var rem := ms - 60000.0 * (minutes as real);
    IntToString(minutes) + ":" + SecondsField(RoundHalfUp(rem))
  }

  /** Real division by 60000 floors to the integer quotient. */
  lemma FloorOfMinutes(ms: nat)
    ensures ((ms as real) / 60000.0).Floor == ms / 60000
    ensures ms as real - 60000.0 * ((ms / 60000) as real) == (ms % 60000) as real
  {
    var q, r := ms / 60000, ms % 60000;
    assert ms == q * 60000 + r;
    assert ms as real == (q as real) * 60000.0 + r as real;
    assert (q as real) <= (ms as real) / 60000.0 < q as real + 1.0;
  }

  /** On a whole number of milliseconds the real-valued text is the integer one. */
  lemma FormatTimeOfWhole(ms: nat)
    requires ms > 0
    ensures FormatTimeOfReal(ms as real) == FormatTime(ms)
  {
    var x, q, r := ms as real, ms / 60000, ms % 60000;
    FloorOfMinutes(ms);
    var minutes := (x / 60000.0).Floor;
    assert minutes == q;
    var rem := x - 60000.0 * (minutes as real);
    assert rem == r as real;
    assert RoundHalfUp(rem) == r;
    assert FormatTimeOfReal(x) == IntToString(q) + ":" + SecondsField(r);
    assert TruncRem(ms, 60000) == r;
  }

  /** The seven-character tail ":SS.mmm" after a minutes numeral. */
  predicate TimeShaped(s: string)
  {
    && |s| >= 8
    && s[|s| - 7] == ':' && s[|s| - 4] == '.'
    && AllDigits(s[..|s| - 7]) && AllDigits(s[|s| - 6..|s| - 4]) && AllDigits(s[|s| - 3..])
  }

  /** The minutes, seconds and milliseconds fields of an "M:SS.mmm" string. */
  function MinutesOf(s: string): nat requires TimeShaped(s) { ParseNat(s[..|s| - 7]) }

  function SecondsOf(s: string): nat requires TimeShaped(s) { ParseNat(s[|s| - 6..|s| - 4]) }

  function MillisOf(s: string): nat requires TimeShaped(s) { ParseNat(s[|s| - 3..]) }

  /** Reads "M:SS.mmm" back into milliseconds. */
  function ReadTime(s: string): int
    requires TimeShaped(s)
  {
    MinutesOf(s) * 60000 + SecondsOf(s) * 1000 + MillisOf(s)
  }

  /** The slices of "m + ':' + ss + '.' + mmm" with a two- and a three-character field. */
  lemma TimeSlices(m: string, ss: string, mmm: string)
    requires |m| >= 1 && |ss| == 2 && |mmm| == 3
    ensures var s := m + ":" + ss + "." + mmm;
      && |s| >= 8 && s[|s| - 7] == ':' && s[|s| - 4] == '.'
      && s[..|s| - 7] == m && s[|s| - 6..|s| - 4] == ss && s[|s| - 3..] == mmm
  {
  }

  /** The remainder by 1000 is determined by any decomposition with a remainder in range. */
  lemma ModThousand(a: nat, k: nat, r: nat)
    requires a == 1000 * k + r && r < 1000
    ensures a % 1000 == r
  {
    var k', r' := a / 1000, a % 1000;
    assert 1000 * (k - k') == r' - r;
    assert -1000 < r' - r < 1000;
    assert k - k' == 0;
  }

  lemma MillisOfRemainder(ms: nat)
    ensures (ms % 60000) % 1000 == ms % 1000
    ensures (ms % 60000) / 1000 < 60
  {
    var q, rem := ms / 60000, ms % 60000;
    var s, m := rem / 1000, rem % 1000;
    assert rem == 1000 * s + m;
    assert ms == 60000 * q + rem;
    assert ms == 1000 * (60 * q + s) + m;
    ModThousand(ms, 60 * q + s, m);
    assert 1000 * s <= rem < 60000;
  }

  lemma MillisDecomposed(ms: nat)
    ensures ms == (ms / 60000) * 60000 + ((ms % 60000) / 1000) * 1000 + ms % 1000
  {
    MillisOfRemainder(ms);
  }

  /** `formatTime` spelled out field by field. */
  lemma FormatTimeSpelled(ms: nat)
    ensures FormatTime(ms) == NatToString(ms / 60000) + ":" + ZeroPad((ms % 60000) / 1000, 2) + "." + ZeroPad(ms % 1000, 3)
  {
    assert TruncRem(ms, 60000) == ms % 60000;
    MillisOfRemainder(ms);
    SecondsFieldShape(ms % 60000);
  }

  /**
   * `formatTime` prints minutes = ms div 60000, a seconds field below 60 and a
   * milliseconds field below 1000; reading the text back gives the milliseconds
   * it was made from.
   */
  lemma FormatTimeFields(ms: nat)
    ensures TimeShaped(FormatTime(ms))
    ensures MinutesOf(FormatTime(ms)) == ms / 60000
    ensures SecondsOf(FormatTime(ms)) < 60 && MillisOf(FormatTime(ms)) == ms % 1000
    ensures ReadTime(FormatTime(ms)) == ms
  {
    var a, b, c := ms / 60000, (ms % 60000) / 1000, ms % 1000;
    MillisOfRemainder(ms);
    MillisDecomposed(ms);
    FormatTimeSpelled(ms);
    FieldsOfSpelled(FormatTime(ms), a, b, c);
  }

  /** Three digit strings joined as "m:ss.mmm" read back field by field. */
  lemma FieldsOfParts(m: string, ss: string, mmm: string)
    requires |m| >= 1 && |ss| == 2 && |mmm| == 3
    requires AllDigits(m) && AllDigits(ss) && AllDigits(mmm)
    ensures TimeShaped(m + ":" + ss + "." + mmm)
    ensures MinutesOf(m + ":" + ss + "." + mmm) == ParseNat(m)
    ensures SecondsOf(m + ":" + ss + "." + mmm) == ParseNat(ss)
    ensures MillisOf(m + ":" + ss + "." + mmm) == ParseNat(mmm)
  {
    TimeSlices(m, ss, mmm);
  }

  /** A time assembled from minutes, seconds below 60 and milliseconds below 1000 reads back field by field. */
  lemma FieldsOfSpelled(s: string, mins: nat, sec: nat, milli: nat)
    requires sec < 60 && milli < 1000
    requires s == NatToString(mins) + ":" + ZeroPad(sec, 2) + "." + ZeroPad(milli, 3)
    ensures TimeShaped(s)
    ensures MinutesOf(s) == mins && SecondsOf(s) == sec && MillisOf(s) == milli
  {
    var m, ss, mmm := NatToString(mins), ZeroPad(sec, 2), ZeroPad(milli, 3);
    NatToStringLength(sec);
    NatToStringLength(milli);
    ZeroPadReads(sec, 2);
    ZeroPadReads(milli, 3);
    ParseNatToString(mins);
    FieldsOfParts(m, ss, mmm);
  }
}
