/**
 * The dashboard's statistics over the recorded laps: the best lap, the five most
 * recent laps, the mean lap time, the number of distinct tracks, and the texts the
 * cards show for them.
 */
module Dashboard {
  import opened Racing
  import opened Seqs
  import opened Text
  import opened TimeFormat
  import Json
  import opened Wrappers

  /**
   * Where `laps.reduce((best, cur) => cur.lapTime < best.lapTime ? cur : best, laps[0])`
   * lands: a lap with the least time, and among those the earliest (a later lap
   * replaces the current best only when strictly faster).
   */
  function BestIndex(laps: seq<Lap>): (k: nat)
    requires |laps| > 0
    ensures k < |laps|
    ensures forall j :: 0 <= j < |laps| ==> laps[k].lapTime <= laps[j].lapTime
    ensures forall j :: 0 <= j < k ==> laps[k].lapTime < laps[j].lapTime
  {
    if |laps| == 1 then 0
    else
      var init := laps[..|laps| - 1];
      var k := BestIndex(init);
      assert forall j :: 0 <= j < |init| ==> init[j] == laps[j];
      if laps[|laps| - 1].lapTime < laps[k].lapTime then |laps| - 1 else k
  }

  function BestLap(laps: seq<Lap>): Lap
    requires |laps| > 0
  {
    laps[BestIndex(laps)]
  }

  /** `laps.slice(-5).reverse()`: the last five laps (or all of them), newest first. */
  function RecentLaps(laps: seq<Lap>): (r: seq<Lap>)
    ensures |r| == if |laps| < 5 then |laps| else 5
    ensures forall i :: 0 <= i < |r| ==> r[i] == laps[|laps| - 1 - i]
  {
    var start := if |laps| < 5 then 0 else |laps| - 5;
    Reverse(laps[start..])
  }

  /** The lap times as numbers, in order. */
  function Times(laps: seq<Lap>): (ts: seq<real>)
    ensures |ts| == |laps|
    ensures forall i :: 0 <= i < |laps| ==> ts[i] == laps[i].lapTime as real
  {
    seq(|laps|, i requires 0 <= i < |laps| => laps[i].lapTime as real)
  }

  /** The sum of the lap times divided by their number; 0 when there are none. */
  function AverageLapTime(laps: seq<Lap>): (avg: real)
    ensures |laps| == 0 ==> avg == 0.0
    ensures |laps| > 0 ==> avg * (|laps| as real) == Sum(Times(laps))
  {
    if |laps| > 0 then Sum(Times(laps)) / (|laps| as real) else 0.0
  }

  /** The mean lap time is never below the best lap time, nor above the slowest. */
  lemma AverageBetweenBestAndSlowest(laps: seq<Lap>)
    requires |laps| > 0
    ensures BestLap(laps).lapTime as real <= AverageLapTime(laps)
    ensures AverageLapTime(laps) <= Max(Times(laps))
  {
    var ts := Times(laps);
    var lo := BestLap(laps).lapTime as real;
    assert AverageLapTime(laps) == Mean(ts);
    MeanBounds(ts, lo, Max(ts));
  }

  /** The set of track names among the laps. */
  function TrackSet(laps: seq<Lap>): set<string>
  {
    set i | 0 <= i < |laps| :: laps[i].trackName
  }

  lemma {:induction false} TrackSetSize(laps: seq<Lap>)
    ensures |TrackSet(laps)| <= |laps|
    ensures |laps| > 0 ==> |TrackSet(laps)| >= 1
  {
    if |laps| > 0 {
      var init := laps[..|laps| - 1];
      TrackSetSize(init);
      assert TrackSet(laps) == TrackSet(init) + {laps[|laps| - 1].trackName} by {
        forall t | t in TrackSet(laps) ensures t in TrackSet(init) + {laps[|laps| - 1].trackName} {
          var i :| 0 <= i < |laps| && laps[i].trackName == t;
          if i < |laps| - 1 {
            assert init[i] == laps[i];
          }
        }
        forall t | t in TrackSet(init) ensures t in TrackSet(laps) {
          var i :| 0 <= i < |init| && init[i].trackName == t;
          assert laps[i] == init[i];
        }
      }
      assert laps[|laps| - 1].trackName in TrackSet(laps);
    }
  }

  /** `new Set(laps.map(lap => lap.trackName)).size`. */
  function UniqueTracks(laps: seq<Lap>): (n: nat)
    ensures n <= |laps|
    ensures |laps| > 0 ==> n >= 1
    ensures forall i :: 0 <= i < |laps| ==> laps[i].trackName in TrackSet(laps)
    ensures forall t :: t in TrackSet(laps) ==> exists i :: 0 <= i < |laps| && laps[i].trackName == t
    ensures n == |TrackSet(laps)|
  {
    TrackSetSize(laps);
    |TrackSet(laps)|
  }

  /**
   * The mean lap time card as written: `formatTime` applied to the unrounded mean,
   * whose seconds `toFixed(3)` may round up to "60.000".
   */
  function AverageTextAsWritten(avg: real): string
  {
    if avg > 0.0 then FormatTimeOfReal(avg) else "--:--"
  }

  /** The mean lap time card with the mean first rounded to the millisecond. */
  function AverageText(avg: real): string
  {
    if avg > 0.0 then FormatTime(RoundHalfUp(avg)) else "--:--"
  }

  /** The rounded card always shows a well-formed time under a minute's worth of seconds, within half a millisecond of the mean. */
  lemma AverageTextWellFormed(avg: real)
    requires avg > 0.0
    ensures RoundHalfUp(avg) >= 0
    ensures TimeShaped(AverageText(avg)) && SecondsOf(AverageText(avg)) < 60
    ensures ReadTime(AverageText(avg)) == RoundHalfUp(avg)
    ensures avg - 0.5 < ReadTime(AverageText(avg)) as real <= avg + 0.5
  {
    FormatTimeFields(RoundHalfUp(avg));
  }

  lemma NatToStringSixty()
    ensures NatToString(60) == "60"
  {
    assert NatToString(6) == "6";
  }

  lemma SixtySecondsAsWritten()
    ensures AverageTextAsWritten(119999.8) == "1:60.000"
  {
    var avg := 119999.8;
    assert (avg / 60000.0).Floor == 1;
    assert RoundHalfUp(avg - 60000.0 * 1.0) == 60000;
    NatToStringSixty();
    assert ZeroPad(0, 3) == "000";
    assert SecondsText(60000) == "60.000";
    assert PadStart("60.000", 6, '0') == "60.000";
    assert IntToString(1) == "1";
  }

  lemma TwoMinutesRounded()
    ensures AverageText(119999.8) == "2:00.000"
  {
    assert RoundHalfUp(119999.8) == 120000;
    assert TruncRem(120000, 60000) == 0;
    assert ZeroPad(0, 3) == "000";
    assert SecondsText(0) == "0.000";
    assert PadStart("0.000", 6, '0') == "00.000";
    assert IntToString(2) == "2";
  }

  lemma SumOfFive(ts: seq<real>)
    requires ts == [119999.0, 120000.0, 120000.0, 120000.0, 120000.0]
    ensures Sum(ts) == 599999.0
  {
    var a, b, c, d := ts[..1], ts[..2], ts[..3], ts[..4];
    assert a[..0] == [] && b[..1] == a && c[..2] == b && d[..3] == c && ts[..4] == d;
    assert Sum(a) == 119999.0;
    assert Sum(b) == 239999.0;
    assert Sum(c) == 359999.0;
    assert Sum(d) == 479999.0;
  }

  /** Five laps of 119999, 120000, 120000, 120000 and 120000 ms: the mean card reads "1:60.000". */
  lemma AverageShowsSixtySeconds(laps: seq<Lap>)
    requires |laps| == 5 && laps[0].lapTime == 119999
    requires forall i :: 1 <= i < 5 ==> laps[i].lapTime == 120000
    ensures AverageLapTime(laps) == 119999.8
    ensures AverageTextAsWritten(AverageLapTime(laps)) == "1:60.000"
    ensures AverageText(AverageLapTime(laps)) == "2:00.000"
  {
    var ts := Times(laps);
    assert ts == [119999.0, 120000.0, 120000.0, 120000.0, 120000.0];
    SumOfFive(ts);
    SixtySecondsAsWritten();
    TwoMinutesRounded();
  }

  /** The four statistics cards, or the empty state when there are no laps. */
  datatype Cards =
    | NoLaps
    | Cards(totalLaps: nat, best: Lap, bestText: string, averageText: string, tracks: nat, recent: seq<Lap>)

  function View(laps: seq<Lap>): (c: Cards)
    ensures c.NoLaps? <==> |laps| == 0
    ensures c.Cards? ==> c.totalLaps == |laps| && c.best in laps && 1 <= c.tracks <= |laps|
    ensures c.Cards? ==> forall l :: l in laps ==> c.best.lapTime <= l.lapTime
    ensures c.Cards? ==> |c.recent| <= 5 && forall l :: l in c.recent ==> l in laps
    ensures c.Cards? ==> c.tracks == |TrackSet(laps)| && c.recent == RecentLaps(laps)
    ensures c.Cards? ==> c.best == BestLap(laps)
    ensures c.Cards? ==> c.bestText == FormatTime(c.best.lapTime)
    ensures c.Cards? ==> c.averageText == AverageTextAsWritten(AverageLapTime(laps))
  {
    if |laps| == 0 then NoLaps
    else
      var best := BestLap(laps);
      Cards(|laps|, best, FormatTime(best.lapTime), AverageTextAsWritten(AverageLapTime(laps)), UniqueTracks(laps), RecentLaps(laps))
  }

  /** The best-lap card reads back as the best lap's time, whenever that time is not negative. */
  lemma ViewBestTextReads(laps: seq<Lap>)
    requires |laps| > 0 && BestLap(laps).lapTime >= 0
    ensures View(laps).Cards? && TimeShaped(View(laps).bestText)
    ensures ReadTime(View(laps).bestText) == View(laps).best.lapTime
  {
    FormatTimeFields(BestLap(laps).lapTime);
  }

  /** On the five-lap input the dashboard as written shows "1:60.000" as the mean lap time. */
  lemma ViewShowsSixtySeconds(laps: seq<Lap>)
    requires |laps| == 5 && laps[0].lapTime == 119999
    requires forall i :: 1 <= i < 5 ==> laps[i].lapTime == 120000
    ensures View(laps).Cards? && View(laps).averageText == "1:60.000"
  {
    AverageShowsSixtySeconds(laps);
  }

  /** The telemetry graph: the first 500 samples of the last upload, shown only when there are any. */
  function TelemetryPreview(telemetry: seq<Json.Value>): (shown: Option<seq<Json.Value>>)
    ensures shown.None? <==> |telemetry| == 0
    ensures shown.Some? ==> |shown.value| == (if |telemetry| < 500 then |telemetry| else 500)
    ensures shown.Some? ==> shown.value <= telemetry
  {
    if |telemetry| == 0 then None
    else Some(telemetry[..if |telemetry| < 500 then |telemetry| else 500])
  }
}
