/**
 * The lap comparison view: the user's laps against faster drivers' laps on the
 * selected track and car (per-category averages, signed improvements, impact levels,
 * radar scores), and two chosen laps against each other (lap and sector differences).
 *
 * An average over laps of which one lacks a sector is NaN in the client; here it is
 * `None`, and every value computed from it is `None` too.
 */
module LapComparison {
  import opened Wrappers
  import opened Racing
  import opened Seqs
  import opened Text
  import opened TimeFormat

  /** The index of the first lap at or after `from` whose id is `id`. */
  function FindFrom(laps: seq<Lap>, id: string, from: nat): (k: Option<nat>)
    requires from <= |laps|
    ensures k.None? <==> forall j :: from <= j < |laps| ==> laps[j].id != id
    ensures k.Some? ==> from <= k.value < |laps| && laps[k.value].id == id
    ensures k.Some? ==> forall j :: from <= j < k.value ==> laps[j].id != id
    decreases |laps| - from
  {
    if from == |laps| then None
    else if laps[from].id == id then Some(from)
    else FindFrom(laps, id, from + 1)
  }

  /** `laps.find(lap => lap.id === id)`: the first lap with that id, if any. */
  function FindById(laps: seq<Lap>, id: string): (found: Option<Lap>)
    ensures found.None? <==> forall j :: 0 <= j < |laps| ==> laps[j].id != id
    ensures found.Some? ==> found.value in laps && found.value.id == id
    ensures found.Some? ==>
      exists k :: 0 <= k < |laps| && found.value == laps[k] && forall j :: 0 <= j < k ==> laps[j].id != id
  {
    match FindFrom(laps, id, 0)
    case None => None
    case Some(k) => Some(laps[k])
  }

  /** `getFilteredLaps`: the track filter when a track is selected, then the car filter when a car is selected. */
  function FilteredLaps(laps: seq<Lap>, track: string, car: string): seq<Lap>
  {
    var byTrack := if track != AllOption then Keep(laps, (l: Lap) => l.trackName == track) else laps;
    if car != AllOption then Keep(byTrack, (l: Lap) => l.carModel == car) else byTrack
  }

  /** The filters keep exactly the laps matching both selectors, in their original order. */
  lemma FilteredLapsMatch(laps: seq<Lap>, track: string, car: string)
    ensures FilteredLaps(laps, track, car) == Keep(laps, (l: Lap) => Matches(l, track, car))
  {
    var sel := (l: Lap) => Matches(l, track, car);
    var byTrack := (l: Lap) => l.trackName == track;
    var byCar := (l: Lap) => l.carModel == car;
    var any := (l: Lap) => true;
    if track != AllOption && car != AllOption {
      KeepTwice(laps, byTrack, byCar, sel);
    } else if track != AllOption {
      KeepTwice(laps, byTrack, any, sel);
      KeepAll(Keep(laps, byTrack), any);
    } else if car != AllOption {
      KeepTwice(laps, any, byCar, sel);
      KeepAll(laps, any);
    } else {
      KeepAll(laps, sel);
    }
  }

  /** A lap survives the filters, as often as it occurs, exactly when it matches. */
  lemma FilteredLapsCounts(laps: seq<Lap>, track: string, car: string, lap: Lap)
    ensures multiset(FilteredLaps(laps, track, car))[lap] == if Matches(lap, track, car) then multiset(laps)[lap] else 0
  {
    FilteredLapsMatch(laps, track, car);
    KeepCounts(laps, (l: Lap) => Matches(l, track, car), lap);
  }

  function LapTimes(laps: seq<Lap>): (c: seq<real>)
    ensures |c| == |laps| && forall i :: 0 <= i < |laps| ==> c[i] == laps[i].lapTime as real
  {
    seq(|laps|, i requires 0 <= i < |laps| => laps[i].lapTime as real)
  }

  function TopSpeeds(laps: seq<Lap>): (c: seq<real>)
    ensures |c| == |laps| && forall i :: 0 <= i < |laps| ==> c[i] == laps[i].topSpeed
  {
    seq(|laps|, i requires 0 <= i < |laps| => laps[i].topSpeed)
  }

  function AverageSpeeds(laps: seq<Lap>): (c: seq<real>)
    ensures |c| == |laps| && forall i :: 0 <= i < |laps| ==> c[i] == laps[i].averageSpeed
  {
    seq(|laps|, i requires 0 <= i < |laps| => laps[i].averageSpeed)
  }

  /** Every lap has a sector numbered `k` (from 0). */
  predicate HasSector(laps: seq<Lap>, k: nat)
  {
    forall i :: 0 <= i < |laps| ==> k < |laps[i].sectorTimes|
  }

  function SectorColumn(laps: seq<Lap>, k: nat): (c: seq<real>)
    requires HasSector(laps, k)
    ensures |c| == |laps| && forall i :: 0 <= i < |laps| ==> c[i] == laps[i].sectorTimes[k] as real
  {
    seq(|laps|, i requires 0 <= i < |laps| => laps[i].sectorTimes[k] as real)
  }

  /** The mean of sector `k`, or NaN (`None`) when some lap has no such sector. */
  function SectorMean(laps: seq<Lap>, k: nat): (m: Option<real>)
    ensures m.Some? <==> HasSector(laps, k)
    ensures m.Some? ==> m.value == Mean(SectorColumn(laps, k))
  {
    if HasSector(laps, k) then Some(Mean(SectorColumn(laps, k))) else None
  }

  /** `a - b` where NaN (`None`) absorbs. */
  function Minus(a: Option<real>, b: Option<real>): (d: Option<real>)
    ensures d.Some? <==> a.Some? && b.Some?
    ensures d.Some? ==> d.value + b.value == a.value
  {
    if a.Some? && b.Some? then Some(a.value - b.value) else None
  }

  /** One entry of `getTrendAnalysis`. */
  datatype Trend = Trend(
    category: string,
    userAverage: Option<real>,
    fasterAverage: Option<real>,
    improvement: Option<real>,
    confidence: nat)

  /** "Sector 1 Performance" and its siblings. */
  function SectorCategory(digit: char): string
  {
    "Sector " + [digit] + " Performance"
  }

  const Categories: seq<string> := [
    "Overall Lap Time", SectorCategory('1'), SectorCategory('2'),
    SectorCategory('3'), "Top Speed", "Average Speed"]

  const Confidences: seq<nat> := [95, 88, 91, 87, 78, 92]

  /** The first four categories are times (lower is better), the last two speeds (higher is better). */
  predicate LowerIsBetter(i: nat) { i < 4 }

  /**
   * The improvement is positive exactly when the user is behind: slower where lower is
   * better, slower on speed where higher is better; its size is the gap between the averages.
   */
  predicate SignedAsBehind(t: Trend, lowerIsBetter: bool)
  {
    && (t.improvement.Some? <==> t.userAverage.Some? && t.fasterAverage.Some?)
    && (t.improvement.Some? ==>
      && (lowerIsBetter ==> (t.improvement.value > 0.0 <==> t.userAverage.value > t.fasterAverage.value))
      && (!lowerIsBetter ==> (t.improvement.value > 0.0 <==> t.userAverage.value < t.fasterAverage.value))
      && AbsReal(t.improvement.value) == AbsReal(t.userAverage.value - t.fasterAverage.value))
  }

  /** One trend: user minus faster where lower is better, faster minus user otherwise. */
  function TrendOf(category: string, user: Option<real>, faster: Option<real>, lowerIsBetter: bool, confidence: nat): (t: Trend)
    ensures t.category == category && t.confidence == confidence
    ensures t.userAverage == user && t.fasterAverage == faster
    ensures SignedAsBehind(t, lowerIsBetter)
  {
    Trend(category, user, faster, if lowerIsBetter then Minus(user, faster) else Minus(faster, user), confidence)
  }

  /** The six trends, given two non-empty sides. */
  function Trends(user: seq<Lap>, faster: seq<Lap>): (ts: seq<Trend>)
    ensures |ts| == 6
    ensures forall i :: 0 <= i < 6 ==> ts[i].category == Categories[i] && ts[i].confidence == Confidences[i]
    ensures forall i :: 0 <= i < 6 ==> SignedAsBehind(ts[i], LowerIsBetter(i))
  {
    [ TrendOf(Categories[0], Some(Mean(LapTimes(user))), Some(Mean(LapTimes(faster))), true, Confidences[0]),
      TrendOf(Categories[1], SectorMean(user, 0), SectorMean(faster, 0), true, Confidences[1]),
      TrendOf(Categories[2], SectorMean(user, 1), SectorMean(faster, 1), true, Confidences[2]),
      TrendOf(Categories[3], SectorMean(user, 2), SectorMean(faster, 2), true, Confidences[3]),
      TrendOf(Categories[4], Some(Mean(TopSpeeds(user))), Some(Mean(TopSpeeds(faster))), false, Confidences[4]),
      TrendOf(Categories[5], Some(Mean(AverageSpeeds(user))), Some(Mean(AverageSpeeds(faster))), false, Confidences[5]) ]
  }

  /**
   * `getTrendAnalysis`: nothing when either side has no laps; otherwise the six
   * categories in order, whose improvement is positive exactly when the user is behind.
   */
  function TrendAnalysis(user: seq<Lap>, faster: seq<Lap>): (ts: seq<Trend>)
    ensures |ts| == 0 <==> |user| == 0 || |faster| == 0
    ensures |ts| != 0 ==> |ts| == 6
    ensures forall i :: 0 <= i < |ts| ==> ts[i].category == Categories[i] && ts[i].confidence == Confidences[i]
    ensures forall i :: 0 <= i < |ts| ==> SignedAsBehind(ts[i], LowerIsBetter(i))
  {
    if |user| == 0 || |faster| == 0 then [] else Trends(user, faster)
  }

  /** The averages each trend compares: lap time, the three sectors, top speed and average speed. */
  lemma TrendAverages(user: seq<Lap>, faster: seq<Lap>)
    requires |user| > 0 && |faster| > 0
    ensures var ts := TrendAnalysis(user, faster);
      && ts[0].userAverage == Some(Mean(LapTimes(user))) && ts[0].fasterAverage == Some(Mean(LapTimes(faster)))
      && ts[1].userAverage == SectorMean(user, 0) && ts[1].fasterAverage == SectorMean(faster, 0)
      && ts[2].userAverage == SectorMean(user, 1) && ts[2].fasterAverage == SectorMean(faster, 1)
      && ts[3].userAverage == SectorMean(user, 2) && ts[3].fasterAverage == SectorMean(faster, 2)
      && ts[4].userAverage == Some(Mean(TopSpeeds(user))) && ts[4].fasterAverage == Some(Mean(TopSpeeds(faster)))
      && ts[5].userAverage == Some(Mean(AverageSpeeds(user))) && ts[5].fasterAverage == Some(Mean(AverageSpeeds(faster)))
  {
  }

  /** When no user lap beats a time that no faster driver's lap exceeds, the overall improvement is not negative. */
  lemma SlowerLapsMeanNonNegativeImprovement(user: seq<Lap>, faster: seq<Lap>, bound: int)
    requires |user| > 0 && |faster| > 0
    requires forall i :: 0 <= i < |user| ==> user[i].lapTime >= bound
    requires forall i :: 0 <= i < |faster| ==> faster[i].lapTime <= bound
    ensures TrendAnalysis(user, faster)[0].improvement.value >= 0.0
  {
    var b := bound as real;
    MeanBounds(LapTimes(user), b, Max(LapTimes(user)));
    SumAtMost(LapTimes(faster), b);
    var n := |faster| as real;
    QuotientAtMost(Sum(LapTimes(faster)), n, b);
  }

  datatype Impact = High | Medium | Low

  /** One entry of `getPerformanceGaps`. */
  datatype Gap = Gap(
    metric: string,
    userValue: Option<real>,
    topDriversValue: Option<real>,
    gap: Option<real>,
    impactLevel: Impact,
    priority: nat)

  /** "High" above 1000, "Medium" above 500, "Low" otherwise (a NaN improvement included). */
  function ImpactOf(improvement: Option<real>): (level: Impact)
    ensures level == High <==> improvement.Some? && improvement.value > 1000.0
    ensures level == Medium <==> improvement.Some? && 500.0 < improvement.value <= 1000.0
  {
    if improvement.Some? && improvement.value > 1000.0 then High
    else if improvement.Some? && improvement.value > 500.0 then Medium
    else Low
  }

  /** `getPerformanceGaps`: one gap per trend, in order, with the improvement's magnitude and a priority from 1. */
  function PerformanceGaps(ts: seq<Trend>): (gs: seq<Gap>)
    ensures |gs| == |ts|
    ensures forall i :: 0 <= i < |ts| ==>
      gs[i].metric == ts[i].category && gs[i].priority == i + 1
      && gs[i].userValue == ts[i].userAverage && gs[i].topDriversValue == ts[i].fasterAverage
    ensures forall i :: 0 <= i < |ts| ==> (gs[i].gap.Some? <==> ts[i].improvement.Some?)
    ensures forall i :: 0 <= i < |ts| && gs[i].gap.Some? ==>
      gs[i].gap.value >= 0.0 && (gs[i].gap.value == ts[i].improvement.value || gs[i].gap.value == -ts[i].improvement.value)
    ensures forall i :: 0 <= i < |ts| ==> gs[i].impactLevel == ImpactOf(ts[i].improvement)
  {
    seq(|ts|, i requires 0 <= i < |ts| =>
      var imp := ts[i].improvement;
      Gap(ts[i].category, ts[i].userAverage, ts[i].fasterAverage,
          if imp.Some? then Some(AbsReal(imp.value)) else None,
          ImpactOf(imp), i + 1))
  }

  /** A gap is ranked "High" only where the user is behind by more than a second. */
  lemma HighImpactMeansBehind(ts: seq<Trend>, i: nat)
    requires i < |ts| && PerformanceGaps(ts)[i].impactLevel == High
    ensures ts[i].improvement.Some? && PerformanceGaps(ts)[i].gap.value > 1000.0
  {
  }

  /**
   * `formatTimeDifference(ms)`: "+" for a non-negative value, then `(ms / 1000).toFixed(3)`
   * (which carries its own '-'), then "s".
   */
  function FormatTimeDifference(ms: real): (t: string)
    ensures |t| >= 6 && t[|t| - 1] == 's'
    ensures t[0] == '+' <==> ms >= 0.0
    ensures t[0] == '-' <==> ms < 0.0
    ensures ms >= 0.0 ==> SecondsShaped(t[1..|t| - 1]) && ms - 0.5 <= ReadSeconds(t[1..|t| - 1]) as real <= ms + 0.5
    ensures ms < 0.0 ==> SecondsShaped(t[..|t| - 1]) && ms - 0.5 <= ReadSeconds(t[..|t| - 1]) as real <= ms + 0.5
  {
    FixedSecondsReads(ms);
    var body := FixedSeconds(ms);
    var t := (if ms >= 0.0 then "+" else "") + body + "s";
    assert ms >= 0.0 ==> t[1..|t| - 1] == body;
    assert ms < 0.0 ==> t[..|t| - 1] == body;
    t
  }

  /** One of the fixed suggestions in the lap-versus-lap analysis. */
  datatype Area = Area(area: string, potentialGain: nat)

  const ImprovementAreas: seq<Area> := [
    Area("Braking Points", 250), Area("Cornering Speed", 180), Area("Throttle Application", 320)]

  /** `ComparisonAnalysis`: lap 2 minus lap 1, overall and per sector of lap 2. */
  datatype Comparison = Comparison(timeDifference: int, sectorDifferences: seq<Option<int>>, improvementAreas: seq<Area>)

  /**
   * `lap2.lapTime - lap1.lapTime` and `lap2.sectorTimes.map((s, i) => s - lap1.sectorTimes[i])`,
   * a sector lap 1 lacks giving NaN.
   */
  function Compare(lap1: Lap, lap2: Lap): (c: Comparison)
    ensures c.timeDifference + lap1.lapTime == lap2.lapTime
    ensures |c.sectorDifferences| == |lap2.sectorTimes|
    ensures forall i :: 0 <= i < |lap2.sectorTimes| ==>
      (c.sectorDifferences[i].Some? <==> i < |lap1.sectorTimes|)
    ensures forall i :: 0 <= i < |lap2.sectorTimes| && i < |lap1.sectorTimes| ==>
      c.sectorDifferences[i].value + lap1.sectorTimes[i] == lap2.sectorTimes[i]
    ensures c.improvementAreas == ImprovementAreas
  {
    var n := |lap2.sectorTimes|;
    Comparison(
      lap2.lapTime - lap1.lapTime,
      seq(n, i requires 0 <= i < n =>
        if i < |lap1.sectorTimes| then Some(lap2.sectorTimes[i] - lap1.sectorTimes[i]) else None),
      ImprovementAreas)
  }

  /** Comparing the other way round negates every difference. */
  lemma CompareSwapped(lap1: Lap, lap2: Lap)
    requires |lap1.sectorTimes| == |lap2.sectorTimes|
    ensures Compare(lap2, lap1).timeDifference == -Compare(lap1, lap2).timeDifference
    ensures forall i :: 0 <= i < |lap1.sectorTimes| ==>
      Compare(lap2, lap1).sectorDifferences[i].value == -Compare(lap1, lap2).sectorDifferences[i].value
  {
  }

  /** `getTraditionalAnalysis`: no analysis unless both selected ids name a lap. */
  function TraditionalAnalysis(laps: seq<Lap>, id1: string, id2: string): (c: Option<Comparison>)
    ensures c.None? <==> FindById(laps, id1).None? || FindById(laps, id2).None?
    ensures c.Some? ==> c.value == Compare(FindById(laps, id1).value, FindById(laps, id2).value)
  {
    match (FindById(laps, id1), FindById(laps, id2))
    case (Some(l1), Some(l2)) => Some(Compare(l1, l2))
    case _ => None
  }

  /** One bar group of `sectorComparisonData`, in seconds. */
  datatype SectorRow = SectorRow(sector: string, lap1: Option<real>, lap2: Option<real>, difference: Option<real>)

  function SectorSeconds(lap: Lap, k: nat): (s: Option<real>)
    ensures s.Some? <==> k < |lap.sectorTimes|
    ensures s.Some? ==> s.value * 1000.0 == lap.sectorTimes[k] as real
  {
    if k < |lap.sectorTimes| then Some(lap.sectorTimes[k] as real / 1000.0) else None
  }

  /** `sectorComparisonData`: three rows when both laps are chosen, none otherwise. */
  function SectorComparison(lap1: Option<Lap>, lap2: Option<Lap>): (rows: seq<SectorRow>)
    ensures |rows| == (if lap1.Some? && lap2.Some? then 3 else 0)
    ensures forall k :: 0 <= k < |rows| ==>
      rows[k].sector == "Sector " + NatToString(k + 1)
      && rows[k].lap1 == SectorSeconds(lap1.value, k) && rows[k].lap2 == SectorSeconds(lap2.value, k)
      && rows[k].difference == Minus(rows[k].lap2, rows[k].lap1)
  {
    if lap1.None? || lap2.None? then []
    else
      var l1, l2 := lap1.value, lap2.value;
      seq(3, k requires 0 <= k < 3 =>
        var a, b := SectorSeconds(l1, k), SectorSeconds(l2, k);
        SectorRow("Sector " + NatToString(k + 1), a, b,
          if a.Some? && b.Some? then Some((l2.sectorTimes[k] - l1.sectorTimes[k]) as real / 1000.0) else None))
  }

  /**
   * The radar score `Math.max(0, 100 - |improvement| / fasterAverage * 100)`: a zero
   * average gives 0 for a non-zero improvement (100 minus infinity) and NaN for zero
   * over zero.
   */
  function RadarScore(improvement: Option<real>, fasterAverage: Option<real>): (score: Option<real>)
    ensures improvement.None? || fasterAverage.None? ==> score.None?
    ensures score.Some? ==> score.value >= 0.0
    ensures improvement.Some? && fasterAverage.Some? && fasterAverage.value > 0.0 ==>
      score.Some? && score.value <= 100.0 && (score.value == 100.0 <==> improvement.value == 0.0)
  {
    if improvement.None? || fasterAverage.None? then None
    else
      var f := fasterAverage.value;
      if f == 0.0 then (if improvement.value == 0.0 then None else Some(0.0))
      else
        var raw := 100.0 - AbsReal(improvement.value) / f * 100.0;
        Some(if raw < 0.0 then 0.0 else raw)
  }

  /** `s.split(' ')[0]`: everything before the first space. */
  function FirstWord(s: string): (w: string)
    ensures w <= s && ' ' !in w
    ensures |w| < |s| ==> s[|w|] == ' '
  {
    if s == [] || s[0] == ' ' then [] else [s[0]] + FirstWord(s[1..])
  }

  /** One point of the radar chart. */
  datatype RadarPoint = RadarPoint(metric: string, user: Option<real>, topDrivers: real, fullMetric: string)

  /** The chart label as written: the first word of the category. */
  function RadarMetricAsWritten(category: string): string
  {
    FirstWord(category)
  }

  /** The chart label with the trailing " Performance" dropped, which keeps the three sectors apart. */
  function RadarMetric(category: string): string
  {
    if EndsWith(category, " Performance") then category[..|category| - 12] else category
  }

  function RadarPoints(ts: seq<Trend>, short: string -> string): (points: seq<RadarPoint>)
    ensures |points| == |ts|
    ensures forall i :: 0 <= i < |ts| ==>
      points[i] == RadarPoint(short(ts[i].category), RadarScore(ts[i].improvement, ts[i].fasterAverage), 100.0, ts[i].category)
  {
    seq(|ts|, i requires 0 <= i < |ts| =>
      RadarPoint(short(ts[i].category), RadarScore(ts[i].improvement, ts[i].fasterAverage), 100.0, ts[i].category))
  }

  /** `radarData` as written. */
  function RadarDataAsWritten(ts: seq<Trend>): seq<RadarPoint>
  {
    RadarPoints(ts, RadarMetricAsWritten)
  }

  /** `radarData` with labels that tell the three sectors apart. */
  function RadarData(ts: seq<Trend>): seq<RadarPoint>
  {
    RadarPoints(ts, RadarMetric)
  }

  /** The tooltip's `labelFormatter`: the full category of the first point with the hovered label. */
  function TooltipLabel(points: seq<RadarPoint>, hovered: string): string
  {
    if |points| == 0 then hovered
    else if points[0].metric == hovered then points[0].fullMetric
    else TooltipLabel(points[1..], hovered)
  }

  /** With pairwise different labels, the tooltip of each point names that point's own category. */
  lemma {:induction false} TooltipOfDistinctLabels(points: seq<RadarPoint>, i: nat)
    requires i < |points|
    requires forall p, q :: 0 <= p < q < |points| ==> points[p].metric != points[q].metric
    ensures TooltipLabel(points, points[i].metric) == points[i].fullMetric
  {
    if i > 0 {
      assert points[0].metric != points[i].metric;
      TooltipOfDistinctLabels(points[1..], i - 1);
    }
  }

  lemma {:induction false} FirstWordOf(w: string, rest: string)
    requires ' ' !in w && (rest == [] || rest[0] == ' ')
    ensures FirstWord(w + rest) == w
  {
    if w != [] {
      assert (w + rest)[1..] == w[1..] + rest;
      FirstWordOf(w[1..], rest);
    }
  }

  lemma FirstWordOverall()
    ensures FirstWord("Overall Lap Time") == "Overall"
  {
    FirstWordOf("Overall", " Lap Time");
    assert "Overall" + " Lap Time" == "Overall Lap Time";
  }

  lemma FirstWordSector(digit: char)
    requires digit != ' '
    ensures FirstWord(SectorCategory(digit)) == "Sector"
  {
    FirstWordOf("Sector", " " + [digit] + " Performance");
    assert "Sector" + (" " + [digit] + " Performance") == SectorCategory(digit);
  }

  lemma SecondMatch(points: seq<RadarPoint>, hovered: string)
    requires |points| >= 2 && points[0].metric != hovered && points[1].metric == hovered
    ensures TooltipLabel(points, hovered) == points[1].fullMetric
  {
    assert points[1..][0] == points[1];
  }

  /** As written, hovering the third sector's point shows the first sector's name. */
  lemma SectorTooltipsCollapse(user: seq<Lap>, faster: seq<Lap>)
    requires |user| > 0 && |faster| > 0
    ensures var points := RadarDataAsWritten(TrendAnalysis(user, faster));
      TooltipLabel(points, points[3].metric) == Categories[1] && points[3].fullMetric == Categories[3]
  {
    var ts := TrendAnalysis(user, faster);
    var points := RadarDataAsWritten(ts);
    FirstWordOverall();
    FirstWordSector('1');
    FirstWordSector('3');
    assert points[0].metric == "Overall" && points[1].metric == "Sector" && points[3].metric == "Sector";
    SecondMatch(points, "Sector");
  }

  /** The corrected chart labels, category by category. */
  const RadarLabels: seq<string> := [
    "Overall Lap Time", "Sector " + ['1'], "Sector " + ['2'], "Sector " + ['3'], "Top Speed", "Average Speed"]

  /** A category without the " Performance" suffix is its own label. */
  lemma RadarMetricKeeps(category: string, k: nat)
    requires |category| < 12 || (k < 12 && category[|category| - 12 + k] != " Performance"[k])
    ensures RadarMetric(category) == category
  {
  }

  lemma RadarMetricSector(digit: char)
    ensures RadarMetric(SectorCategory(digit)) == "Sector " + [digit]
  {
    var c := SectorCategory(digit);
    assert c[|c| - 12..] == " Performance";
    assert c[..|c| - 12] == "Sector " + [digit];
  }

  lemma KeptLabels()
    ensures RadarMetric(Categories[0]) == RadarLabels[0]
    ensures RadarMetric(Categories[4]) == RadarLabels[4]
    ensures RadarMetric(Categories[5]) == RadarLabels[5]
  {
    var c := Categories;
    assert c[0] == RadarLabels[0] && c[4] == RadarLabels[4] && c[5] == RadarLabels[5];
    RadarMetricKeeps(c[0], 0);
    RadarMetricKeeps(c[4], 0);
    RadarMetricKeeps(c[5], 0);
  }

  lemma SectorLabels()
    ensures RadarMetric(Categories[1]) == RadarLabels[1]
    ensures RadarMetric(Categories[2]) == RadarLabels[2]
    ensures RadarMetric(Categories[3]) == RadarLabels[3]
  {
    RadarMetricSector('1');
    RadarMetricSector('2');
    RadarMetricSector('3');
  }

  lemma RadarMetricsOfCategories()
    ensures forall k :: 0 <= k < 6 ==> RadarMetric(Categories[k]) == RadarLabels[k]
  {
    KeptLabels();
    SectorLabels();
  }

  /** The corrected labels are pairwise different. */
  lemma RadarLabelsDistinct()
    ensures forall p, q :: 0 <= p < q < 6 ==> RadarLabels[p] != RadarLabels[q]
  {
    assert |RadarLabels[0]| == 16 && |RadarLabels[4]| == 9 && |RadarLabels[5]| == 13;
    assert forall k :: 1 <= k < 4 ==> |RadarLabels[k]| == 8;
    assert RadarLabels[1][7] == '1' && RadarLabels[2][7] == '2' && RadarLabels[3][7] == '3';
  }

  /** Over the six categories, the corrected labels are pairwise different. */
  lemma RadarDataDistinct(ts: seq<Trend>)
    requires |ts| == 6 && forall k :: 0 <= k < 6 ==> ts[k].category == Categories[k]
    ensures var points := RadarData(ts);
      forall p, q :: 0 <= p < q < |points| ==> points[p].metric != points[q].metric
  {
    var points := RadarData(ts);
    RadarMetricsOfCategories();
    RadarLabelsDistinct();
    assert forall k :: 0 <= k < 6 ==> points[k].metric == RadarLabels[k];
  }

  /** With the corrected labels, every point's tooltip names its own category. */
  lemma TooltipNamesEachPoint(user: seq<Lap>, faster: seq<Lap>, i: nat)
    requires i < |TrendAnalysis(user, faster)|
    ensures TooltipLabel(RadarData(TrendAnalysis(user, faster)), RadarData(TrendAnalysis(user, faster))[i].metric)
      == TrendAnalysis(user, faster)[i].category
  {
    var ts := TrendAnalysis(user, faster);
    RadarDataDistinct(ts);
    TooltipOfDistinctLabels(RadarData(ts), i);
  }

  function TrackNames(laps: seq<Lap>): (names: seq<string>)
    ensures |names| == |laps| && forall i :: 0 <= i < |laps| ==> names[i] == laps[i].trackName
  {
    seq(|laps|, i requires 0 <= i < |laps| => laps[i].trackName)
  }

  function CarNames(laps: seq<Lap>): (names: seq<string>)
    ensures |names| == |laps| && forall i :: 0 <= i < |laps| ==> names[i] == laps[i].carModel
  {
    seq(|laps|, i requires 0 <= i < |laps| => laps[i].carModel)
  }

  /** The track selector's options: each track of the user's laps once, ascending. */
  function UniqueTracks(laps: seq<Lap>): (tracks: seq<string>)
    ensures StrictlySorted(tracks)
    ensures forall t :: t in tracks <==> exists i :: 0 <= i < |laps| && laps[i].trackName == t
  {
    var names := TrackNames(laps);
    assert forall t :: t in names <==> exists i :: 0 <= i < |laps| && names[i] == t;
    SortedUnique(names)
  }

  /** The car selector's options: each car of the user's laps once, ascending. */
  function UniqueCars(laps: seq<Lap>): (cars: seq<string>)
    ensures StrictlySorted(cars)
    ensures forall c :: c in cars <==> exists i :: 0 <= i < |laps| && laps[i].carModel == c
  {
    var names := CarNames(laps);
    assert forall c :: c in names <==> exists i :: 0 <= i < |laps| && names[i] == c;
    SortedUnique(names)
  }
}
