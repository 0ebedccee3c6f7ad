/**
 * The application shell: the lap list kept in browser storage, the demo lap shown on
 * a first visit, adding an uploaded lap, and the view the sidebar selects.
 */
module App {
  import opened Wrappers
  import opened Racing
  import Json
  import Dashboard

  /** The storage key the lap list lives under. */
  const StorageKey := "assettoCorsa_laps"

  const DayMs := 86400000

  /** The lap shown when nothing is stored, recorded two days before `now`. */
  function DemoLap(now: int): Lap
  {
    Lap("1", "Spa-Francorchamps", "Ferrari 488 GT3", 125456, now - DayMs * 2, Dry, 22,
        [42150, 41200, 42106], 285.0, 142.8)
  }

  /** The demo lap is self-consistent: its three sectors add up to its lap time, and it is dated two days back. */
  lemma DemoLapConsistent(now: int)
    ensures var demo := DemoLap(now);
      && |demo.sectorTimes| == 3
      && demo.sectorTimes[0] + demo.sectorTimes[1] + demo.sectorTimes[2] == demo.lapTime
      && demo.averageSpeed <= demo.topSpeed
      && demo.dateRecorded == now - 172800000
  {
  }

  // ---- The stored lap list: `JSON.stringify(laps)` and the parse on load ----

  function WeatherText(w: Weather): string
  {
    match w
    case Dry => "dry"
    case Wet => "wet"
    case Mixed => "mixed"
  }

  function WeatherOf(s: string): (w: Option<Weather>)
    ensures w.Some? ==> WeatherText(w.value) == s
  {
    if s == "dry" then Some(Dry) else if s == "wet" then Some(Wet) else if s == "mixed" then Some(Mixed) else None
  }

  function IntsToJson(xs: seq<int>): (vs: seq<Json.Value>)
    ensures |vs| == |xs|
    ensures forall i :: 0 <= i < |xs| ==> vs[i] == Json.Number(xs[i] as real)
  {
    seq(|xs|, i requires 0 <= i < |xs| => Json.Number(xs[i] as real))
  }

  /** A JSON number holding a whole value. */
  predicate IsInt(v: Json.Value)
  {
    v.Number? && v.n.Floor as real == v.n
  }

  function IntsOf(vs: seq<Json.Value>): (xs: Option<seq<int>>)
    ensures xs.Some? <==> forall i :: 0 <= i < |vs| ==> IsInt(vs[i])
    ensures xs.Some? ==> |xs.value| == |vs| && forall i :: 0 <= i < |vs| ==> xs.value[i] as real == vs[i].n
  {
    if forall i :: 0 <= i < |vs| ==> IsInt(vs[i])
    then Some(seq(|vs|, i requires 0 <= i < |vs| => vs[i].n.Floor))
    else None
  }

  /**
   * A lap as `JSON.stringify` writes it. The date is written as its epoch milliseconds;
   * the source writes the equivalent ISO text, which `new Date` reads back to the same instant.
   */
  function LapToJson(lap: Lap): Json.Value
  {
    Json.Object(map[
      "id" := Json.Str(lap.id),
      "trackName" := Json.Str(lap.trackName),
      "carModel" := Json.Str(lap.carModel),
      "lapTime" := Json.Number(lap.lapTime as real),
      "dateRecorded" := Json.Number(lap.dateRecorded as real),
      "weather" := Json.Str(WeatherText(lap.weather)),
      "temperature" := Json.Number(lap.temperature as real),
      "sectorTimes" := Json.Array(IntsToJson(lap.sectorTimes)),
      "topSpeed" := Json.Number(lap.topSpeed),
      "averageSpeed" := Json.Number(lap.averageSpeed)])
  }

  function StrAt(v: Json.Value, key: string): Option<string>
  {
    if v.Object? && key in v.fields && v.fields[key].Str? then Some(v.fields[key].s) else None
  }

  function IntAt(v: Json.Value, key: string): Option<int>
  {
    if v.Object? && key in v.fields && IsInt(v.fields[key]) then Some(v.fields[key].n.Floor) else None
  }

  function RealAt(v: Json.Value, key: string): Option<real>
  {
    if v.Object? && key in v.fields && v.fields[key].Number? then Some(v.fields[key].n) else None
  }

  function IntsAt(v: Json.Value, key: string): Option<seq<int>>
  {
    if v.Object? && key in v.fields && v.fields[key].Array? then IntsOf(v.fields[key].elems) else None
  }

  /** One stored entry read back as a lap, when every field has its type. */
  function LapOf(v: Json.Value): Option<Lap>
  {
    var id, track, car := StrAt(v, "id"), StrAt(v, "trackName"), StrAt(v, "carModel");
    var lapTime, date, temp := IntAt(v, "lapTime"), IntAt(v, "dateRecorded"), IntAt(v, "temperature");
    var weather := if StrAt(v, "weather").Some? then WeatherOf(StrAt(v, "weather").value) else None;
    var sectors, top, avg := IntsAt(v, "sectorTimes"), RealAt(v, "topSpeed"), RealAt(v, "averageSpeed");
    if id.Some? && track.Some? && car.Some? && lapTime.Some? && date.Some? && temp.Some?
       && weather.Some? && sectors.Some? && top.Some? && avg.Some?
    then Some(Lap(id.value, track.value, car.value, lapTime.value, date.value, weather.value,
                  temp.value, sectors.value, top.value, avg.value))
    else None
  }

  lemma IntsRoundTrip(xs: seq<int>)
    ensures IntsOf(IntsToJson(xs)) == Some(xs)
  {
    var back := IntsOf(IntsToJson(xs));
    assert back.Some?;
    assert back.value == xs;
  }

  lemma WeatherRoundTrip(w: Weather)
    ensures WeatherOf(WeatherText(w)) == Some(w)
  {
  }

  /** Every field of a written lap reads back as it was. */
  lemma LapFields(lap: Lap)
    ensures var v := LapToJson(lap);
      && StrAt(v, "id") == Some(lap.id)
      && StrAt(v, "trackName") == Some(lap.trackName)
      && StrAt(v, "carModel") == Some(lap.carModel)
      && IntAt(v, "lapTime") == Some(lap.lapTime)
      && IntAt(v, "dateRecorded") == Some(lap.dateRecorded)
      && IntAt(v, "temperature") == Some(lap.temperature)
      && StrAt(v, "weather") == Some(WeatherText(lap.weather))
      && IntsAt(v, "sectorTimes") == Some(lap.sectorTimes)
      && RealAt(v, "topSpeed") == Some(lap.topSpeed)
      && RealAt(v, "averageSpeed") == Some(lap.averageSpeed)
  {
    var v := LapToJson(lap);
    assert v.fields["id"] == Json.Str(lap.id);
    assert v.fields["trackName"] == Json.Str(lap.trackName);
    assert v.fields["carModel"] == Json.Str(lap.carModel);
    assert v.fields["lapTime"] == Json.Number(lap.lapTime as real);
    assert v.fields["dateRecorded"] == Json.Number(lap.dateRecorded as real);
    assert v.fields["temperature"] == Json.Number(lap.temperature as real);
    assert v.fields["weather"] == Json.Str(WeatherText(lap.weather));
    assert v.fields["sectorTimes"] == Json.Array(IntsToJson(lap.sectorTimes));
    assert v.fields["topSpeed"] == Json.Number(lap.topSpeed);
    assert v.fields["averageSpeed"] == Json.Number(lap.averageSpeed);
    IntsRoundTrip(lap.sectorTimes);
  }

  /** A stored lap is restored with every field kept. */
  lemma LapRoundTrip(lap: Lap)
    ensures LapOf(LapToJson(lap)) == Some(lap)
  {
    LapFields(lap);
    WeatherRoundTrip(lap.weather);
  }

  function LapsToJson(laps: seq<Lap>): (v: Json.Value)
    ensures v.Array? && |v.elems| == |laps|
    ensures forall i :: 0 <= i < |laps| ==> v.elems[i] == LapToJson(laps[i])
  {
    Json.Array(seq(|laps|, i requires 0 <= i < |laps| => LapToJson(laps[i])))
  }

  /** `JSON.parse(savedLaps).map(...)`: the stored list, when it is an array of laps. */
  function LapsOf(v: Json.Value): (laps: Option<seq<Lap>>)
    ensures laps.Some? ==> v.Array? && |laps.value| == |v.elems|
    ensures laps.Some? ==> forall i :: 0 <= i < |v.elems| ==> LapOf(v.elems[i]) == Some(laps.value[i])
  {
    if v.Array? && forall i :: 0 <= i < |v.elems| ==> LapOf(v.elems[i]).Some?
    then Some(seq(|v.elems|, i requires 0 <= i < |v.elems| => LapOf(v.elems[i]).value))
    else None
  }

  /** Reloading the page restores exactly the laps that were saved, in order. */
  lemma {:induction false} LapsRoundTrip(laps: seq<Lap>)
    ensures LapsOf(LapsToJson(laps)) == Some(laps)
  {
    var v := LapsToJson(laps);
    forall i | 0 <= i < |laps|
      ensures LapOf(v.elems[i]) == Some(laps[i])
    {
      LapRoundTrip(laps[i]);
    }
    assert LapsOf(v).value == laps;
  }

  // ---- The content area ----

  /** The component the content area shows, with the props it is given. */
  datatype Screen =
    | DashboardScreen(laps: seq<Lap>, telemetry: seq<Json.Value>)
    | ComparisonScreen(laps: seq<Lap>)
    | TelemetryScreen(laps: seq<Lap>, telemetry: seq<Json.Value>)
    | LeaderboardScreen(userLaps: seq<Lap>)

  /** The four view keys the sidebar sets. */
  predicate NamedView(view: string)
  {
    view == "dashboard" || view == "comparison" || view == "telemetry" || view == "leaderboard"
  }

  /** The key under which a screen is selected. */
  function ViewKey(s: Screen): string
  {
    match s
    case DashboardScreen(_, _) => "dashboard"
    case ComparisonScreen(_) => "comparison"
    case TelemetryScreen(_, _) => "telemetry"
    case LeaderboardScreen(_) => "leaderboard"
  }

  /** `renderContent`: the component for the active view; any other key shows the dashboard. */
  function RenderContent(activeView: string, laps: seq<Lap>, telemetry: seq<Json.Value>): (s: Screen)
    ensures ViewKey(s) == if NamedView(activeView) then activeView else "dashboard"
    ensures match s
      case DashboardScreen(l, t) => l == laps && t == telemetry
      case ComparisonScreen(l) => l == laps
      case TelemetryScreen(l, t) => l == laps && t == telemetry
      case LeaderboardScreen(l) => l == laps
  {
    if activeView == "comparison" then ComparisonScreen(laps)
    else if activeView == "telemetry" then TelemetryScreen(laps, telemetry)
    else if activeView == "leaderboard" then LeaderboardScreen(laps)
    else DashboardScreen(laps, telemetry)
  }

  /** Every screen is reached from its own key: the sidebar can show each of the four views. */
  lemma EveryScreenReachable(s: Screen)
    ensures var laps := if s.LeaderboardScreen? then s.userLaps else s.laps;
      var telemetry := if s.DashboardScreen? || s.TelemetryScreen? then s.telemetry else [];
      RenderContent(ViewKey(s), laps, telemetry) == s
  {
  }

  /** The shell's state. */
  class AppState {
    var laps: seq<Lap>
    var lastUploadedTelemetry: seq<Json.Value>
    var activeView: string
    var uploadDialogOpen: bool
    /** The browser storage entry under `StorageKey`. */
    var storage: Json.Stored

    /** After the save effect has run, storage holds the current lap list. */
    predicate Saved()
      reads this
    {
      storage == Json.Parsed(LapsToJson(laps))
    }

    /** The first render, over whatever storage holds from earlier visits. */
    constructor (stored: Json.Stored)
      ensures laps == [] && lastUploadedTelemetry == [] && activeView == "dashboard"
      ensures !uploadDialogOpen && storage == stored
    {
      laps := [];
      lastUploadedTelemetry := [];
      activeView := "dashboard";
      uploadDialogOpen := false;
      storage := stored;
    }

    /**
     * The mount effects: with nothing stored, the demo lap; otherwise the stored laps;
     * then the list is written back. The stored text must be a lap list.
     */
    method Mount(now: int)
      requires storage.Absent? || (storage.Parsed? && LapsOf(storage.value).Some?)
      modifies this
      ensures old(storage).Absent? ==> laps == [DemoLap(now)]
      ensures old(storage).Parsed? ==> Some(laps) == LapsOf(old(storage).value)
      ensures Saved()
      ensures lastUploadedTelemetry == old(lastUploadedTelemetry) && activeView == old(activeView)
      ensures uploadDialogOpen == old(uploadDialogOpen)
    {
      if storage.Parsed? {
        laps := LapsOf(storage.value).value;
      } else {
        laps := [DemoLap(now)];
      }
      storage := Json.Parsed(LapsToJson(laps));
    }

    /**
     * `handleAddLap`: appends the lap, keeps the telemetry when some was given, closes
     * the upload dialog, and the save effect writes the new list.
     */
    method HandleAddLap(newLap: Lap, telemetryData: Option<seq<Json.Value>>)
      modifies this
      ensures laps == old(laps) + [newLap]
      ensures lastUploadedTelemetry ==
        if telemetryData.Some? && |telemetryData.value| > 0 then telemetryData.value else old(lastUploadedTelemetry)
      ensures !uploadDialogOpen
      ensures Saved()
      ensures activeView == old(activeView)
    {
      laps := laps + [newLap];
      if telemetryData.Some? && |telemetryData.value| > 0 {
        lastUploadedTelemetry := telemetryData.value;
      }
      uploadDialogOpen := false;
      storage := Json.Parsed(LapsToJson(laps));
    }

    /**
     * An accepted upload as the panel and the shell are wired together: the panel calls
     * `onAddLap(newLap)` with the lap alone, so the uploaded samples never reach the
     * shell and the dashboard's telemetry preview stays hidden.
     */
    method AddUploadedLapAsWritten(newLap: Lap, samples: seq<Json.Value>)
      modifies this
      ensures laps == old(laps) + [newLap] && !uploadDialogOpen && Saved()
      ensures lastUploadedTelemetry == old(lastUploadedTelemetry)
      ensures old(lastUploadedTelemetry) == [] ==> Dashboard.TelemetryPreview(lastUploadedTelemetry).None?
      ensures activeView == old(activeView)
    {
      HandleAddLap(newLap, None);
    }

    /** An accepted upload with its samples passed along, as the shell's handler expects. */
    method AddUploadedLap(newLap: Lap, samples: seq<Json.Value>)
      modifies this
      ensures laps == old(laps) + [newLap] && !uploadDialogOpen && Saved()
      ensures |samples| > 0 ==> lastUploadedTelemetry == samples
      ensures |samples| > 0 ==> Dashboard.TelemetryPreview(lastUploadedTelemetry).Some?
      ensures |samples| == 0 ==> lastUploadedTelemetry == old(lastUploadedTelemetry)
      ensures activeView == old(activeView)
    {
      HandleAddLap(newLap, Some(samples));
    }

    /** A sidebar button: makes its view the active one. */
    method Select(view: string)
      modifies this
      ensures activeView == view
      ensures laps == old(laps) && lastUploadedTelemetry == old(lastUploadedTelemetry)
      ensures uploadDialogOpen == old(uploadDialogOpen) && storage == old(storage)
    {
      activeView := view;
    }

    /** The dialog's `onOpenChange`. */
    method SetUploadDialogOpen(open: bool)
      modifies this
      ensures uploadDialogOpen == open
      ensures laps == old(laps) && lastUploadedTelemetry == old(lastUploadedTelemetry)
      ensures activeView == old(activeView) && storage == old(storage)
    {
      uploadDialogOpen := open;
    }
  }
}
