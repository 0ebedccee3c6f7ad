/**
 * The simulator-side logger: it samples speed, gear, throttle and brake every quarter
 * of a second, and every ten seconds rewrites its session file with the samples and a
 * metadata block. The simulator's API, the clock and the file system are parameters.
 */
module DeltaSync {
  import opened Wrappers
  import opened Text
  import opened TimeFormat
  import Json
  import LapUpload
  import TelemetryAnalysis
  import TelemetryMetadata

  const AppName := "DeltaSync"
  /** Seconds between two file writes. */
  const SaveInterval: real := 10.0
  /** Seconds between two samples. */
  const SampleInterval: real := 0.25

  /** `c.isalnum()`, over ASCII letters and digits. */
  predicate IsAlnum(c: char)
  {
    ('a' <= c <= 'z') || ('A' <= c <= 'Z') || ('0' <= c <= '9')
  }

  /** A character `_safe_name` keeps. */
  predicate SafeChar(c: char)
  {
    IsAlnum(c) || c == '-' || c == '_'
  }

  function Sanitize(raw: string): (s: string)
    ensures |s| == |raw|
    ensures forall i :: 0 <= i < |raw| ==> s[i] == (if SafeChar(raw[i]) then raw[i] else '_')
  {
    if raw == [] then [] else Sanitize(raw[..|raw| - 1]) + [if SafeChar(raw[|raw| - 1]) then raw[|raw| - 1] else '_']
  }

  /** `_safe_name`: "unknown" for an empty name; otherwise each unsafe character becomes '_'. */
  function SafeName(raw: string): (s: string)
    ensures raw == [] ==> s == "unknown"
    ensures raw != [] ==> |s| == |raw|
    ensures raw != [] ==> forall i :: 0 <= i < |raw| ==> s[i] == (if SafeChar(raw[i]) then raw[i] else '_')
    ensures |s| > 0 && forall i :: 0 <= i < |s| ==> SafeChar(s[i])
  {
    if raw == [] then "unknown" else Sanitize(raw)
  }

  /** A safe name is its own safe name. */
  lemma SafeNameIdempotent(raw: string)
    ensures SafeName(SafeName(raw)) == SafeName(raw)
  {
    var s := SafeName(raw);
    assert SafeName(s) == s;
  }

  /** `"telemetry_{}_{}_{}.json".format(safe_track, safe_car, timestamp)`. */
  function LogFileName(car: string, track: string, timestamp: string): string
  {
    "telemetry_" + SafeName(track) + "_" + SafeName(car) + "_" + timestamp + ".json"
  }

  lemma StartsWithJoin(p: string, y: string)
    ensures StartsWith(p + y, p)
  {
    assert (p + y)[..|p|] == p;
  }

  lemma StartsWithLonger(x: string, y: string, p: string)
    requires StartsWith(x, p)
    ensures StartsWith(x + y, p)
  {
    assert (x + y)[..|p|] == x[..|p|];
  }

  lemma EndsWithJoin(x: string, q: string)
    ensures EndsWith(x + q, q)
  {
    assert (x + q)[|x|..] == q;
  }

  /**
   * The session file name starts with "telemetry_" and ends with ".json" whatever the
   * names, so the upload panel's drop zone takes it.
   */
  lemma LogFileNameShape(car: string, track: string, timestamp: string)
    ensures StartsWith(LogFileName(car, track, timestamp), "telemetry_")
    ensures EndsWith(LogFileName(car, track, timestamp), ".json")
    ensures LapUpload.DropAccepted(LogFileName(car, track, timestamp))
  {
    var p := "telemetry_";
    var x1 := p + SafeName(track);
    var x2 := x1 + "_";
    var x3 := x2 + SafeName(car);
    var x4 := x3 + "_";
    var x5 := x4 + timestamp;
    StartsWithJoin(p, SafeName(track));
    StartsWithLonger(x1, "_", p);
    StartsWithLonger(x2, SafeName(car), p);
    StartsWithLonger(x3, "_", p);
    StartsWithLonger(x4, timestamp, p);
    StartsWithLonger(x5, ".json", p);
    EndsWithJoin(x5, ".json");
    assert LogFileName(car, track, timestamp) == x5 + ".json";
  }

  /** The gear as the logger writes it: 0 is reverse, 1 neutral, `g` the forward gear `g - 1`. */
  function GearText(gear: int): (t: string)
    ensures gear == 0 <==> t == "R"
    ensures gear == 1 <==> t == "N"
  {
    if gear == 0 then "R"
    else if gear == 1 then "N"
    else
      var t := IntToString(gear - 1);
      IntToStringReads(gear - 1);
      assert t != "R" && t != "N" by {
        assert t[0] == '-' || IsDigit(t[0]);
      }
      t
  }

  /** Reads a gear text back. */
  function ParseGear(t: string): int
    requires t == "R" || t == "N" || (|t| >= 1 && (if t[0] == '-' then AllDigits(t[1..]) else AllDigits(t)))
  {
    if t == "R" then 0 else if t == "N" then 1 else ParseInt(t) + 1
  }

  /** Different gears are logged as different texts. */
  lemma GearTextReads(gear: int)
    ensures var t := GearText(gear);
      (t == "R" || t == "N" || (|t| >= 1 && (if t[0] == '-' then AllDigits(t[1..]) else AllDigits(t))))
      && ParseGear(t) == gear
  {
    if gear != 0 && gear != 1 {
      IntToStringReads(gear - 1);
    }
  }

  /** Python's `round(x, digits)` on the exact value: to the nearest multiple of 10^-digits, ties to even. */
  function Round(x: real, digits: nat): (r: real)
    ensures x - 0.5 / Pow10(digits) <= r <= x + 0.5 / Pow10(digits)
    ensures RoundedTo(x, digits, r)
  {
    var scale := Pow10(digits);
    var k := RoundHalfEven(x * scale);
    DivideBounds(k as real, x * scale, scale);
    RoundedAtGridPoint(x, scale, k);
    k as real / scale
  }

  /** The integer nearest to `y`, the even one on a tie. */
  function RoundHalfEven(y: real): (k: int)
    ensures NearestEven(y, k)
  {
    var n := y.Floor;
    var frac := y - n as real;
    if frac > 0.5 then n + 1 else if frac < 0.5 then n else if n % 2 == 0 then n else n + 1
  }

  /** `k` is an integer nearest to `y`, and an even one when `y` lies half-way between two. */
  predicate NearestEven(y: real, k: int)
  {
    k as real - 0.5 <= y <= k as real + 0.5
    && ((y == k as real - 0.5 || y == k as real + 0.5) ==> k % 2 == 0)
  }

  /** `r` is a multiple of 1/scale, and the nearest-even multiple to `x`. */
  predicate RoundedAt(x: real, scale: real, r: real)
  {
    (r * scale).Floor as real == r * scale && NearestEven(x * scale, (r * scale).Floor)
  }

  /** `r` is a multiple of 10^-digits, and the nearest-even multiple to `x`. */
  predicate RoundedTo(x: real, digits: nat, r: real)
  {
    RoundedAt(x, Pow10(digits), r)
  }

  lemma RoundedAtGridPoint(x: real, scale: real, k: int)
    requires scale >= 1.0 && NearestEven(x * scale, k)
    ensures RoundedAt(x, scale, k as real / scale)
  {
    var r := k as real / scale;
    assert r * scale == k as real;
    assert (k as real).Floor == k;
  }

  lemma NearestEvenUnique(y: real, k: int, k': int)
    requires NearestEven(y, k) && NearestEven(y, k')
    ensures k == k'
  {
  }

  lemma RoundedAtUnique(x: real, scale: real, r: real, r': real)
    requires scale >= 1.0 && RoundedAt(x, scale, r) && RoundedAt(x, scale, r')
    ensures r == r'
  {
    NearestEvenUnique(x * scale, (r * scale).Floor, (r' * scale).Floor);
    assert (r - r') * scale == 0.0;
  }

  /** There is only one such value: `Round` is the value Python's rounding rule names. */
  lemma RoundUnique(x: real, digits: nat, r: real)
    requires RoundedTo(x, digits, r)
    ensures r == Round(x, digits)
  {
    RoundedAtUnique(x, Pow10(digits), r, Round(x, digits));
  }

  function Pow10(n: nat): (p: real)
    ensures p >= 1.0
  {
    if n == 0 then 1.0 else 10.0 * Pow10(n - 1)
  }

  lemma DivideBounds(k: real, y: real, scale: real)
    requires scale >= 1.0 && k - 0.5 <= y <= k + 0.5
    ensures y / scale - 0.5 / scale <= k / scale <= y / scale + 0.5 / scale
  {
  }

  /** One logged sample. */
  function Sample(speed: real, gear: int, throttle: real, brake: real): Json.Value
  {
    Json.Object(map[
      "speed" := Json.Number(Round(speed, 2)),
      "gear" := Json.Str(GearText(gear)),
      "throttle" := Json.Number(Round(throttle, 3)),
      "brake" := Json.Number(Round(brake, 3))])
  }

  /** Every logged sample carries the numeric series the telemetry chart draws, within rounding of the sensors. */
  lemma SampleFields(speed: real, gear: int, throttle: real, brake: real)
    ensures var s := Sample(speed, gear, throttle, brake);
      && Json.HasNumber(s, "speed") && Json.HasNumber(s, "throttle") && Json.HasNumber(s, "brake")
      && speed - 0.005 <= Json.NumberAt(s, "speed") <= speed + 0.005
      && throttle - 0.0005 <= Json.NumberAt(s, "throttle") <= throttle + 0.0005
      && brake - 0.0005 <= Json.NumberAt(s, "brake") <= brake + 0.0005
  {
    assert Pow10(2) == 100.0 && Pow10(3) == 1000.0;
  }

  /** `int(best_lap_ms) if best_lap_ms >= 0 else None`; a failed read counts as -1. */
  function BestLapField(bestLap: Option<real>): (v: Json.Value)
    ensures v.Null? <==> bestLap.None? || bestLap.value < 0.0
    ensures !v.Null? ==> v == Json.Number(bestLap.value.Floor as real) && bestLap.value.Floor >= 0
  {
    var ms := if bestLap.Some? then bestLap.value else -1.0;
    if ms >= 0.0 then Json.Number(ms.Floor as real) else Json.Null
  }

  /** The metadata block of a save. */
  function Metadata(car: string, track: string, bestLap: Option<real>, samples: nat, stamp: string): Json.Value
  {
    Json.Object(map[
      "car_name" := Json.Str(car),
      "track_name" := Json.Str(track),
      "best_lap_time_ms" := BestLapField(bestLap),
      "samples_logged" := Json.Number(samples as real),
      "last_save_timestamp" := Json.Str(stamp)])
  }

  /** The whole session file: metadata and every sample so far. */
  function LogDocument(metadata: Json.Value, samples: seq<Json.Value>): Json.Value
  {
    Json.Object(map["metadata" := metadata, "telemetry" := Json.Array(samples)])
  }

  /** The file `acMain` creates: an empty metadata block and no samples. */
  const InitialLog: Json.Value := LogDocument(Json.Object(map[]), [])

  /**
   * The file the logger writes is an object, and the upload panel accepts only a
   * top-level array: a session file is refused whatever it holds.
   */
  lemma UploadRefusesLog(metadata: Json.Value, samples: seq<Json.Value>)
    ensures !LapUpload.Accepts(Some(LogDocument(metadata, samples)))
  {
    LapUpload.RejectsWrappedTelemetry(metadata, samples);
  }

  /** The fields of a metadata block, read back one by one. */
  lemma MetadataFields(car: string, track: string, bestLap: Option<real>, samples: nat, stamp: string)
    ensures var meta := Metadata(car, track, bestLap, samples, stamp);
      && Json.Get(meta, "car_name") == Some(Json.Str(car))
      && Json.Get(meta, "track_name") == Some(Json.Str(track))
      && Json.Get(meta, "best_lap_time_ms") == Some(BestLapField(bestLap))
      && Json.HasNumber(meta, "samples_logged") && Json.NumberAt(meta, "samples_logged") == samples as real
      && Json.Get(meta, "last_save_timestamp") == Some(Json.Str(stamp))
  {
    var meta := Metadata(car, track, bestLap, samples, stamp);
    assert meta.fields["car_name"] == Json.Str(car);
    assert meta.fields["track_name"] == Json.Str(track);
    assert meta.fields["best_lap_time_ms"] == BestLapField(bestLap);
    assert meta.fields["samples_logged"] == Json.Number(samples as real);
  }

  /** The best lap the card shows for a logged best lap. */
  lemma BestLapRenders(car: string, track: string, bestLap: Option<real>, samples: nat, stamp: string)
    ensures var text := TelemetryMetadata.FormatLapTime(TelemetryMetadata.BestLapOf(Metadata(car, track, bestLap, samples, stamp)));
      && (text == "N/A" <==> bestLap.None? || bestLap.value < 1.0)
      && (bestLap.Some? && bestLap.value >= 1.0 ==> TimeShaped(text) && ReadTime(text) == bestLap.value.Floor)
  {
    var meta := Metadata(car, track, bestLap, samples, stamp);
    MetadataFields(car, track, bestLap, samples, stamp);
    if bestLap.Some? && bestLap.value >= 1.0 {
      var ms := bestLap.value.Floor;
      assert TelemetryMetadata.BestLapOf(meta) == Some(ms as real);
      TelemetryMetadata.FormatLapTimeOfWhole(ms);
    } else if bestLap.Some? && bestLap.value >= 0.0 {
      assert TelemetryMetadata.BestLapOf(meta) == Some(0.0);
    } else {
      assert TelemetryMetadata.BestLapOf(meta).None?;
    }
  }

  /**
   * The summary card shows what a save wrote: the car and track (or "Unknown" for an
   * empty name), the sample count, the save time when there is one, and the best lap
   * cut to whole milliseconds, or "N/A" when it was missing or under one millisecond.
   */
  lemma MetadataRenders(car: string, track: string, bestLap: Option<real>, samples: nat, stamp: string)
    ensures var card := TelemetryMetadata.Render(Some(Metadata(car, track, bestLap, samples, stamp)));
      && card.Some?
      && card.value.car == (if car == "" then Json.Str("Unknown") else Json.Str(car))
      && card.value.track == (if track == "" then Json.Str("Unknown") else Json.Str(track))
      && card.value.samples == Some(samples as real)
      && (card.value.loggedAt.Some? <==> stamp != "")
      && (card.value.bestLap == "N/A" <==> bestLap.None? || bestLap.value < 1.0)
      && (bestLap.Some? && bestLap.value >= 1.0 ==>
            TimeShaped(card.value.bestLap) && ReadTime(card.value.bestLap) == bestLap.value.Floor)
  {
    MetadataFields(car, track, bestLap, samples, stamp);
    BestLapRenders(car, track, bestLap, samples, stamp);
  }

  /**
   * What a session file holds at any time: its samples are a prefix of the samples in
   * memory, and its metadata is empty (the initial file) or counts exactly those samples.
   */
  predicate OnDisk(doc: Json.Value, samples: seq<Json.Value>)
  {
    && doc.Object? && "metadata" in doc.fields && "telemetry" in doc.fields
    && doc.fields["telemetry"].Array? && doc.fields["telemetry"].elems <= samples
    && (doc.fields["metadata"] == Json.Object(map[])
        || (Json.HasNumber(doc.fields["metadata"], "samples_logged")
            && Json.NumberAt(doc.fields["metadata"], "samples_logged") == |doc.fields["telemetry"].elems| as real))
  }

  lemma PresentAfterSample(data: seq<Json.Value>, sample: Json.Value, key: string)
    requires TelemetryAnalysis.Present(data, key) && Json.HasNumber(sample, key)
    ensures TelemetryAnalysis.Present(data + [sample], key)
  {
  }

  /** Samples recorded after a save leave the file a prefix of memory. */
  lemma OnDiskAfterSample(doc: Json.Value, data: seq<Json.Value>, sample: Json.Value)
    requires OnDisk(doc, data)
    ensures OnDisk(doc, data + [sample])
  {
    assert data <= data + [sample];
  }

  /** A save writes exactly the samples in memory, with a count that matches. */
  lemma OnDiskAfterSave(car: string, track: string, bestLap: Option<real>, stamp: string, data: seq<Json.Value>)
    ensures OnDisk(LogDocument(Metadata(car, track, bestLap, |data|, stamp), data), data)
  {
    MetadataFields(car, track, bestLap, |data|, stamp);
  }

  /** The module's state across simulator callbacks. */
  class Logger {
    var logFile: string
    var telemetryData: seq<Json.Value>
    var lastSaveTime: real
    var lastSampleTime: real
    var carName: string
    var trackName: string
    /** What this session last wrote to its log file, if anything. */
    var written: Option<Json.Value>

    /**
     * Time accumulated towards the next sample stays below the sampling interval, every
     * sample carries the numeric series the telemetry view draws, and what this session
     * wrote is a consistent snapshot of the samples in memory.
     */
    predicate Valid()
      reads this
    {
      && lastSampleTime < SampleInterval
      && TelemetryAnalysis.Present(telemetryData, "speed")
      && TelemetryAnalysis.Present(telemetryData, "throttle")
      && TelemetryAnalysis.Present(telemetryData, "brake")
      && (written.Some? ==> OnDisk(written.value, telemetryData))
    }

    /** The module's globals when the simulator loads it. */
    constructor ()
      ensures Valid()
      ensures logFile == "" && telemetryData == [] && lastSaveTime == 0.0 && lastSampleTime == 0.0
      ensures carName == "" && trackName == "" && written.None?
    {
      logFile := "";
      telemetryData := [];
      lastSaveTime := 0.0;
      lastSampleTime := 0.0;
      carName := "";
      trackName := "";
      written := None;
    }

    /**
     * `acMain`: reads the car and track (both empty if either read fails), names the
     * session file after them and the start time, and creates it empty unless it exists
     * or cannot be written.
     */
    method AcMain(car: Option<string>, track: Option<string>, timestamp: string, fileExists: bool, writeOk: bool)
      returns (name: string)
      requires Valid()
      modifies this
      ensures Valid() && name == AppName
      ensures car.Some? && track.Some? ==> carName == car.value && trackName == track.value
      ensures car.None? || track.None? ==> carName == "" && trackName == ""
      ensures logFile == LogFileName(carName, trackName, timestamp)
      ensures written == if !fileExists && writeOk then Some(InitialLog) else old(written)
      ensures telemetryData == old(telemetryData) && lastSaveTime == old(lastSaveTime)
      ensures lastSampleTime == old(lastSampleTime)
    {
      if car.Some? && track.Some? {
        carName, trackName := car.value, track.value;
      } else {
        carName, trackName := "", "";
      }
      logFile := LogFileName(carName, trackName, timestamp);
      if !fileExists && writeOk {
        written := Some(InitialLog);
      }
      name := AppName;
    }

    /**
     * `acUpdate(deltaT)`: once a quarter second has accumulated, records one sample;
     * then, if more than ten seconds have passed since the last save, rewrites the file
     * with the metadata and all samples. `now` is the wall clock; `bestLap` is the
     * simulator's best lap (`None` when reading it fails); `writeOk` says whether the
     * write succeeds; `doneAt` is the clock read again after the write.
     */
    method AcUpdate(deltaT: real, speed: real, gear: int, throttle: real, brake: real,
                    now: real, bestLap: Option<real>, stamp: string, writeOk: bool, doneAt: real)
      returns (sampled: bool, saved: bool)
      requires Valid()
      modifies this
      ensures Valid()
      ensures sampled <==> old(lastSampleTime) + deltaT >= SampleInterval
      ensures lastSampleTime == if sampled then 0.0 else old(lastSampleTime) + deltaT
      ensures telemetryData == old(telemetryData) + (if sampled then [Sample(speed, gear, throttle, brake)] else [])
      ensures saved <==> sampled && now - old(lastSaveTime) > SaveInterval && writeOk
      ensures saved ==> lastSaveTime == doneAt && written == Some(LogDocument(
        Metadata(carName, trackName, bestLap, |telemetryData|, stamp), telemetryData))
      ensures !saved ==> lastSaveTime == old(lastSaveTime) && written == old(written)
      ensures carName == old(carName) && trackName == old(trackName) && logFile == old(logFile)
    {
      saved := false;
      lastSampleTime := lastSampleTime + deltaT;
      if lastSampleTime < SampleInterval {
        sampled := false;
        return;
      }
      sampled := true;
      lastSampleTime := 0.0;
      var sample := Sample(speed, gear, throttle, brake);
      SampleFields(speed, gear, throttle, brake);
      PresentAfterSample(telemetryData, sample, "speed");
      PresentAfterSample(telemetryData, sample, "throttle");
      PresentAfterSample(telemetryData, sample, "brake");
      if written.Some? {
        OnDiskAfterSample(written.value, telemetryData, sample);
      }
      telemetryData := telemetryData + [sample];
      if now - lastSaveTime > SaveInterval && writeOk {
        OnDiskAfterSave(carName, trackName, bestLap, stamp, telemetryData);
        var metadata := Metadata(carName, trackName, bestLap, |telemetryData|, stamp);
        written := Some(LogDocument(metadata, telemetryData));
        lastSaveTime := doneAt;
        saved := true;
      }
    }
  }
}
