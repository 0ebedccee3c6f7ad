/**
 * The upload panel: checks the shape of a parsed telemetry file, keeps it as
 * the panel's telemetry, and hands a placeholder lap summary to `onAddLap`.
 */
module LapUpload {
  import opened Wrappers
  import opened Racing
  import opened Seqs
  import Text
  import Json

  /** Every sample carries a numeric `speed` (otherwise the source computes NaN). */
  predicate SpeedsPresent(samples: seq<Json.Value>)
  {
    forall i :: 0 <= i < |samples| ==> Json.HasNumber(samples[i], "speed")
  }

  /** Some sample is `null`, so reading its `speed` throws. */
  predicate HasNull(samples: seq<Json.Value>)
  {
    exists i :: 0 <= i < |samples| && samples[i].Null?
  }

  /** The file is accepted exactly when the parsed value is a top-level array. */
  predicate Accepts(parsed: Option<Json.Value>)
  {
    parsed.Some? && parsed.value.Array?
  }

  /** `json.reduce((acc, d) => acc + d.speed, 0) / (json.length || 1)`. */
  function UploadAverage(speeds: seq<real>): (avg: real)
    ensures speeds == [] ==> avg == 0.0
    ensures avg == Mean(speeds)
  {
    Sum(speeds) / (if |speeds| == 0 then 1 else |speeds|) as real
  }

  /** The placeholder lap built from an accepted, non-empty sample array. */
  function UploadedLap(id: string, now: int, samples: seq<Json.Value>): (lap: Lap)
    requires |samples| > 0 && SpeedsPresent(samples)
    ensures lap.id == id && lap.dateRecorded == now
    ensures lap.trackName == "Unknown Track" && lap.carModel == "Unknown Car"
    ensures lap.lapTime == 0 && lap.weather == Dry && lap.temperature == 20 && lap.sectorTimes == []
    ensures forall i :: 0 <= i < |samples| ==> Json.NumberAt(samples[i], "speed") <= lap.topSpeed
    ensures exists i :: 0 <= i < |samples| && Json.NumberAt(samples[i], "speed") == lap.topSpeed
    ensures lap.averageSpeed == Mean(Json.Column(samples, "speed"))
    ensures lap.averageSpeed <= lap.topSpeed
  {
    var speeds := Json.Column(samples, "speed");
    MeanAtMostMax(speeds);
    Lap(id, "Unknown Track", "Unknown Car", 0, now, Dry, 20, [], Max(speeds), UploadAverage(speeds))
  }

  /** A dropped file goes on to `handleFileUpload` only when its name ends in ".json". */
  predicate DropAccepted(name: string)
  {
    Text.EndsWith(name, ".json")
  }

  class Uploader {
    /** The `telemetry` state: the samples of the last accepted file. */
    var telemetry: seq<Json.Value>
    /** The `fileName` state. */
    var fileName: string
    /** Every lap handed to `onAddLap`, in call order. */
    var added: seq<Lap>

    constructor ()
      ensures telemetry == [] && fileName == "" && added == []
    {
      telemetry, fileName, added := [], "", [];
    }

    /**
     * `handleFileUpload` once the reader has loaded the file: `parsed` is `None`
     * when `JSON.parse` throws. `id` and `now` stand for `Date.now()` and `new Date()`.
     * An array is stored before the lap is built, so an array holding `null` is kept
     * as the telemetry, and then `d.speed` throws: no lap is handed on and the alert shows.
     */
    method HandleFileUpload(name: string, parsed: Option<Json.Value>, id: string, now: int)
      returns (accepted: bool, alerted: bool)
      requires Accepts(parsed) && !HasNull(parsed.value.elems) ==>
        |parsed.value.elems| > 0 && SpeedsPresent(parsed.value.elems)
      modifies this
      ensures accepted == Accepts(parsed)
      ensures alerted == !(accepted && !HasNull(parsed.value.elems))
      ensures accepted ==> telemetry == parsed.value.elems && fileName == name
      ensures !alerted ==> added == old(added) + [UploadedLap(id, now, parsed.value.elems)]
      ensures !accepted ==> telemetry == old(telemetry) && fileName == old(fileName)
      ensures alerted ==> added == old(added)
    {
      if parsed.None? || !parsed.value.Array? {
        return false, true;
      }
      var json := parsed.value.elems;
      telemetry := json;
      fileName := name;
      if HasNull(json) {
        return true, true;
      }
      var lap := UploadedLap(id, now, json);
      added := added + [lap];
      return true, false;
    }

    /** `handleDrop`: the suffix check, then the upload. */
    method HandleDrop(name: string, parsed: Option<Json.Value>, id: string, now: int)
      returns (accepted: bool, alerted: bool)
      requires Accepts(parsed) && !HasNull(parsed.value.elems) ==>
        |parsed.value.elems| > 0 && SpeedsPresent(parsed.value.elems)
      modifies this
      ensures accepted == (DropAccepted(name) && Accepts(parsed))
      ensures alerted == (DropAccepted(name) && !(accepted && !HasNull(parsed.value.elems)))
      ensures accepted ==> telemetry == parsed.value.elems && fileName == name
      ensures accepted && !alerted ==> added == old(added) + [UploadedLap(id, now, parsed.value.elems)]
      ensures !accepted ==> telemetry == old(telemetry) && fileName == old(fileName)
      ensures !(accepted && !alerted) ==> added == old(added)
    {
      accepted, alerted := false, false;
      if DropAccepted(name) {
        accepted, alerted := HandleFileUpload(name, parsed, id, now);
      }
    }

    /** `handleBrowse`: no suffix check on this path. */
    method HandleBrowse(name: string, parsed: Option<Json.Value>, id: string, now: int)
      returns (accepted: bool, alerted: bool)
      requires Accepts(parsed) && !HasNull(parsed.value.elems) ==>
        |parsed.value.elems| > 0 && SpeedsPresent(parsed.value.elems)
      modifies this
      ensures accepted == Accepts(parsed)
      ensures alerted == !(accepted && !HasNull(parsed.value.elems))
      ensures accepted ==> telemetry == parsed.value.elems && fileName == name
      ensures !alerted ==> added == old(added) + [UploadedLap(id, now, parsed.value.elems)]
      ensures !accepted ==> telemetry == old(telemetry) && fileName == old(fileName)
      ensures alerted ==> added == old(added)
    {
      accepted, alerted := HandleFileUpload(name, parsed, id, now);
    }
  }

  /** The `{metadata, telemetry}` object is not an array, so an upload of it is rejected. */
  lemma RejectsWrappedTelemetry(metadata: Json.Value, samples: seq<Json.Value>)
    ensures !Accepts(Some(Json.Object(map["metadata" := metadata, "telemetry" := Json.Array(samples)])))
  {
  }
}
