/**
 * The "Lap Summary" card: the metadata the simulator logger writes beside its
 * samples (car, track, best lap, sample count, last save time), with its fallbacks.
 */
module TelemetryMetadata {
  import opened Wrappers
  import opened TimeFormat
  import Json

  /**
   * `formatLapTime(ms)`: "N/A" for a missing, zero or negative time; otherwise
   * minutes, a colon and `(ms / 1000 % 60).toFixed(3)` padded to six characters.
   */
  function FormatLapTime(ms: Option<real>): (text: string)
    ensures text == "N/A" <==> ms.None? || ms.value <= 0.0
  {
    if ms.None? || ms.value <= 0.0 then "N/A"
    else
      var t := FormatTimeOfReal(ms.value);
      assert |t| >= 8;
      t
  }

  /** On whole milliseconds the card shows the same time as every other view, and it reads back. */
  lemma FormatLapTimeOfWhole(ms: nat)
    requires ms > 0
    ensures FormatLapTime(Some(ms as real)) == FormatTime(ms)
    ensures TimeShaped(FormatLapTime(Some(ms as real))) && ReadTime(FormatLapTime(Some(ms as real))) == ms
  {
    var x := ms as real;
    assert FormatLapTime(Some(x)) == FormatTimeOfReal(x);
    FormatTimeOfWhole(ms);
    FormatTimeFields(ms);
  }

  /** `best_lap_time_ms` as a number, when the stored field holds one. */
  function BestLapOf(meta: Json.Value): (ms: Option<real>)
    ensures ms.Some? <==> Json.HasNumber(meta, "best_lap_time_ms")
  {
    if Json.HasNumber(meta, "best_lap_time_ms") then Some(Json.NumberAt(meta, "best_lap_time_ms")) else None
  }

  /** `value || "Unknown"`. */
  function OrUnknown(v: Option<Json.Value>): (shown: Json.Value)
    ensures Json.Truthy(v) ==> shown == v.value
    ensures !Json.Truthy(v) ==> shown == Json.Str("Unknown")
  {
    if Json.Truthy(v) then v.value else Json.Str("Unknown")
  }

  /** The lines of the card. */
  datatype Summary = Summary(
    car: Json.Value,
    track: Json.Value,
    bestLap: string,
    samples: Option<real>,
    loggedAt: Option<Json.Value>)

  /**
   * The card for the loaded metadata: nothing when it is falsy; a sample count only
   * when the field is a number; a save time only when it is truthy.
   */
  function Render(meta: Option<Json.Value>): (card: Option<Summary>)
    ensures card.None? <==> !Json.Truthy(meta)
    ensures card.Some? ==> card.value.car == OrUnknown(Json.Get(meta.value, "car_name"))
    ensures card.Some? ==> card.value.track == OrUnknown(Json.Get(meta.value, "track_name"))
    ensures card.Some? ==> card.value.bestLap == FormatLapTime(BestLapOf(meta.value))
    ensures card.Some? ==> (card.value.samples.Some? <==> Json.HasNumber(meta.value, "samples_logged"))
    ensures card.Some? && card.value.samples.Some? ==> card.value.samples.value == Json.NumberAt(meta.value, "samples_logged")
    ensures card.Some? ==> (card.value.loggedAt.Some? <==> Json.Truthy(Json.Get(meta.value, "last_save_timestamp")))
  {
    if !Json.Truthy(meta) then None
    else
      var m := meta.value;
      var stamp := Json.Get(m, "last_save_timestamp");
      Some(Summary(
        OrUnknown(Json.Get(m, "car_name")),
        OrUnknown(Json.Get(m, "track_name")),
        FormatLapTime(BestLapOf(m)),
        if Json.HasNumber(m, "samples_logged") then Some(Json.NumberAt(m, "samples_logged")) else None,
        if Json.Truthy(stamp) then stamp else None))
  }

  /** The card's state: the metadata loaded when it mounts. */
  class Card {
    var meta: Option<Json.Value>

    constructor ()
      ensures meta.None?
    {
      meta := None;
    }

    /** The mount effect: a missing or unparsable entry leaves no metadata; a parsed one is kept as it is. */
    method Load(stored: Json.Stored)
      modifies this
      ensures meta == if stored.Parsed? then Some(stored.value) else None
    {
      if stored.Parsed? {
        meta := Some(stored.value);
      } else {
        meta := None;
      }
    }
  }
}
