/**
 * The telemetry view: the four headline aggregates over the stored samples,
 * the chart rows, the speed-axis bound and the legend's visibility toggles.
 */
module TelemetryAnalysis {
  import opened Seqs
  import Json

  /** Every sample carries the numeric field `key`. */
  predicate Present(samples: seq<Json.Value>, key: string)
  {
    forall i :: 0 <= i < |samples| ==> Json.HasNumber(samples[i], key)
  }

  /** `maxSpeed`: 0 with no samples, otherwise the largest speed. */
  function MaxSpeed(samples: seq<Json.Value>): (m: real)
    requires Present(samples, "speed")
    ensures |samples| == 0 ==> m == 0.0
    ensures forall i :: 0 <= i < |samples| ==> Json.NumberAt(samples[i], "speed") <= m
    ensures |samples| > 0 ==> exists i :: 0 <= i < |samples| && Json.NumberAt(samples[i], "speed") == m
  {
    if |samples| > 0 then Max(Json.Column(samples, "speed")) else 0.0
  }

  /** `avgSpeed`, `avgThrottle`, `avgBrake`: the sum of the field over the samples divided by their count, or 0. */
  function Average(samples: seq<Json.Value>, key: string): (avg: real)
    requires Present(samples, key)
    ensures |samples| == 0 ==> avg == 0.0
    ensures |samples| > 0 ==> avg * (|samples| as real) == Sum(Json.Column(samples, key))
  {
    if |samples| > 0 then Sum(Json.Column(samples, key)) / (|samples| as real) else 0.0
  }

  /** The mean speed never exceeds the maximum speed. */
  lemma AverageSpeedAtMostMax(samples: seq<Json.Value>)
    requires Present(samples, "speed")
    ensures Average(samples, "speed") <= MaxSpeed(samples)
  {
    if |samples| > 0 {
      MeanAtMostMax(Json.Column(samples, "speed"));
    }
  }

  /** Pedal inputs recorded in [0, 1] (the simulator's convention) average to a value in [0, 1]. */
  lemma PedalAverageInUnitRange(samples: seq<Json.Value>, key: string)
    requires Present(samples, key)
    requires forall i :: 0 <= i < |samples| ==> 0.0 <= Json.NumberAt(samples[i], key) <= 1.0
    ensures 0.0 <= Average(samples, key) <= 1.0
  {
    if |samples| > 0 {
      MeanBounds(Json.Column(samples, key), 0.0, 1.0);
    }
  }

  /** One point of the line chart. */
  datatype ChartRow = ChartRow(index: nat, speed: real, throttle: real, brake: real)

  /** `telemetry.map((t, i) => ({ index: i, speed: Number(t.speed), ... }))` over complete samples. */
  function ChartData(samples: seq<Json.Value>): (rows: seq<ChartRow>)
    requires Present(samples, "speed") && Present(samples, "throttle") && Present(samples, "brake")
    ensures |rows| == |samples|
    ensures forall i :: 0 <= i < |rows| ==> rows[i].index == i
    ensures forall i :: 0 <= i < |rows| ==>
      && rows[i].speed == Json.NumberAt(samples[i], "speed")
      && rows[i].throttle == Json.NumberAt(samples[i], "throttle")
      && rows[i].brake == Json.NumberAt(samples[i], "brake")
  {
    seq(|samples|, i requires 0 <= i < |samples| =>
      ChartRow(i, Json.NumberAt(samples[i], "speed"), Json.NumberAt(samples[i], "throttle"), Json.NumberAt(samples[i], "brake")))
  }

  /**
   * A sample that is not `null` (reading `null.speed` throws) and whose speed is a
   * number, or missing/falsy (so `t.speed || 0` yields a number).
   */
  predicate SpeedOrFalsy(t: Json.Value)
  {
    !t.Null? && (Json.HasNumber(t, "speed") || !Json.Truthy(Json.Get(t, "speed")))
  }

  /** `t.speed || 0`. */
  function SpeedOrZero(t: Json.Value): real
    requires SpeedOrFalsy(t)
  {
    if Json.HasNumber(t, "speed") then Json.NumberAt(t, "speed") else 0.0
  }

  /** The upper end of the speed axis: `Math.max(...telemetry.map(t => t.speed || 0)) + 10`. */
  function SpeedAxisTop(samples: seq<Json.Value>): (top: real)
    requires |samples| > 0
    requires forall i :: 0 <= i < |samples| ==> SpeedOrFalsy(samples[i])
    ensures forall i :: 0 <= i < |samples| ==> SpeedOrZero(samples[i]) + 10.0 <= top
    ensures exists i :: 0 <= i < |samples| && SpeedOrZero(samples[i]) + 10.0 == top
  {
    var speeds := seq(|samples|, i requires 0 <= i < |samples| => SpeedOrZero(samples[i]));
    assert forall i :: 0 <= i < |samples| ==> speeds[i] == SpeedOrZero(samples[i]);
    Max(speeds) + 10.0
  }

  /** With every speed present the axis ends 10 km/h above the headline maximum, so every chart point fits. */
  lemma SpeedAxisCoversChart(samples: seq<Json.Value>)
    requires |samples| > 0
    requires Present(samples, "speed") && Present(samples, "throttle") && Present(samples, "brake")
    ensures SpeedAxisTop(samples) == MaxSpeed(samples) + 10.0
    ensures forall i :: 0 <= i < |samples| ==> ChartData(samples)[i].speed + 10.0 <= SpeedAxisTop(samples)
  {
    var top := SpeedAxisTop(samples);
    var k :| 0 <= k < |samples| && SpeedOrZero(samples[k]) + 10.0 == top;
    var j :| 0 <= j < |samples| && Json.NumberAt(samples[j], "speed") == MaxSpeed(samples);
    assert SpeedOrZero(samples[j]) + 10.0 <= top;
  }

  /** The legend toggle on a visibility map: `{ ...prev, [key]: !prev[key] }` (an absent key reads as undefined, so it becomes true). */
  function Toggled(visible: map<string, bool>, key: string): (r: map<string, bool>)
    ensures r.Keys == visible.Keys + {key}
    ensures r[key] == !(key in visible && visible[key])
    ensures forall k :: k in visible && k != key ==> r[k] == visible[k]
  {
    visible[key := !(key in visible && visible[key])]
  }

  /** Two clicks on a series the legend already knows restore the map. */
  lemma ToggleTwice(visible: map<string, bool>, key: string)
    requires key in visible
    ensures Toggled(Toggled(visible, key), key) == visible
  {
  }

  class View {
    var telemetry: seq<Json.Value>
    var visible: map<string, bool>

    constructor ()
      ensures telemetry == []
      ensures visible == map["speed" := true, "throttle" := true, "brake" := true]
    {
      telemetry := [];
      visible := map["speed" := true, "throttle" := true, "brake" := true];
    }

    /** The mount effect: only a stored, parsable array replaces the telemetry. */
    method Load(stored: Json.Stored)
      modifies this`telemetry
      ensures telemetry == if stored.Parsed? && stored.value.Array? then stored.value.elems else old(telemetry)
    {
      if stored.Parsed? && stored.value.Array? {
        telemetry := stored.value.elems;
      }
    }

    /** `handleLegendClick`: flips the clicked series only. */
    method LegendClick(key: string)
      modifies this`visible
      ensures visible == Toggled(old(visible), key)
    {
      visible := visible[key := !(key in visible && visible[key])];
    }
  }
}
