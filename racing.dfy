/** The lap record shared by every view (`LapData` in the client's types). */
module Racing {
  datatype Weather = Dry | Wet | Mixed

  /** Lap and sector times are integer milliseconds; speeds are km/h; dates are epoch milliseconds. */
  datatype Lap = Lap(
    id: string,
    trackName: string,
    carModel: string,
    lapTime: int,
    dateRecorded: int,
    weather: Weather,
    temperature: int,
    sectorTimes: seq<int>,
    topSpeed: real,
    averageSpeed: real)

  /** The value of a track or car selector that removes nothing. */
  const AllOption := "all"

  /** A lap passes the track and car selectors ("all" means no constraint). */
  predicate Matches(lap: Lap, track: string, car: string)
  {
    (track == AllOption || lap.trackName == track) && (car == AllOption || lap.carModel == car)
  }
}
