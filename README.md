# Delta-Sync in Dafny

Delta-Sync is a lap-telemetry dashboard for the Assetto Corsa racing simulator. It has
two parts:

- **The simulator plugin** (`backend/DeltaSync.py`). It samples speed, gear, throttle and
  brake four times a second. Every ten seconds it rewrites a per-session JSON file with
  those samples and a metadata block.
- **The browser client** (React). It lets you upload a telemetry file as a placeholder
  lap and keeps the lap list in browser storage. It also shows:
  - dashboard statistics,
  - a global leaderboard,
  - a comparison against faster drivers and between two chosen laps,
  - a telemetry chart with a summary card.

This project models the computational core of both parts.

**Modules**

| module | models |
|---|---|
| `Racing` | `LapData` |
| `Json` | a parsed JSON value and what a storage key holds |
| `TimeFormat` | the `formatTime` text shared by three views |
| `Utils` | the shared `formatLapTime` |
| `LapUpload` | the upload panel |
| `TelemetryAnalysis` | the telemetry view |
| `TelemetryMetadata` | the lap-summary card |
| `Dashboard` | the dashboard |
| `Leaderboard` | the leaderboard |
| `LapComparison` | the comparison view |
| `App` | the application shell |
| `DeltaSync` | the plugin |

`Text` and `Seqs` are helper modules. `Text` holds numerals, padding and string order. `Seqs` holds sums, maxima, means and filters.

**How each part is written**

- Pure computations are functions with named results and lemmas.
- State that the source updates in place is a class, one each for:
  - the upload panel,
  - the telemetry view,
  - the summary card,
  - the application shell,
  - the plugin's module globals.
- The leaderboard's `sort` is an in-place insertion sort on an `array`. It is proved sorted and a permutation.
- The plugin's sensors, wall clock, file system and time stamps are method parameters. So are the browser's clock and `Date.now()` ids.

**Numbers**

- Lap and sector times are integer milliseconds. Speeds and pedal inputs are exact reals.
- JavaScript's `%` (remainder with the sign of the dividend) is written out.
- `toFixed(3)` rounds the magnitude half-up to the millisecond.
- Python's `round` rounds half to even.

**What the code does with uploads and pedal inputs**

- The plugin writes a `{metadata, telemetry}` object. The upload panel accepts only a
  top-level array (`client/src/components/LapUpload.tsx:35`), so it refuses every file
  the plugin writes.
  - `LapUpload.RejectsWrappedTelemetry` states the rejection.
  - `DeltaSync.UploadRefusesLog` states it for every file the plugin writes.
- An uploaded lap always gets lap time 0, "Unknown Track" and "Unknown Car"
  (`client/src/components/LapUpload.tsx:42-50`). Nothing is taken from a metadata block.
- Throttle and brake are fractions in [0, 1]: the views multiply them by 100 for
  percentages, and the chart's pedal axis is [0, 1]. `TelemetryAnalysis.PedalAverageInUnitRange` uses that scale.

## Model

| member | source | states |
|---|---|---|
| Utils.FormatLapTimeReads | client/src/lib/utils.ts:8-15 | `formatLapTime` prints "M:SS.HH" with digit fields, seconds below 60 and hundredths below 100; minutes·60000 + seconds·1000 + hundredths·10 equals the input cut down to whole hundredths |
| TimeFormat.FormatTimeFields | client/src/components/Dashboard.tsx:48-52 | `formatTime` prints "M:SS.mmm" with minutes = ms div 60000, a two-digit seconds field below 60 and milliseconds = ms mod 1000, and the text reads back as the milliseconds it was made from (the same function is at Leaderboard.tsx:131-135 and LapComparison.tsx:236-240) |
| TimeFormat.FormatTimeOfWhole | client/src/components/Dashboard.tsx:48-52 | on a whole number of milliseconds the floating `ms / 60000` floor and `toFixed(3)` path gives the same text as the integer one |
| TimeFormat.SecondsTextReads | client/src/components/Leaderboard.tsx:153 | `(ms / 1000).toFixed(3)` on whole milliseconds is a signed decimal with three places that reads back as `ms`, with a '-' exactly when `ms` is negative |
| TimeFormat.FixedSecondsReads | client/src/components/LapComparison.tsx:244 | `(ms / 1000).toFixed(3)` on any real reads back within half a millisecond of `ms`, with a '-' exactly when `ms` is negative |
| TimeFormat.FixedSecondsOfWhole | client/src/components/LapComparison.tsx:244 | on whole milliseconds the real-valued text equals the integer text |
| Dashboard.BestIndex | client/src/components/Dashboard.tsx:34-37 | the `reduce` lands on a lap no other lap beats, and the earliest of the tied laps (the replacement is strict `<`) |
| Dashboard.RecentLaps | client/src/components/Dashboard.tsx:39 | min(5, n) laps, the i-th being the (i+1)-th from the end |
| Dashboard.AverageLapTime | client/src/components/Dashboard.tsx:41-44 | 0 for no laps; otherwise the mean times the count is the sum of the lap times |
| Dashboard.AverageBetweenBestAndSlowest | client/src/components/Dashboard.tsx:34-44 | the mean lap time lies between the best lap's time and the slowest time |
| Dashboard.TrackSetSize | client/src/components/Dashboard.tsx:46 | the number of distinct tracks is at most the lap count and at least 1 for a non-empty list |
| Dashboard.UniqueTracks | client/src/components/Dashboard.tsx:46 | the "Tracks Driven" count is the number of distinct track names: every lap's track is in the set and every member is some lap's track; it lies between 1 and the number of laps |
| Dashboard.AverageShowsSixtySeconds | client/src/components/Dashboard.tsx:94 | for laps of 119999, 120000, 120000, 120000 and 120000 ms the mean is 119999.8; the card as written reads "1:60.000", while the rounded card reads "2:00.000" |
| Dashboard.AverageTextWellFormed | client/src/components/Dashboard.tsx:94 | with the mean rounded first, the card is a well-formed "M:SS.mmm" with seconds below 60 that reads back within half a millisecond of the mean |
| Dashboard.View | client/src/components/Dashboard.tsx:26-107 | the empty state exactly when there are no laps; otherwise the total is the lap count, the best lap is the one the `reduce` picks (the earliest of the tied fastest laps, whose track and car the card shows) and its card is `formatTime` of its time, the mean card is the unrounded mean through `formatTime` as line 94 writes it, the track count is the number of distinct tracks, and the recent laps are the last five, newest first |
| Dashboard.ViewBestTextReads | client/src/components/Dashboard.tsx:75 | the best-lap card is a well-formed time that reads back as the best lap's time |
| Dashboard.ViewShowsSixtySeconds | client/src/components/Dashboard.tsx:94 | on the five-lap input the dashboard itself shows "1:60.000" as the mean lap time |
| Dashboard.TelemetryPreview | client/src/components/Dashboard.tsx:153-164 | the graph is hidden exactly when there is no telemetry; otherwise it shows the first min(500, n) samples |
| TelemetryMetadata.FormatLapTime | client/src/components/TelemetryMetadata.tsx:12-20 | "N/A" exactly for a missing, zero or negative time |
| TelemetryMetadata.FormatLapTimeOfWhole | client/src/components/TelemetryMetadata.tsx:15-19 | for a positive whole number of milliseconds the card's text is `formatTime`'s, and it reads back as that number |
| TelemetryMetadata.BestLapOf | client/src/components/TelemetryMetadata.tsx:59 | a best lap is passed on exactly when the stored field is a number |
| TelemetryMetadata.OrUnknown | client/src/components/TelemetryMetadata.tsx:51 | a truthy value is shown as it is, anything else as "Unknown" |
| TelemetryMetadata.Render | client/src/components/TelemetryMetadata.tsx:41-72 | no card exactly when the metadata is falsy; car and track fall back to "Unknown"; the samples line appears exactly when `samples_logged` is a number, and the logged-at line exactly when the stamp is truthy |
| TelemetryMetadata.Card.constructor | client/src/components/TelemetryMetadata.tsx:23 | no metadata before the mount effect |
| TelemetryMetadata.Card.Load | client/src/components/TelemetryMetadata.tsx:25-38 | a missing or unparsable entry leaves no metadata; a parsed one is kept as it is |
| LapUpload.UploadAverage | client/src/components/LapUpload.tsx:52-53 | the mean speed, and exactly 0 for no samples (an empty array divides by 1) |
| LapUpload.UploadedLap | client/src/components/LapUpload.tsx:42-54 | the placeholder lap has the fixed defaults; its top speed is at least every sample's speed and is one of them; its average speed is the mean of the speeds and at most the top speed |
| LapUpload.Uploader.constructor | client/src/components/LapUpload.tsx:26-27 | no telemetry, no file name, no lap handed on |
| LapUpload.Uploader.HandleFileUpload | client/src/components/LapUpload.tsx:30-63 | accepted exactly when the parsed value is an array, and then the telemetry is that array and the file name is kept; exactly one lap is handed to `onAddLap` when no sample is `null`; otherwise (unparsable, not an array, or a `null` sample, whose `speed` read throws) the alert shows and no lap is handed on; a refused file changes nothing |
| LapUpload.Uploader.HandleDrop | client/src/components/LapUpload.tsx:65-69 | as the upload, but only for a name ending in ".json"; any other name changes nothing and shows no alert |
| LapUpload.Uploader.HandleBrowse | client/src/components/LapUpload.tsx:71-74 | as the upload, with no suffix check |
| LapUpload.RejectsWrappedTelemetry | client/src/components/LapUpload.tsx:35 | a `{metadata, telemetry}` object is refused |
| TelemetryAnalysis.MaxSpeed | client/src/components/TelemetryAnalysis.tsx:41 | 0 for no samples; otherwise an upper bound of the speeds that one sample attains |
| TelemetryAnalysis.Average | client/src/components/TelemetryAnalysis.tsx:42-50 | 0 for no samples; otherwise the mean times the count is the sum of the field |
| TelemetryAnalysis.AverageSpeedAtMostMax | client/src/components/TelemetryAnalysis.tsx:41-44 | the average speed never exceeds the maximum speed |
| TelemetryAnalysis.PedalAverageInUnitRange | client/src/components/TelemetryAnalysis.tsx:45-50 | pedal inputs in [0, 1] average to a value in [0, 1] |
| TelemetryAnalysis.ChartData | client/src/components/TelemetryAnalysis.tsx:98-103 | one row per sample, row i has index i and that sample's speed, throttle and brake |
| TelemetryAnalysis.SpeedAxisTop | client/src/components/TelemetryAnalysis.tsx:114 | for samples that are not `null`, the axis top is 10 above every speed (a missing or falsy one counting 0) and 10 above one of them |
| TelemetryAnalysis.SpeedAxisCoversChart | client/src/components/TelemetryAnalysis.tsx:114 | with every speed present the axis top is the headline maximum plus 10, so every chart point fits |
| TelemetryAnalysis.Toggled | client/src/components/TelemetryAnalysis.tsx:36-39 | the clicked key is negated (an absent key becomes true) and every other key is kept |
| TelemetryAnalysis.ToggleTwice | client/src/components/TelemetryAnalysis.tsx:36-39 | two clicks on a known series restore the visibility map |
| TelemetryAnalysis.View.constructor | client/src/components/TelemetryAnalysis.tsx:16-21 | no telemetry and all three series visible |
| TelemetryAnalysis.View.Load | client/src/components/TelemetryAnalysis.tsx:23-34 | only a stored, parsable array replaces the telemetry |
| TelemetryAnalysis.View.LegendClick | client/src/components/TelemetryAnalysis.tsx:36-39 | the new visibility map is the toggled old one |
| Leaderboard.BuildEntries | client/src/components/Leaderboard.tsx:41-51 | every user lap comes first, in order, unchanged and tagged "You"/"ME"/current user, then the other drivers' entries |
| Leaderboard.FilteredKeepsSelected | client/src/components/Leaderboard.tsx:113-121 | the two filters keep exactly the entries matching both selectors ("all" matching everything), in order |
| Leaderboard.FilteredCounts | client/src/components/Leaderboard.tsx:113-121 | an entry survives as often as it occurs when it matches, and not at all otherwise |
| Leaderboard.Swap | client/src/components/Leaderboard.tsx:124 | exchanges two neighbours, keeping the multiset |
| Leaderboard.InsertLeft | client/src/components/Leaderboard.tsx:124 | one insertion step extends the sorted prefix by one, keeping the multiset |
| Leaderboard.SortByLapTime | client/src/components/Leaderboard.tsx:124 | in place: sorted by non-decreasing lap time and a permutation of the input |
| Leaderboard.Rankings | client/src/components/Leaderboard.tsx:112-125 | sorted by lap time and a permutation of the filtered entries |
| Leaderboard.RankingsAreTheSelection | client/src/components/Leaderboard.tsx:112-125 | every ranked entry matches the selectors, and every matching entry is ranked as often as it occurs |
| Leaderboard.RankIconOf | client/src/components/Leaderboard.tsx:137-148 | trophy exactly for 1, medal exactly for 2, award exactly for 3; otherwise "#n" reading back as the position |
| Leaderboard.PositionDelta | client/src/components/Leaderboard.tsx:150-154 | nothing exactly for the leader; otherwise "+", a seconds text reading back as the gap to the leader, and "s" |
| Leaderboard.DeltaNeverNegative | client/src/components/Leaderboard.tsx:150-154 | in a sorted ranking no gap carries a '-' |
| Leaderboard.RowAt | client/src/components/Leaderboard.tsx:218-220 | the row at index i has position i+1 and the i-th entry, no delta exactly at the top and a numeric label exactly from the fourth row |
| Leaderboard.Rows | client/src/components/Leaderboard.tsx:218-220 | at most fifty rows, numbered 1.. in ranking order |
| Leaderboard.UniqueTracks | client/src/components/Leaderboard.tsx:128 | strictly ascending, and exactly the tracks of the entries |
| Leaderboard.UniqueCars | client/src/components/Leaderboard.tsx:129 | strictly ascending, and exactly the cars of the entries |
| LapComparison.FindById | client/src/components/LapComparison.tsx:48-49 | nothing exactly when no lap has the id; otherwise the first lap of the list with that id |
| LapComparison.FilteredLapsMatch | client/src/components/LapComparison.tsx:127-136 | the filters keep exactly the laps matching both selectors, in order |
| LapComparison.FilteredLapsCounts | client/src/components/LapComparison.tsx:127-136 | a lap survives as often as it occurs exactly when it matches |
| LapComparison.SectorMean | client/src/components/LapComparison.tsx:155-162 | the mean of a sector over the laps, and NaN (`None`) exactly when a lap lacks it |
| LapComparison.TrendOf | client/src/components/LapComparison.tsx:164-218 | the improvement is positive exactly when the user is behind (slower time, lower speed), and its size is the gap between the averages |
| LapComparison.Trends | client/src/components/LapComparison.tsx:164-219 | six trends in the fixed category order with their confidences, each signed as behind |
| LapComparison.TrendAnalysis | client/src/components/LapComparison.tsx:142-220 | nothing exactly when either side is empty; otherwise the six categories in order, each signed as behind |
| LapComparison.TrendAverages | client/src/components/LapComparison.tsx:145-162 | the averages compared: lap time, the three sectors, top speed and average speed |
| LapComparison.SlowerLapsMeanNonNegativeImprovement | client/src/components/LapComparison.tsx:145-169 | when no user lap beats a time no faster lap exceeds, the overall improvement is not negative |
| LapComparison.ImpactOf | client/src/components/LapComparison.tsx:231 | "High" exactly above 1000, "Medium" exactly in (500, 1000], "Low" otherwise |
| LapComparison.PerformanceGaps | client/src/components/LapComparison.tsx:222-234 | one gap per trend in order, with the improvement's magnitude, its impact and priority index + 1 |
| LapComparison.HighImpactMeansBehind | client/src/components/LapComparison.tsx:231 | a "High" gap has a defined improvement and a gap above 1000 |
| LapComparison.FormatTimeDifference | client/src/components/LapComparison.tsx:242-245 | "+" exactly for a non-negative value, '-' exactly for a negative one, a seconds text reading back within half a millisecond, and "s" |
| LapComparison.Compare | client/src/components/LapComparison.tsx:258-281 | lap 2 minus lap 1 overall and per sector of lap 2 (NaN where lap 1 lacks it), plus the three fixed suggestions |
| LapComparison.CompareSwapped | client/src/components/LapComparison.tsx:258-259 | comparing the other way round negates every difference |
| LapComparison.TraditionalAnalysis | client/src/components/LapComparison.tsx:255-282 | no analysis exactly when either id names no lap; otherwise the comparison of the two laps found |
| LapComparison.SectorSeconds | client/src/components/LapComparison.tsx:289-291 | a sector in seconds, NaN exactly when the lap lacks it |
| LapComparison.SectorComparison | client/src/components/LapComparison.tsx:286-305 | three rows "Sector 1".."Sector 3" when both laps are chosen, none otherwise, with the difference lap 2 minus lap 1 |
| LapComparison.RadarScore | client/src/components/LapComparison.tsx:310 | never negative; with a positive faster average at most 100, and 100 exactly for no improvement |
| LapComparison.FirstWord | client/src/components/LapComparison.tsx:309 | a prefix without a space, followed by a space or the end |
| LapComparison.RadarPoints | client/src/components/LapComparison.tsx:308-313 | one point per trend, with its score, a top-driver value of 100 and the full category |
| LapComparison.SectorTooltipsCollapse | client/src/components/LapComparison.tsx:398 | with labels cut at the first space, hovering the third sector's point shows "Sector 1 Performance" |
| LapComparison.TooltipOfDistinctLabels | client/src/components/LapComparison.tsx:398 | with pairwise different labels the tooltip of each point names that point's category |
| LapComparison.RadarDataDistinct | client/src/components/LapComparison.tsx:308-313 | with " Performance" dropped instead, the six labels are pairwise different |
| LapComparison.TooltipNamesEachPoint | client/src/components/LapComparison.tsx:398 | with the corrected labels every point's tooltip names its own category |
| LapComparison.UniqueTracks | client/src/components/LapComparison.tsx:251 | strictly ascending, and exactly the tracks of the user's laps |
| LapComparison.UniqueCars | client/src/components/LapComparison.tsx:252 | strictly ascending, and exactly the cars of the user's laps |
| App.DemoLapConsistent | client/src/App.tsx:56-69 | the demo lap's three sectors add up to its 125456 ms, its average speed is below its top speed, and it is dated two days back |
| App.LapRoundTrip | client/src/App.tsx:49-52 | a stored lap is read back with every field kept |
| App.LapsRoundTrip | client/src/App.tsx:45-77 | reloading restores exactly the saved lap list, in order |
| App.LapsOf | client/src/App.tsx:48-53 | a restored list has one lap per stored entry, each read from that entry |
| App.RenderContent | client/src/App.tsx:88-110 | the four named views select their screens, any other key the dashboard, each with the shell's laps and telemetry |
| App.EveryScreenReachable | client/src/App.tsx:88-110 | every screen is shown for its own key |
| App.AppState.constructor | client/src/App.tsx:39-42 | no laps, no telemetry, the dashboard, the dialog closed |
| App.AppState.Mount | client/src/App.tsx:45-77 | with nothing stored, exactly the demo lap; otherwise the stored list; then the list is saved |
| App.AppState.HandleAddLap | client/src/App.tsx:80-86 | the lap is appended, the telemetry replaced exactly when non-empty telemetry is given, the dialog closed, the list saved, the view kept |
| App.AppState.AddUploadedLapAsWritten | client/src/components/LapUpload.tsx:56 | the panel calls the handler with the lap alone, so the telemetry is unchanged and the dashboard preview stays hidden |
| App.AppState.AddUploadedLap | client/src/App.tsx:79-84 | with the samples passed along, non-empty samples become the telemetry and the preview shows |
| App.AppState.Select | client/src/App.tsx:126 | a sidebar button sets the view and nothing else |
| App.AppState.SetUploadDialogOpen | client/src/App.tsx:177 | the dialog flag is set and nothing else |
| DeltaSync.SafeName | backend/DeltaSync.py:26-30 | "unknown" for an empty name; otherwise the same length with letters, digits, '-' and '_' kept and every other character replaced by '_'; never empty and always safe |
| DeltaSync.SafeNameIdempotent | backend/DeltaSync.py:26-30 | sanitising twice is sanitising once |
| DeltaSync.LogFileNameShape | backend/DeltaSync.py:52-58 | the session file name starts with "telemetry_" and ends with ".json", so the upload panel's drop zone takes it |
| DeltaSync.GearText | backend/DeltaSync.py:91-96 | "R" exactly for gear 0, "N" exactly for gear 1 |
| DeltaSync.GearTextReads | backend/DeltaSync.py:91-96 | every gear text reads back as its gear, so different gears are logged differently |
| DeltaSync.Round | backend/DeltaSync.py:108-111 | `round(x, d)` is a multiple of 10^-d within half a step of `x`, and the even multiple on a tie |
| DeltaSync.RoundHalfEven | backend/DeltaSync.py:108-111 | the integer nearest to the scaled value, the even one on a tie |
| DeltaSync.RoundUnique | backend/DeltaSync.py:108-111 | any multiple of 10^-d that is nearest to `x` with ties to even is `Round(x, d)`: the rounding rule names one value |
| DeltaSync.SampleFields | backend/DeltaSync.py:107-112 | every sample has numeric speed, throttle and brake within rounding of the sensors |
| DeltaSync.BestLapField | backend/DeltaSync.py:127 | `None` exactly for a missing or negative best lap; otherwise the number of its whole milliseconds, never negative |
| DeltaSync.MetadataFields | backend/DeltaSync.py:124-130 | each metadata field holds what was given, and `samples_logged` is the sample count |
| DeltaSync.BestLapRenders | backend/DeltaSync.py:127 | the summary card shows "N/A" exactly for a missing best lap or one under a millisecond, and otherwise a time reading back as the whole milliseconds logged |
| DeltaSync.MetadataRenders | backend/DeltaSync.py:124-130 | the summary card shows what a save wrote: car and track (or "Unknown"), the sample count, the stamp when there is one, and the best lap |
| DeltaSync.UploadRefusesLog | backend/DeltaSync.py:132-135 | every file the plugin writes is refused by the upload panel |
| DeltaSync.OnDiskAfterSample | backend/DeltaSync.py:107 | recording a sample after a save keeps the file a prefix of memory |
| DeltaSync.OnDiskAfterSave | backend/DeltaSync.py:124-138 | a save writes exactly the samples in memory with a matching count |
| DeltaSync.Logger.constructor | backend/DeltaSync.py:10-23 | the module globals at load: empty names, no samples, both clocks at 0 |
| DeltaSync.Logger.AcMain | backend/DeltaSync.py:33-71 | car and track read (both empty if a read fails), the file named after them and the start time, and created empty unless it exists or cannot be written |
| DeltaSync.Logger.AcUpdate | backend/DeltaSync.py:74-142 | a sample is appended exactly when the accumulated time reaches 0.25 s, and the accumulator is then reset to 0; a save happens exactly after a sample when more than 10 s have passed and the write succeeds, and writes the metadata and all samples; the samples only grow and the file stays a consistent snapshot |

## Left out

- JSON text parsing and `json.dump`/`JSON.stringify`: library calls. The model starts from a parsed value, and an unparsable text is `None` or `Json.Stored.Unparsable`.
- Browser storage, `FileReader`, `alert` and console logging: I/O. What a storage key holds is a parameter or a field.
  - No member writes the "lastUploadedTelemetryMeta" key the summary card reads, because no code shown writes it.
- The simulator API and the plugin's file handling are parameters of `AcMain` and `AcUpdate`. This covers `ac.*`, `acsys`, `os.path`, `time.time` and `time.strftime`.
  - A failed write is a boolean.
  - A partially written file is not modelled.
  - The window, label and `ac.setText` calls are not modelled, nor the speed label text (`backend/DeltaSync.py:36-41`, `98-104`).
- `os.path.join` with the plugin's directory is not modelled. `logFile` holds the file name alone.
- React rendering, recharts, icons, badges, the progress bar (`LapComparison.tsx:427-430`), and the "Gap:" line and per-trend texts (`LapComparison.tsx:432`, `465-472`): display only.
- The `description` and advice strings of the trends and the improvement areas: fixed texts. Only the three areas' names and gains are kept.
- The random mock drivers and laps of the leaderboard and the comparison: `Math.random`/`Date.now`. They are the `others`/`faster` parameters.
- The recent-laps date text (`toLocaleDateString`): locale-dependent display.
- Floating point:
  - Values are exact reals, with no IEEE rounding.
  - `toFixed` rounds an exact value half-up, not the nearest double.
  - The `-Infinity` of `Math.max()` on no samples, NaN from a missing `speed`, and NaN from a lap with fewer than three sectors are preconditions, or `None` in `LapComparison`.
  - The spread-argument limit of `Math.max(...)` on very long arrays is not modelled.
- `TelemetryAnalysis.MaxSpeed`, `TelemetryAnalysis.Average` and `TelemetryAnalysis.ChartData`: the `Present` precondition excludes a `null` sample. The upload panel stores such an array before it fails (`LapUpload.tsx:37-38`), and `View.Load` accepts it. Reading `t.speed` on it then throws (`TelemetryAnalysis.tsx:41`, `43`, `100`), so the view fails to render. That crash is not modelled.
- `TelemetryAnalysis.SpeedAxisTop`: a `null` sample is excluded by its precondition. `t.speed || 0` throws on it at `TelemetryAnalysis.tsx:114`, and that crash is not modelled.
- `DeltaSync.IsAlnum`: ASCII letters and digits only. Python's `str.isalnum` also accepts other Unicode letters and digits.
- `Utils.FormatLapTimeReads`: stated for non-negative whole milliseconds only.
- `TimeFormat.FormatTimeFields`: stated for non-negative whole milliseconds only.
- `Text.SortedUnique`: orders strings by code point. JavaScript's default `sort` compares UTF-16 code units. They differ only outside the Basic Multilingual Plane.
- `Leaderboard.SortByLapTime`: does not state stability. Array `sort` is stable, and stability is not proved.
  - The source sorts the memoised list in place, so the full list's order changes as well. That aliasing is not modelled.
- `TelemetryAnalysis.View.Load`: a stored JSON string is not modelled. The source would keep it, since `slice` also works on strings. Any non-array is treated as rejected.
- `TelemetryAnalysis.View`: ignores the props the shell passes, as the source does.
- `App.AppState.Mount`: requires storage to hold a lap list or nothing. Storage that `JSON.parse` rejects, or whose parsed value is not an array (`null`, an object, a string), makes the source throw. A stored array whose entries are not laps, such as `[1]`, is loaded by the source as malformed laps with an invalid date. The model excludes all of these cases.
- `App.AppState.Mount`: the transient save of the initial empty list is not modelled. React runs the save effect before the loaded list is stored.
- `App.LapToJson`: writes `dateRecorded` as epoch milliseconds rather than ISO text. `new Date` reads both back to the same instant.
- `DeltaSync.Logger.AcMain`: when the car read succeeds and the track read fails, the source resets both names to "". The model makes both names "" whenever either read fails, which is the same outcome.
- `TelemetryMetadata.Render`: covers only a stored `best_lap_time_ms` that is a number or absent. A stored string is not modelled.

## Findings

| source | as written | input that shows it | evidently intended | confidence | as-written member | corrected member |
|---|---|---|---|---|---|---|
| client/src/components/Dashboard.tsx:94 | the average card passes the unrounded mean to `formatTime`, whose `toFixed(3)` can round 59.9998 s up to "60.000" | five laps of 119999, 120000, 120000, 120000 and 120000 ms (mean 119999.8): the card reads "1:60.000" | "2:00.000", a seconds field below 60 | not executed | Dashboard.AverageShowsSixtySeconds | Dashboard.AverageTextWellFormed |
| client/src/components/LapComparison.tsx:309 | radar labels are the category's first word, so the three sectors are all "Sector" and the tooltip (line 398) finds the first one | any comparison with laps on both sides: hovering the Sector 3 point shows "Sector 1 Performance" | each point's tooltip names its own category | not executed | LapComparison.SectorTooltipsCollapse | LapComparison.TooltipNamesEachPoint |
| client/src/components/LapUpload.tsx:56 | the panel calls `onAddLap(newLap)` without the samples (its props type at lines 21-23 has one parameter), so the shell's `handleAddLap(newLap, telemetryData?)` (App.tsx:80-84) never sets `lastUploadedTelemetry` | upload any non-empty sample array on a fresh page: the dashboard's telemetry graph (Dashboard.tsx:153) never appears | the uploaded samples reach the shell, as its "also handle telemetry JSON" handler expects (App.tsx:79) | not executed | App.AppState.AddUploadedLapAsWritten | App.AppState.AddUploadedLap |
