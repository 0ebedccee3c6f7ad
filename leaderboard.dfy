/**
 * The global leaderboard: the user's laps tagged as "You" next to other drivers'
 * entries, filtered by track and car, sorted fastest first, ranked with icons and
 * with each entry's gap to the leader.
 */
module Leaderboard {
  import opened Wrappers
  import opened Racing
  import opened Seqs
  import opened Text
  import opened TimeFormat

  /** `LeaderboardEntry`: a lap with the driver who set it. */
  datatype Entry = Entry(lap: Lap, userName: string, userInitials: string, isCurrentUser: bool)

  /**
   * The entries the leaderboard starts from: each user lap, in order, tagged as the
   * current user's, followed by the other drivers' entries.
   */
  method BuildEntries(userLaps: seq<Lap>, others: seq<Entry>) returns (entries: seq<Entry>)
    ensures |entries| == |userLaps| + |others|
    ensures forall i :: 0 <= i < |userLaps| ==>
      entries[i] == Entry(userLaps[i], "You", "ME", true)
    ensures entries[|userLaps|..] == others
  {
    entries := [];
    var i := 0;
    while i < |userLaps|
      invariant 0 <= i <= |userLaps|
      invariant |entries| == i
      invariant forall k :: 0 <= k < i ==> entries[k] == Entry(userLaps[k], "You", "ME", true)
    {
      entries := entries + [Entry(userLaps[i], "You", "ME", true)];
      i := i + 1;
    }
    entries := entries + others;
  }

  predicate Selected(e: Entry, track: string, car: string)
  {
    Matches(e.lap, track, car)
  }

  /** The track filter, applied when a track is selected, then the car filter, applied when a car is selected. */
  function Filtered(data: seq<Entry>, track: string, car: string): seq<Entry>
  {
    var byTrack := if track != AllOption then Keep(data, (e: Entry) => e.lap.trackName == track) else data;
    if car != AllOption then Keep(byTrack, (e: Entry) => e.lap.carModel == car) else byTrack
  }

  /** The two filters in a row keep exactly the entries that match both selectors, in their order. */
  lemma FilteredKeepsSelected(data: seq<Entry>, track: string, car: string)
    ensures Filtered(data, track, car) == Keep(data, (e: Entry) => Selected(e, track, car))
  {
    var sel := (e: Entry) => Selected(e, track, car);
    var byTrack := (e: Entry) => e.lap.trackName == track;
    var byCar := (e: Entry) => e.lap.carModel == car;
    var any := (e: Entry) => true;
    if track != AllOption && car != AllOption {
      KeepTwice(data, byTrack, byCar, sel);
    } else if track != AllOption {
      KeepTwice(data, byTrack, any, sel);
      KeepAll(Keep(data, byTrack), any);
    } else if car != AllOption {
      KeepTwice(data, any, byCar, sel);
      KeepAll(data, any);
    } else {
      KeepAll(data, sel);
    }
  }

  /** Each entry survives the filters as often as it occurs if it matches, and not at all otherwise. */
  lemma FilteredCounts(data: seq<Entry>, track: string, car: string, e: Entry)
    ensures multiset(Filtered(data, track, car))[e] == if Selected(e, track, car) then multiset(data)[e] else 0
  {
    FilteredKeepsSelected(data, track, car);
    KeepCounts(data, (x: Entry) => Selected(x, track, car), e);
  }

  predicate SortedByTime(s: seq<Entry>)
  {
    forall i, j :: 0 <= i < j < |s| ==> s[i].lap.lapTime <= s[j].lap.lapTime
  }

  /** The first `n` entries are in non-decreasing lap time. */
  predicate SortedUpTo(s: seq<Entry>, n: nat)
    requires n <= |s|
  {
    forall p, q :: 0 <= p < q < n ==> s[p].lap.lapTime <= s[q].lap.lapTime
  }

  lemma SwapKeepsMultiset(s: seq<Entry>, j: nat)
    requires 0 < j < |s|
    ensures multiset(s[j - 1 := s[j]][j := s[j - 1]]) == multiset(s)
  {
    var t := s[j - 1 := s[j]][j := s[j - 1]];
    assert s == s[..j - 1] + [s[j - 1], s[j]] + s[j + 1..];
    assert t == s[..j - 1] + [s[j], s[j - 1]] + s[j + 1..];
  }

  /** Exchanges `a[j - 1]` and `a[j]`. */
  method Swap(a: array<Entry>, j: nat)
    requires 0 < j < a.Length
    modifies a
    ensures a[..] == old(a[..])[j - 1 := old(a[j])][j := old(a[j - 1])]
    ensures multiset(a[..]) == multiset(old(a[..]))
  {
    ghost var before := a[..];
    a[j - 1], a[j] := a[j], a[j - 1];
    assert a[..] == before[j - 1 := before[j]][j := before[j - 1]];
    SwapKeepsMultiset(before, j);
  }

  /**
   * Midway through inserting entry `i`: it now sits at `j`, is faster than everything
   * after it up to `i`, and the rest of the first `i + 1` entries are in order.
   */
  predicate Inserting(s: seq<Entry>, j: nat, i: nat)
    requires j <= i < |s|
  {
    && (forall p, q :: 0 <= p < q <= i && p != j && q != j ==> s[p].lap.lapTime <= s[q].lap.lapTime)
    && (forall q :: j < q <= i ==> s[j].lap.lapTime < s[q].lap.lapTime)
    && (0 < j < i ==> s[j - 1].lap.lapTime <= s[j + 1].lap.lapTime)
  }

  lemma InsertStart(s: seq<Entry>, i: nat)
    requires i < |s| && SortedUpTo(s, i)
    ensures Inserting(s, i, i)
  {
  }

  lemma InsertStep(s: seq<Entry>, j: nat, i: nat)
    requires 0 < j <= i < |s| && Inserting(s, j, i)
    requires s[j - 1].lap.lapTime > s[j].lap.lapTime
    ensures Inserting(s[j - 1 := s[j]][j := s[j - 1]], j - 1, i)
  {
  }

  lemma InsertDone(s: seq<Entry>, j: nat, i: nat)
    requires j <= i < |s| && Inserting(s, j, i)
    requires j == 0 || s[j - 1].lap.lapTime <= s[j].lap.lapTime
    ensures SortedUpTo(s, i + 1)
  {
  }

  /** Moves `a[i]` left past every strictly slower entry, so that the first `i + 1` entries are sorted. */
  method InsertLeft(a: array<Entry>, i: nat)
    requires i < a.Length && SortedUpTo(a[..], i)
    modifies a
    ensures SortedUpTo(a[..], i + 1)
    ensures multiset(a[..]) == multiset(old(a[..]))
  {
    var j := i;
    InsertStart(a[..], i);
    while j > 0 && a[j - 1].lap.lapTime > a[j].lap.lapTime
      invariant 0 <= j <= i
      invariant Inserting(a[..], j, i)
      invariant multiset(a[..]) == multiset(old(a[..]))
    {
      ghost var s := a[..];
      InsertStep(s, j, i);
      Swap(a, j);
      assert a[..] == s[j - 1 := s[j]][j := s[j - 1]];
      j := j - 1;
    }
    InsertDone(a[..], j, i);
  }

  /** `sort((a, b) => a.lapTime - b.lapTime)`: in place, fastest first. */
  method SortByLapTime(a: array<Entry>)
    modifies a
    ensures SortedByTime(a[..])
    ensures multiset(a[..]) == multiset(old(a[..]))
  {
    var i := 0;
    while i < a.Length
      invariant 0 <= i <= a.Length
      invariant SortedUpTo(a[..], i)
      invariant multiset(a[..]) == multiset(old(a[..]))
    {
      InsertLeft(a, i);
      i := i + 1;
    }
  }

  /** `filteredAndSortedData`: the selected entries, fastest first. */
  method Rankings(data: seq<Entry>, track: string, car: string) returns (ranked: seq<Entry>)
    ensures SortedByTime(ranked)
    ensures multiset(ranked) == multiset(Filtered(data, track, car))
  {
    var filtered := Filtered(data, track, car);
    var a := new Entry[|filtered|](i requires 0 <= i < |filtered| => filtered[i]);
    assert a[..] == filtered;
    SortByLapTime(a);
    ranked := a[..];
  }

  /** The ranking holds every matching entry as often as the data does, and nothing else. */
  lemma RankingsAreTheSelection(data: seq<Entry>, track: string, car: string, ranked: seq<Entry>, e: Entry)
    requires multiset(ranked) == multiset(Filtered(data, track, car))
    ensures e in ranked ==> Selected(e, track, car)
    ensures multiset(ranked)[e] == if Selected(e, track, car) then multiset(data)[e] else 0
  {
    FilteredCounts(data, track, car, e);
  }

  /** The icon beside a position. */
  datatype RankIcon = Trophy | Medal | Award | Label(text: string)

  function RankIconOf(position: nat): (icon: RankIcon)
    ensures position == 1 <==> icon == Trophy
    ensures position == 2 <==> icon == Medal
    ensures position == 3 <==> icon == Award
    ensures icon.Label? ==>
      |icon.text| >= 2 && icon.text[0] == '#' && AllDigits(icon.text[1..]) && ParseNat(icon.text[1..]) == position
  {
    if position == 1 then Trophy
    else if position == 2 then Medal
    else if position == 3 then Award
    else
      ParseNatToString(position);
      assert ("#" + NatToString(position))[1..] == NatToString(position);
      Label("#" + NatToString(position))
  }

  /**
   * `getPositionDelta`: nothing for the leader; otherwise "+", the entry's gap to the
   * leader in seconds with three decimals, and "s".
   */
  function PositionDelta(ranked: seq<Entry>, index: nat): (delta: Option<string>)
    requires index < |ranked|
    ensures delta.None? <==> index == 0
    ensures delta.Some? ==> |delta.value| >= 7 && delta.value[0] == '+' && delta.value[|delta.value| - 1] == 's'
    ensures delta.Some? ==>
      SecondsShaped(delta.value[1..|delta.value| - 1]) && ReadSeconds(delta.value[1..|delta.value| - 1]) == ranked[index].lap.lapTime - ranked[0].lap.lapTime
  {
    if index == 0 then None
    else
      var gap := ranked[index].lap.lapTime - ranked[0].lap.lapTime;
      SecondsTextReads(gap);
      var d := "+" + SecondsText(gap) + "s";
      assert d[1..|d| - 1] == SecondsText(gap);
      Some(d)
  }

  /** In a ranking sorted fastest first, no gap to the leader is negative. */
  lemma DeltaNeverNegative(ranked: seq<Entry>, index: nat)
    requires SortedByTime(ranked) && 0 < index < |ranked|
    ensures PositionDelta(ranked, index).Some?
    ensures PositionDelta(ranked, index).value[1] != '-'
  {
    var gap := ranked[index].lap.lapTime - ranked[0].lap.lapTime;
    SecondsTextReads(gap);
    assert PositionDelta(ranked, index).value[1] == SecondsText(gap)[0];
  }

  /** One rendered row of the rankings. */
  datatype Row = Row(position: nat, entry: Entry, icon: RankIcon, delta: Option<string>)

  /** The row at `index` of the ranking. */
  function RowAt(ranked: seq<Entry>, index: nat): (row: Row)
    requires index < |ranked|
    ensures row.position == index + 1 && row.entry == ranked[index]
    ensures row.delta.None? <==> index == 0
    ensures row.icon.Label? <==> index >= 3
  {
    Row(index + 1, ranked[index], RankIconOf(index + 1), PositionDelta(ranked, index))
  }

  /** `slice(0, 50).map((entry, index) => ...)`: at most fifty rows, numbered from 1. */
  function Rows(ranked: seq<Entry>): (rows: seq<Row>)
    ensures |rows| == if |ranked| < 50 then |ranked| else 50
    ensures forall i :: 0 <= i < |rows| ==> rows[i].position == i + 1 && rows[i].entry == ranked[i]
    ensures forall i :: 0 <= i < |rows| ==> (rows[i].delta.None? <==> i == 0)
    ensures forall i :: 0 <= i < |rows| ==> (rows[i].icon.Label? <==> i >= 3)
  {
    var n := if |ranked| < 50 then |ranked| else 50;
    seq(n, i requires 0 <= i < n => RowAt(ranked, i))
  }

  function TrackNames(data: seq<Entry>): (names: seq<string>)
    ensures |names| == |data| && forall i :: 0 <= i < |data| ==> names[i] == data[i].lap.trackName
  {
    seq(|data|, i requires 0 <= i < |data| => data[i].lap.trackName)
  }

  function CarNames(data: seq<Entry>): (names: seq<string>)
    ensures |names| == |data| && forall i :: 0 <= i < |data| ==> names[i] == data[i].lap.carModel
  {
    seq(|data|, i requires 0 <= i < |data| => data[i].lap.carModel)
  }

  /** `[...new Set(tracks)].sort()`: each track once, in ascending order. */
  function UniqueTracks(data: seq<Entry>): (tracks: seq<string>)
    ensures StrictlySorted(tracks)
    ensures forall t :: t in tracks <==> exists i :: 0 <= i < |data| && data[i].lap.trackName == t
  {
    var names := TrackNames(data);
    assert forall t :: t in names <==> exists i :: 0 <= i < |data| && names[i] == t;
    SortedUnique(names)
  }

  /** `[...new Set(cars)].sort()`: each car once, in ascending order. */
  function UniqueCars(data: seq<Entry>): (cars: seq<string>)
    ensures StrictlySorted(cars)
    ensures forall c :: c in cars <==> exists i :: 0 <= i < |data| && data[i].lap.carModel == c
  {
    var names := CarNames(data);
    assert forall c :: c in names <==> exists i :: 0 <= i < |data| && names[i] == c;
    SortedUnique(names)
  }
}
