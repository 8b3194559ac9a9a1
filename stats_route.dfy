/** The statistics endpoint: a dispatch on the `type` query parameter to one
    of four aggregations over the song table (an overview, plays per hour
    over the last week, plays per day over the last month, and plays per
    artist over the last week), with a server error when the database
    fails. The clock is the parameter `now`; a window "the last n days"
    keeps the rows played after `now - n days`. */
module StatsRoute {
  import opened Collections
  import opened Songs
  import opened SqliteStore

  datatype Overview = Overview(totalSongs: nat, uniqueArtists: nat, totalDJs: nat, lastUpdate: Option<Instant>)

  datatype DayCount = DayCount(date: int, playCount: int, uniqueArtists: int)

  datatype StatsData =
    | OverviewData(overview: Overview)
    | Hourly(hours: seq<Tallied<int>>)
    | Daily(days: seq<DayCount>)
    | Genre(artists: seq<Tallied<string>>)
    | NoData

  datatype Response = Success(data: StatsData, kind: string) | ServerError(status: int)

  const Week: int := 7 * MinutesPerDay
  const Month: int := 30 * MinutesPerDay

  function CreatedAts(rows: seq<Row>): (ts: seq<Instant>)
    ensures |ts| == |rows|
    ensures forall i :: 0 <= i < |rows| ==> ts[i] == rows[i].createdAt
  {
    seq(|rows|, i requires 0 <= i < |rows| => rows[i].createdAt)
  }

  function Hours(rows: seq<Row>): (hs: seq<int>)
    ensures |hs| == |rows|
    ensures forall i :: 0 <= i < |rows| ==> hs[i] == HourOf(rows[i].song.playedAt) && 0 <= hs[i] < 24
  {
    seq(|rows|, i requires 0 <= i < |rows| => HourOf(rows[i].song.playedAt))
  }

  // ---------------------------------------------------------------------
  // overview

  function OverviewOf(rows: seq<Row>): (o: Overview)
    ensures o.totalSongs == |rows|
    ensures o.uniqueArtists == |ArtistSet(rows)| && o.totalDJs == |DJSet(rows)|
    ensures o.uniqueArtists <= o.totalSongs && o.totalDJs <= o.totalSongs
    ensures o.lastUpdate.None? <==> |rows| == 0
    ensures o.lastUpdate.Some? ==>
      && (forall i :: 0 <= i < |rows| ==> rows[i].createdAt <= o.lastUpdate.value)
      && (exists i :: 0 <= i < |rows| && rows[i].createdAt == o.lastUpdate.value)
  {
    ElemsCard(Artists(rows));
    ElemsCard(DJNames(rows));
    ArtistElems(rows);
    assert Elems(DJNames(rows)) == DJSet(rows);
    var last := if |rows| == 0 then None else Some(MaxOf(CreatedAts(rows)));
    assert forall i :: 0 <= i < |rows| ==> CreatedAts(rows)[i] in CreatedAts(rows);
    Overview(|rows|, |Elems(Artists(rows))|, |Elems(DJNames(rows))|, last)
  }

  // ---------------------------------------------------------------------
  // hourly

  function NegKey(e: Tallied<int>): int
  {
    -e.key
  }

  /** `GROUP BY hour ORDER BY hour` over the last week. */
  function HourlyOf(rows: seq<Row>, now: Instant): seq<Tallied<int>>
  {
    SortDesc(Tally(Hours(PlayedAfter(rows, now - Week))), NegKey)
  }

  /** One entry per hour of the day seen in the window, hours strictly
      ascending, each with its number of plays, the counts adding up to the
      number of rows in the window. */
  lemma HourlyFacts(rows: seq<Row>, now: Instant)
    ensures var r := HourlyOf(rows, now);
      var hs := Hours(PlayedAfter(rows, now - Week));
      && (forall i, j :: 0 <= i < j < |r| ==> r[i].key < r[j].key)
      && (forall i :: 0 <= i < |r| ==> 0 <= r[i].key < 24 && r[i].count == Count(hs, r[i].key) >= 1)
      && (forall h :: h in hs <==> h in KeysOf(r))
      && SumCounts(r) == |PlayedAfter(rows, now - Week)|
  {
    var hs := Hours(PlayedAfter(rows, now - Week));
    SortedTallyFacts(hs, NegKey);
    var r := SortDesc(Tally(hs), NegKey);
    AscendingKeys(r);
    HoursInDay(hs, r);
  }

  lemma AscendingKeys(r: seq<Tallied<int>>)
    requires KeysDistinct(r) && SortedDesc(r, NegKey)
    ensures forall i, j :: 0 <= i < j < |r| ==> r[i].key < r[j].key
  {
    forall i, j | 0 <= i < j < |r| ensures r[i].key < r[j].key {
      assert NegKey(r[i]) >= NegKey(r[j]);
    }
  }

  lemma HoursInDay(hs: seq<int>, r: seq<Tallied<int>>)
    requires forall i :: 0 <= i < |hs| ==> 0 <= hs[i] < 24
    requires forall i :: 0 <= i < |r| ==> r[i].key in hs
    ensures forall i :: 0 <= i < |r| ==> 0 <= r[i].key < 24
  {
    forall i | 0 <= i < |r| ensures 0 <= r[i].key < 24 {
      var k :| 0 <= k < |hs| && hs[k] == r[i].key;
    }
  }

  // ---------------------------------------------------------------------
  // daily

  function KeyRank(e: Tallied<int>): int
  {
    e.key
  }

  /** The rows of the given day. */
  function OnDay(rows: seq<Row>, day: int): (mine: seq<Row>)
    ensures forall x :: x in mine <==> x in rows && DayOf(x.song.playedAt) == day
  {
    var mine := Filter(rows, (r: Row) => DayOf(r.song.playedAt) == day);
    SubMultisetMembers(mine, rows);
    assert forall x :: x in mine ==> DayOf(x.song.playedAt) == day by {
      forall x | x in mine ensures DayOf(x.song.playedAt) == day {
        var i :| 0 <= i < |mine| && mine[i] == x;
      }
    }
    mine
  }

  lemma {:induction false} OnDayCount(rows: seq<Row>, day: int)
    ensures |OnDay(rows, day)| == Count(Days(rows), day)
  {
    if |rows| > 0 {
      OnDayCount(rows[..|rows| - 1], day);
      OnDaySnoc(rows, day);
    }
  }

  /** The last row adds one to its day's rows and to its day's count. */
  lemma OnDaySnoc(rows: seq<Row>, day: int)
    requires |rows| > 0
    ensures var p, x := rows[..|rows| - 1], rows[|rows| - 1];
      var one := if DayOf(x.song.playedAt) == day then 1 else 0;
      && |OnDay(rows, day)| == |OnDay(p, day)| + one
      && Count(Days(rows), day) == Count(Days(p), day) + one
  {
    var p, x := rows[..|rows| - 1], rows[|rows| - 1];
    assert rows == p + [x];
    FilterSnoc(p, x, (r: Row) => DayOf(r.song.playedAt) == day);
    DaysSnoc(rows, day);
  }

  lemma DaysSnoc(rows: seq<Row>, day: int)
    requires |rows| > 0
    ensures Count(Days(rows), day) == Count(Days(rows[..|rows| - 1]), day) + if DayOf(rows[|rows| - 1].song.playedAt) == day then 1 else 0
  {
    var ds := Days(rows);
    assert ds[..|ds| - 1] == Days(rows[..|rows| - 1]);
    assert ds[|ds| - 1] == DayOf(rows[|rows| - 1].song.playedAt);
  }

  function DayEntry(rows: seq<Row>, e: Tallied<int>): DayCount
  {
    DayCount(e.key, e.count, |Elems(Artists(OnDay(rows, e.key)))|)
  }

  /** The entries of the given day groups, in their order. */
  function DayEntriesOf(window: seq<Row>, sorted: seq<Tallied<int>>): (r: seq<DayCount>)
    ensures |r| == |sorted|
    ensures forall i :: 0 <= i < |sorted| ==> r[i] == DayEntry(window, sorted[i])
  {
    seq(|sorted|, i requires 0 <= i < |sorted| => DayEntry(window, sorted[i]))
  }

  /** `GROUP BY date ORDER BY date DESC` over the last month. */
  function DailyOf(rows: seq<Row>, now: Instant): seq<DayCount>
  {
    var window := PlayedAfter(rows, now - Month);
    DayEntriesOf(window, SortDesc(Tally(Days(window)), KeyRank))
  }

  /** A day's entry counts that day's rows and their distinct artists, of
      which there are at least one and at most as many as plays. */
  lemma DayEntryFacts(window: seq<Row>, e: Tallied<int>)
    requires e.count == Count(Days(window), e.key) >= 1
    ensures DayEntry(window, e).playCount == |OnDay(window, e.key)|
    ensures DayEntry(window, e).uniqueArtists == |ArtistSet(OnDay(window, e.key))|
    ensures 1 <= DayEntry(window, e).uniqueArtists <= DayEntry(window, e).playCount
  {
    OnDayCount(window, e.key);
    ElemsCard(Artists(OnDay(window, e.key)));
    ArtistElems(OnDay(window, e.key));
  }

  /** One entry per day seen in the window, days strictly descending, each
      with its plays and at least one and at most that many distinct
      artists. */
  lemma DailyFacts(rows: seq<Row>, now: Instant)
    ensures var r := DailyOf(rows, now);
      var ds := Days(PlayedAfter(rows, now - Month));
      && (forall i, j :: 0 <= i < j < |r| ==> r[i].date > r[j].date)
      && (forall i :: 0 <= i < |r| ==>
            && r[i].date in ds && r[i].playCount == Count(ds, r[i].date)
            && r[i].uniqueArtists == |ArtistSet(OnDay(PlayedAfter(rows, now - Month), r[i].date))|
            && 1 <= r[i].uniqueArtists <= r[i].playCount)
      && (forall d :: d in ds <==> exists i :: 0 <= i < |r| && r[i].date == d)
  {
    var window := PlayedAfter(rows, now - Month);
    var ds := Days(window);
    var sorted := SortDesc(Tally(ds), KeyRank);
    SortedTallyFacts(ds, KeyRank);
    DayEntries(window, sorted);
  }

  /** The day entries of a sorted tally of the window's days. */
  lemma DayEntries(window: seq<Row>, sorted: seq<Tallied<int>>)
    requires KeysDistinct(sorted) && SortedDesc(sorted, KeyRank)
    requires forall i :: 0 <= i < |sorted| ==> sorted[i].key in Days(window) && sorted[i].count == Count(Days(window), sorted[i].key) >= 1
    requires forall k :: k in Days(window) <==> k in KeysOf(sorted)
    ensures var r := DayEntriesOf(window, sorted);
      var ds := Days(window);
      && (forall i, j :: 0 <= i < j < |r| ==> r[i].date > r[j].date)
      && (forall i :: 0 <= i < |r| ==>
            && r[i].date in ds && r[i].playCount == Count(ds, r[i].date)
            && r[i].uniqueArtists == |ArtistSet(OnDay(window, r[i].date))|
            && 1 <= r[i].uniqueArtists <= r[i].playCount)
      && (forall d :: d in ds <==> exists i :: 0 <= i < |r| && r[i].date == d)
  {
    var r := DayEntriesOf(window, sorted);
    forall i, j | 0 <= i < j < |r| ensures r[i].date > r[j].date {
      assert KeyRank(sorted[i]) >= KeyRank(sorted[j]);
    }
    forall i | 0 <= i < |r|
      ensures r[i].uniqueArtists == |ArtistSet(OnDay(window, r[i].date))| && 1 <= r[i].uniqueArtists <= r[i].playCount
    {
      DayEntryFacts(window, sorted[i]);
    }
    forall d | d in Days(window) ensures exists i :: 0 <= i < |r| && r[i].date == d {
      var i :| 0 <= i < |sorted| && KeysOf(sorted)[i] == d;
      assert r[i].date == d;
    }
  }

  // ---------------------------------------------------------------------
  // genre-distribution

  /** Plays per artist over the last week, most played first, at most 30. */
  function GenreOf(rows: seq<Row>, now: Instant): (r: seq<Tallied<string>>)
    ensures |r| <= 30
    ensures KeysDistinct(r) && SortedDesc(r, CountRank)
    ensures forall i :: 0 <= i < |r| ==>
      var plays := Artists(PlayedAfter(rows, now - Week));
      r[i].key in plays && r[i].count == Count(plays, r[i].key) >= 1
    ensures SumCounts(r) <= |PlayedAfter(rows, now - Week)|
    ensures var week := PlayedAfter(rows, now - Week);
      |r| == if 30 < |ArtistSet(week)| then 30 else |ArtistSet(week)|
    ensures var week := PlayedAfter(rows, now - Week);
      |r| > 0 ==> forall a :: a in ArtistSet(week) && Count(Artists(week), a) > r[|r| - 1].count ==> a in KeysOf(r)
  {
    var week := PlayedAfter(rows, now - Week);
    ArtistElems(week);
    TopCounts(Artists(week), 30)
  }

  // ---------------------------------------------------------------------
  // The handler.

  /** `searchParams.get('type') || 'overview'`. */
  function KindOf(typeParam: Option<string>): (k: string)
    ensures typeParam.Some? && typeParam.value != "" ==> k == typeParam.value
    ensures typeParam.None? || typeParam.value == "" ==> k == "overview"
  {
    if typeParam.Some? && typeParam.value != "" then typeParam.value else "overview"
  }

  /** GET /api/stats. `db` is the table, or None when a query throws. */
  function GetStats(typeParam: Option<string>, db: Option<seq<Row>>, now: Instant): (resp: Response)
    ensures db.None? <==> resp == ServerError(500)
    ensures db.Some? ==> resp.Success? && resp.kind == KindOf(typeParam)
    ensures db.Some? && KindOf(typeParam) !in {"overview", "hourly", "daily", "genre-distribution"} ==> resp.data == NoData
    ensures db.Some? && KindOf(typeParam) == "overview" ==> resp.data == OverviewData(OverviewOf(db.value))
    ensures db.Some? && KindOf(typeParam) == "hourly" ==> resp.data == Hourly(HourlyOf(db.value, now))
    ensures db.Some? && KindOf(typeParam) == "daily" ==> resp.data == Daily(DailyOf(db.value, now))
    ensures db.Some? && KindOf(typeParam) == "genre-distribution" ==> resp.data == Genre(GenreOf(db.value, now))
  {
    match db
    case None => ServerError(500)
    case Some(rows) =>
      var kind := KindOf(typeParam);
      var data :=
        if kind == "overview" then OverviewData(OverviewOf(rows))
        else if kind == "hourly" then Hourly(HourlyOf(rows, now))
        else if kind == "daily" then Daily(DailyOf(rows, now))
        else if kind == "genre-distribution" then Genre(GenreOf(rows, now))
        else NoData;
      Success(data, kind)
  }
}
