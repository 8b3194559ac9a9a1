/** The `songs` table of the SQLite backend: INSERT OR IGNORE under the
    UNIQUE(artist, title, played_at) constraint, and its read queries. */
module SqliteStore {
  import opened Collections
  import opened Songs

  /** A stored row; `id` is the AUTOINCREMENT key and `createdAt` the
      CURRENT_TIMESTAMP default taken when the row went in. */
  datatype Row = Row(id: int, song: Song, createdAt: Instant)

  /** What a statement's `run` reports. */
  datatype RunResult = RunResult(changes: nat, lastInsertRowid: int)

  predicate HasTriple(rows: seq<Row>, t: Triple)
  {
    exists i | 0 <= i < |rows| :: TripleOf(rows[i].song) == t
  }

  /** The UNIQUE(artist, title, played_at) constraint. */
  predicate UniqueTriples(rows: seq<Row>)
  {
    forall i, j :: 0 <= i < j < |rows| ==> TripleOf(rows[i].song) != TripleOf(rows[j].song)
  }

  /** AUTOINCREMENT: ids grow in insertion order and none exceeds the
      table's `sqlite_sequence` counter. */
  predicate IdsBelow(rows: seq<Row>, sequence: int)
  {
    && (forall i, j :: 0 <= i < j < |rows| ==> rows[i].id < rows[j].id)
    && forall i :: 0 <= i < |rows| ==> 1 <= rows[i].id <= sequence
  }

  predicate WellFormed(rows: seq<Row>, sequence: int)
  {
    0 <= sequence && UniqueTriples(rows) && IdsBelow(rows, sequence)
  }

  lemma HasTripleGrows(p: seq<Row>, q: seq<Row>, t: Triple)
    requires p <= q && HasTriple(p, t)
    ensures HasTriple(q, t)
  {
    var i :| 0 <= i < |p| && TripleOf(p[i].song) == t;
    assert q[i] == p[i];
  }

  /** `INSERT OR IGNORE` with the counter at `sequence`: a song whose triple
      is already stored leaves the rows as they were; any other song is
      appended under id `sequence + 1`. Either way the attempt takes that id,
      so the counter ends at `sequence + 1`. */
  function InsertOrIgnore(rows: seq<Row>, song: Song, now: Instant, sequence: int): (r: seq<Row>)
    ensures rows <= r && |r| <= |rows| + 1
    ensures |r| == |rows| <==> HasTriple(rows, TripleOf(song))
    ensures HasTriple(r, TripleOf(song))
    ensures |r| > |rows| ==> r[|rows|] == Row(sequence + 1, song, now)
    ensures WellFormed(rows, sequence) ==> WellFormed(r, sequence + 1)
  {
    if HasTriple(rows, TripleOf(song)) then rows
    else
      var r := rows + [Row(sequence + 1, song, now)];
      assert TripleOf(r[|rows|].song) == TripleOf(song);
      r
  }

  /** Inserting the same song a second time changes nothing, so two inserts
      of one song grow the table by at most one row. */
  lemma InsertTwice(rows: seq<Row>, song: Song, t1: Instant, t2: Instant, sequence: int)
    ensures var once := InsertOrIgnore(rows, song, t1, sequence);
      && InsertOrIgnore(once, song, t2, sequence + 1) == once
      && |once| == |rows| + (if HasTriple(rows, TripleOf(song)) then 0 else 1)
  {
  }

  /** The table after inserting `songs` one after the other, starting with
      the counter at `sequence`: the i-th attempt runs with the counter at
      `sequence + i`. */
  function StoreAll(rows: seq<Row>, songs: seq<Song>, now: Instant, sequence: int): (r: seq<Row>)
    ensures rows <= r && |r| <= |rows| + |songs|
  {
    if |songs| == 0 then rows
    else
      var before := StoreAll(rows, songs[..|songs| - 1], now, sequence);
      InsertOrIgnore(before, songs[|songs| - 1], now, sequence + |songs| - 1)
  }

  /** Afterwards the table holds every song's triple. */
  lemma {:induction false} StoreAllHolds(rows: seq<Row>, songs: seq<Song>, now: Instant, sequence: int)
    ensures forall s :: s in songs ==> HasTriple(StoreAll(rows, songs, now, sequence), TripleOf(s))
  {
    if |songs| > 0 {
      StoreAllHolds(rows, songs[..|songs| - 1], now, sequence);
      StoreAllStep(StoreAll(rows, songs[..|songs| - 1], now, sequence), songs, now, sequence + |songs| - 1);
    }
  }

  /** A batch keeps the table well formed, with the counter advanced by one
      per song. */
  lemma {:induction false} StoreAllWellFormed(rows: seq<Row>, songs: seq<Song>, now: Instant, sequence: int)
    requires WellFormed(rows, sequence)
    ensures WellFormed(StoreAll(rows, songs, now, sequence), sequence + |songs|)
  {
    if |songs| > 0 {
      var n := |songs| - 1;
      StoreAllWellFormed(rows, songs[..n], now, sequence);
      InsertWellFormed(StoreAll(rows, songs[..n], now, sequence), songs[n], now, sequence + n,
                       StoreAll(rows, songs, now, sequence), sequence + |songs|);
    }
  }

  /** One INSERT OR IGNORE keeps the table well formed, with the counter
      one further on. */
  lemma InsertWellFormed(rows: seq<Row>, song: Song, now: Instant, counter: int, after: seq<Row>, next: int)
    requires WellFormed(rows, counter)
    requires after == InsertOrIgnore(rows, song, now, counter) && next == counter + 1
    ensures WellFormed(after, next)
  {
  }

  lemma StoreAllStep(before: seq<Row>, songs: seq<Song>, now: Instant, sequence: int)
    requires |songs| > 0
    requires forall s :: s in songs[..|songs| - 1] ==> HasTriple(before, TripleOf(s))
    ensures forall s :: s in songs ==> HasTriple(InsertOrIgnore(before, songs[|songs| - 1], now, sequence), TripleOf(s))
  {
    var last := songs[|songs| - 1];
    var r := InsertOrIgnore(before, last, now, sequence);
    assert songs == songs[..|songs| - 1] + [last];
    forall s | s in songs ensures HasTriple(r, TripleOf(s)) {
      if s != last {
        assert s in songs[..|songs| - 1];
        HasTripleGrows(before, r, TripleOf(s));
      }
    }
  }

  /** A batch whose every triple is already stored adds nothing. */
  lemma {:induction false} StoreAllKnown(rows: seq<Row>, songs: seq<Song>, now: Instant, sequence: int)
    requires forall s :: s in songs ==> HasTriple(rows, TripleOf(s))
    ensures StoreAll(rows, songs, now, sequence) == rows
  {
    if |songs| > 0 {
      assert forall s :: s in songs[..|songs| - 1] ==> s in songs;
      StoreAllKnown(rows, songs[..|songs| - 1], now, sequence);
    }
  }

  /** Storing one more song after a batch. */
  lemma StoreAllAppend(rows: seq<Row>, songs: seq<Song>, song: Song, now: Instant, sequence: int)
    ensures StoreAll(rows, songs + [song], now, sequence) ==
      InsertOrIgnore(StoreAll(rows, songs, now, sequence), song, now, sequence + |songs|)
  {
    assert (songs + [song])[..|songs|] == songs;
  }

  /** Storing the first i + 1 songs of a batch is storing the first i and
      then the next one, with the counter i further on. */
  lemma StoreAllPrefix(rows: seq<Row>, songs: seq<Song>, i: nat, now: Instant, sequence: int, before: seq<Row>, counter: int, after: seq<Row>)
    requires i < |songs| && counter == sequence + i
    requires before == StoreAll(rows, songs[..i], now, sequence)
    requires after == InsertOrIgnore(before, songs[i], now, counter)
    ensures after == StoreAll(rows, songs[..i + 1], now, sequence)
  {
    assert songs[..i + 1][..i] == songs[..i];
  }

  /** Storing the same batch again, at any later time and whatever the
      counter has reached, leaves the rows unchanged. */
  lemma StoreAllIdempotent(rows: seq<Row>, songs: seq<Song>, t1: Instant, t2: Instant, s1: int, s2: int)
    ensures StoreAll(StoreAll(rows, songs, t1, s1), songs, t2, s2) == StoreAll(rows, songs, t1, s1)
  {
    StoreAllHolds(rows, songs, t1, s1);
    StoreAllKnown(StoreAll(rows, songs, t1, s1), songs, t2, s2);
  }

  /** The `songs` table on one connection: its rows, its `sqlite_sequence`
      counter and the connection's last inserted rowid. */
  class SongTable {
    var rows: seq<Row>
    var sequence: int
    var lastRowid: int

    ghost predicate Valid()
      reads this
    {
      && WellFormed(rows, sequence)
      && lastRowid == (if |rows| == 0 then 0 else rows[|rows| - 1].id)
    }

    /** `initDatabase` on a database file that does not exist yet. */
    constructor ()
      ensures Valid() && rows == [] && sequence == 0
    {
      rows := [];
      sequence := 0;
      lastRowid := 0;
    }

    /** `insertSong`: one INSERT OR IGNORE. The attempt advances the counter
        even when the row is ignored. */
    method InsertSong(song: Song, now: Instant) returns (res: RunResult)
      requires Valid()
      modifies this
      ensures Valid()
      ensures rows == InsertOrIgnore(old(rows), song, now, old(sequence))
      ensures sequence == old(sequence) + 1
      ensures res.changes == |rows| - |old(rows)|
      ensures res.changes == 0 <==> HasTriple(old(rows), TripleOf(song))
      ensures res.changes == 1 ==> res.lastInsertRowid == sequence && rows[|rows| - 1] == Row(sequence, song, now)
      ensures res.changes == 0 ==> res.lastInsertRowid == old(lastRowid) && rows == old(rows)
      ensures res.changes == 1 ==> forall i :: 0 <= i < |old(rows)| ==> old(rows)[i].id < res.lastInsertRowid
    {
      ghost var before := rows;
      sequence := sequence + 1;
      if HasTriple(rows, TripleOf(song)) {
        res := RunResult(0, lastRowid);
      } else {
        rows := rows + [Row(sequence, song, now)];
        lastRowid := sequence;
        res := RunResult(1, lastRowid);
      }
      InsertWellFormed(before, song, now, old(sequence), rows, sequence);
    }
  }

  // ---------------------------------------------------------------------
  // Read queries.

  function PlayedAtRank(r: Row): int
  {
    r.song.playedAt
  }

  function PlayedAts(rows: seq<Row>): (ts: seq<Instant>)
    ensures |ts| == |rows|
    ensures forall i :: 0 <= i < |rows| ==> ts[i] == rows[i].song.playedAt
  {
    seq(|rows|, i requires 0 <= i < |rows| => rows[i].song.playedAt)
  }

  function Artists(rows: seq<Row>): (a: seq<string>)
    ensures |a| == |rows|
    ensures forall i :: 0 <= i < |rows| ==> a[i] == rows[i].song.artist
  {
    seq(|rows|, i requires 0 <= i < |rows| => rows[i].song.artist)
  }

  function Days(rows: seq<Row>): (d: seq<int>)
    ensures |d| == |rows|
    ensures forall i :: 0 <= i < |rows| ==> d[i] == DayOf(rows[i].song.playedAt)
  {
    seq(|rows|, i requires 0 <= i < |rows| => DayOf(rows[i].song.playedAt))
  }

  /** The distinct artists of some rows. */
  function ArtistSet(rows: seq<Row>): set<string>
  {
    set x | x in rows :: x.song.artist
  }

  /** The distinct calendar days (`DATE(played_at)`) of some rows. */
  function DaySet(rows: seq<Row>): set<int>
  {
    set x | x in rows :: DayOf(x.song.playedAt)
  }

  /** The distinct values of the artist column are those of the rows. */
  lemma ArtistElems(rows: seq<Row>)
    ensures Elems(Artists(rows)) == ArtistSet(rows)
  {
    forall a | a in ArtistSet(rows) ensures a in Elems(Artists(rows)) {
      var x :| x in rows && x.song.artist == a;
      var i :| 0 <= i < |rows| && rows[i] == x;
      assert Artists(rows)[i] == a;
    }
  }

  /** The distinct values of the day column are those of the rows. */
  lemma DayElems(rows: seq<Row>)
    ensures Elems(Days(rows)) == DaySet(rows)
  {
    forall d | d in DaySet(rows) ensures d in Elems(Days(rows)) {
      var x :| x in rows && DayOf(x.song.playedAt) == d;
      var i :| 0 <= i < |rows| && rows[i] == x;
      assert Days(rows)[i] == d;
    }
  }

  /** `WHERE dj_name = name`. */
  function ByDJ(rows: seq<Row>, name: string): seq<Row>
  {
    Filter(rows, (r: Row) => r.song.djName == Some(name))
  }

  /** `WHERE played_at > since`. */
  function PlayedAfter(rows: seq<Row>, since: Instant): (recent: seq<Row>)
    ensures |recent| <= |rows|
    ensures forall x :: x in recent <==> x in rows && x.song.playedAt > since
  {
    var recent := Filter(rows, (r: Row) => r.song.playedAt > since);
    SubMultisetMembers(recent, rows);
    recent
  }

  /** `ORDER BY played_at DESC LIMIT limit` over the given rows. */
  function NewestFirst(rows: seq<Row>, limit: int): (r: seq<Row>)
    ensures SortedDesc(r, PlayedAtRank)
    ensures |r| == if 0 <= limit < |rows| then limit else |rows|
    ensures multiset(r) <= multiset(rows)
    ensures limit < 0 ==> multiset(r) == multiset(rows)
    ensures |r| > 0 ==> forall x :: x in rows && x.song.playedAt > r[|r| - 1].song.playedAt ==> x in r
  {
    var sorted := SortDesc(rows, PlayedAtRank);
    SortDescFacts(rows, PlayedAtRank);
    var r := Limit(sorted, limit);
    PrefixFacts(sorted, r, PlayedAtRank);
    SortedPrefixTop(sorted, |r|, PlayedAtRank);
    r
  }

  /** `getRecentSongs`: at most `limit` rows of the table, newest first, and
      no row newer than the last one returned is left out. */
  function RecentSongs(rows: seq<Row>, limit: int): (r: seq<Row>)
    ensures SortedDesc(r, PlayedAtRank)
    ensures |r| == if 0 <= limit < |rows| then limit else |rows|
    ensures forall x :: x in r ==> x in rows
    ensures |r| > 0 ==> forall x :: x in rows && x.song.playedAt > r[|r| - 1].song.playedAt ==> x in r
  {
    var r := NewestFirst(rows, limit);
    SubMultisetMembers(r, rows);
    r
  }

  lemma ByDJMembers(rows: seq<Row>, name: string)
    ensures forall x :: x in ByDJ(rows, name) <==> x in rows && x.song.djName == Some(name)
  {
    var mine := ByDJ(rows, name);
    SubMultisetMembers(mine, rows);
    forall x | x in mine ensures x.song.djName == Some(name) {
      var i :| 0 <= i < |mine| && mine[i] == x;
    }
  }

  /** `getSongsByDJ`: that DJ's rows only, newest first, at most `limit`. */
  function SongsByDJ(rows: seq<Row>, name: string, limit: int): (r: seq<Row>)
    ensures forall x :: x in r ==> x in rows && x.song.djName == Some(name)
    ensures SortedDesc(r, PlayedAtRank)
    ensures |r| == if 0 <= limit < |ByDJ(rows, name)| then limit else |ByDJ(rows, name)|
    ensures multiset(r) <= multiset(ByDJ(rows, name))
    ensures limit < 0 ==> multiset(r) == multiset(ByDJ(rows, name))
    ensures |r| > 0 ==> forall x :: x in rows && x.song.djName == Some(name) && x.song.playedAt > r[|r| - 1].song.playedAt ==> x in r
  {
    var r := NewestFirst(ByDJ(rows, name), limit);
    ByDJMembers(rows, name);
    SubMultisetMembers(r, ByDJ(rows, name));
    r
  }

  /** `getTopArtistsByDJ`: one entry per artist the DJ played, counting that
      DJ's rows by the artist, most played first. */
  function TopArtistsByDJ(rows: seq<Row>, name: string, limit: int): (r: seq<Tallied<string>>)
    ensures KeysDistinct(r)
    ensures SortedDesc(r, CountRank)
    ensures 0 <= limit ==> |r| <= limit
    ensures forall i :: 0 <= i < |r| ==>
      var plays := Artists(ByDJ(rows, name));
      r[i].key in plays && r[i].count == Count(plays, r[i].key) >= 1
    ensures SumCounts(r) <= |ByDJ(rows, name)|
    ensures |r| == if 0 <= limit < |ArtistSet(ByDJ(rows, name))| then limit else |ArtistSet(ByDJ(rows, name))|
    ensures |r| > 0 ==> forall a :: a in ArtistSet(ByDJ(rows, name)) && Count(Artists(ByDJ(rows, name)), a) > r[|r| - 1].count ==> a in KeysOf(r)
  {
    var mine := ByDJ(rows, name);
    ArtistElems(mine);
    TopCounts(Artists(mine), limit)
  }

  /** The GROUP BY key of `getTopSongs`. */
  datatype SongKey = SongKey(artist: string, title: string)

  function SongKeys(rows: seq<Row>): (k: seq<SongKey>)
    ensures |k| == |rows|
    ensures forall i :: 0 <= i < |rows| ==> k[i] == SongKey(rows[i].song.artist, rows[i].song.title)
  {
    seq(|rows|, i requires 0 <= i < |rows| => SongKey(rows[i].song.artist, rows[i].song.title))
  }

  /** `getTopSongs`: plays per (artist, title) among rows played after
      `since` (the caller's `datetime('now', '-days days')`). */
  function TopSongs(rows: seq<Row>, since: Instant, limit: int): (r: seq<Tallied<SongKey>>)
    ensures KeysDistinct(r)
    ensures SortedDesc(r, CountRank)
    ensures 0 <= limit ==> |r| <= limit
    ensures forall i :: 0 <= i < |r| ==>
      var plays := SongKeys(PlayedAfter(rows, since));
      r[i].key in plays && r[i].count == Count(plays, r[i].key) >= 1
    ensures SumCounts(r) <= |PlayedAfter(rows, since)|
    ensures var plays := SongKeys(PlayedAfter(rows, since));
      |r| == if 0 <= limit < |Elems(plays)| then limit else |Elems(plays)|
    ensures var plays := SongKeys(PlayedAfter(rows, since));
      |r| > 0 ==> forall k :: k in plays && Count(plays, k) > r[|r| - 1].count ==> k in KeysOf(r)
  {
    TopCounts(SongKeys(PlayedAfter(rows, since)), limit)
  }

  // ---------------------------------------------------------------------
  // getDJStats.

  datatype DJStat = DJStat(
    djName: string,
    totalSongs: int,
    uniqueArtists: int,
    daysActive: int,
    lastActive: Instant)

  /** The distinct non-null DJ names of some rows. */
  function DJSet(rows: seq<Row>): set<string>
  {
    set x | x in rows && x.song.djName.Some? :: x.song.djName.value
  }

  /** The non-null `dj_name` of each row, in row order. */
  function DJNames(rows: seq<Row>): (names: seq<string>)
    ensures |names| <= |rows|
    ensures forall n :: n in names <==> n in DJSet(rows)
  {
    if |rows| == 0 then []
    else
      var p, last := rows[..|rows| - 1], rows[|rows| - 1];
      assert rows == p + [last];
      assert DJSet(rows) == DJSet(p) + (if last.song.djName.Some? then {last.song.djName.value} else {});
      DJNames(p) + (if last.song.djName.Some? then [last.song.djName.value] else [])
  }

  /** A DJ's name occurs in DJNames once per row of that DJ. */
  lemma {:induction false} CountDJNames(rows: seq<Row>, name: string)
    ensures Count(DJNames(rows), name) == |ByDJ(rows, name)|
  {
    if |rows| > 0 {
      var p, x := rows[..|rows| - 1], rows[|rows| - 1];
      CountDJNames(p, name);
      var tail := if x.song.djName.Some? then [x.song.djName.value] else [];
      CountAppend(DJNames(p), tail, name);
    }
  }

  lemma CountAppend<K>(s: seq<K>, tail: seq<K>, k: K)
    requires |tail| <= 1
    ensures Count(s + tail, k) == Count(s, k) + (if |tail| == 1 && tail[0] == k then 1 else 0)
  {
    if |tail| == 1 {
      assert (s + tail)[..|s + tail| - 1] == s;
    } else {
      assert s + tail == s;
    }
  }

  /** The aggregate row of one DJ group. */
  function StatOf(rows: seq<Row>, e: Tallied<string>): (st: DJStat)
    ensures st.djName == e.key && st.totalSongs == e.count
  {
    var mine := ByDJ(rows, e.key);
    DJStat(e.key, e.count, |Elems(Artists(mine))|, |Elems(Days(mine))|,
      if |mine| > 0 then MaxOf(PlayedAts(mine)) else 0)
  }

  function SumTotals(r: seq<DJStat>): int
  {
    if |r| == 0 then 0 else r[0].totalSongs + SumTotals(r[1..])
  }

  function StatsOf(rows: seq<Row>, groups: seq<Tallied<string>>): (r: seq<DJStat>)
    ensures |r| == |groups|
    ensures forall i :: 0 <= i < |r| ==> r[i] == StatOf(rows, groups[i])
  {
    seq(|groups|, i requires 0 <= i < |groups| => StatOf(rows, groups[i]))
  }

  /** The groups' totals add up to their counts. */
  lemma {:induction false} StatsOfTotals(rows: seq<Row>, groups: seq<Tallied<string>>)
    ensures SumTotals(StatsOf(rows, groups)) == SumCounts(groups)
  {
    if |groups| > 0 {
      StatsOfTotals(rows, groups[1..]);
      assert StatsOf(rows, groups)[1..] == StatsOf(rows, groups[1..]);
    }
  }

  function NamesOf(r: seq<DJStat>): (n: seq<string>)
    ensures |n| == |r|
    ensures forall i :: 0 <= i < |r| ==> n[i] == r[i].djName
  {
    seq(|r|, i requires 0 <= i < |r| => r[i].djName)
  }

  /** `getDJStats`: one group per non-null dj_name, largest first; each
      group's counts are those of exactly that DJ's rows. */
  function DJStats(rows: seq<Row>): (r: seq<DJStat>)
    ensures forall i, j :: 0 <= i < j < |r| ==> r[i].djName != r[j].djName && r[i].totalSongs >= r[j].totalSongs
    ensures forall n :: n in DJNames(rows) <==> n in NamesOf(r)
    ensures SumTotals(r) == |DJNames(rows)|
    ensures forall i :: 0 <= i < |r| ==>
      var mine := ByDJ(rows, r[i].djName);
      && r[i].totalSongs == |mine| >= 1
      && 1 <= r[i].uniqueArtists <= r[i].totalSongs
      && 1 <= r[i].daysActive <= r[i].totalSongs
      && r[i].uniqueArtists == |ArtistSet(mine)| && r[i].daysActive == |DaySet(mine)|
      && r[i].lastActive in PlayedAts(mine)
      && forall x :: x in mine ==> x.song.playedAt <= r[i].lastActive
  {
    var groups := SortDesc(Tally(DJNames(rows)), CountRank);
    SortedTallyFacts(DJNames(rows), CountRank);
    GroupStats(rows, groups);
    StatsOf(rows, groups)
  }

  /** The statistics of a sorted tally of the DJ names. */
  lemma GroupStats(rows: seq<Row>, groups: seq<Tallied<string>>)
    requires KeysDistinct(groups) && SortedDesc(groups, CountRank) && SumCounts(groups) == |DJNames(rows)|
    requires forall i :: 0 <= i < |groups| ==> groups[i].key in DJNames(rows) && groups[i].count == Count(DJNames(rows), groups[i].key) >= 1
    requires forall k :: k in DJNames(rows) <==> k in KeysOf(groups)
    ensures var r := StatsOf(rows, groups);
      && (forall i, j :: 0 <= i < j < |r| ==> r[i].djName != r[j].djName && r[i].totalSongs >= r[j].totalSongs)
      && (forall n :: n in DJNames(rows) <==> n in NamesOf(r))
      && SumTotals(r) == |DJNames(rows)|
      && forall i :: 0 <= i < |r| ==>
        var mine := ByDJ(rows, r[i].djName);
        && r[i].totalSongs == |mine| >= 1
        && 1 <= r[i].uniqueArtists <= r[i].totalSongs
        && 1 <= r[i].daysActive <= r[i].totalSongs
        && r[i].uniqueArtists == |ArtistSet(mine)| && r[i].daysActive == |DaySet(mine)|
        && r[i].lastActive in PlayedAts(mine)
        && forall x :: x in mine ==> x.song.playedAt <= r[i].lastActive
  {
    var r := StatsOf(rows, groups);
    forall i, j | 0 <= i < j < |r| ensures r[i].djName != r[j].djName && r[i].totalSongs >= r[j].totalSongs {
      assert CountRank(groups[i]) >= CountRank(groups[j]);
    }
    forall i | 0 <= i < |r|
      ensures var mine := ByDJ(rows, r[i].djName);
        && r[i].totalSongs == |mine| >= 1
        && 1 <= r[i].uniqueArtists <= r[i].totalSongs
        && 1 <= r[i].daysActive <= r[i].totalSongs
        && r[i].uniqueArtists == |ArtistSet(mine)| && r[i].daysActive == |DaySet(mine)|
        && r[i].lastActive in PlayedAts(mine)
        && forall x :: x in mine ==> x.song.playedAt <= r[i].lastActive
    {
      StatOfFacts(rows, groups[i]);
    }
    GroupNames(DJNames(rows), groups, r);
    StatsOfTotals(rows, groups);
  }

  lemma GroupNames(names: seq<string>, groups: seq<Tallied<string>>, r: seq<DJStat>)
    requires forall n :: n in names <==> n in KeysOf(groups)
    requires |r| == |groups| && forall i :: 0 <= i < |r| ==> r[i].djName == groups[i].key
    ensures forall n :: n in names <==> n in NamesOf(r)
  {
    forall n ensures n in KeysOf(groups) <==> n in NamesOf(r) {
      if n in KeysOf(groups) {
        var i :| 0 <= i < |groups| && KeysOf(groups)[i] == n;
        assert NamesOf(r)[i] == n;
      }
      if n in NamesOf(r) {
        var i :| 0 <= i < |r| && NamesOf(r)[i] == n;
        assert KeysOf(groups)[i] == n;
      }
    }
  }

  /** One DJ group's aggregates, given that its count is the DJ's number of
      rows. */
  lemma StatOfFacts(rows: seq<Row>, e: Tallied<string>)
    requires e.count == Count(DJNames(rows), e.key) >= 1
    ensures var st, mine := StatOf(rows, e), ByDJ(rows, e.key);
      && st.djName == e.key
      && st.totalSongs == |mine| >= 1
      && 1 <= st.uniqueArtists <= st.totalSongs
      && 1 <= st.daysActive <= st.totalSongs
      && st.uniqueArtists == |ArtistSet(mine)| && st.daysActive == |DaySet(mine)|
      && st.lastActive in PlayedAts(mine)
      && forall x :: x in mine ==> x.song.playedAt <= st.lastActive
  {
    var mine := ByDJ(rows, e.key);
    CountDJNames(rows, e.key);
    ElemsCard(Artists(mine));
    ElemsCard(Days(mine));
    ArtistElems(mine);
    DayElems(mine);
    var st := StatOf(rows, e);
    forall x | x in mine ensures x.song.playedAt <= st.lastActive {
      var j :| 0 <= j < |mine| && mine[j] == x;
      assert PlayedAts(mine)[j] in PlayedAts(mine);
    }
  }
}
