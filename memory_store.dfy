/** The in-memory backend: an append-only array of songs with an id counter,
    sorted in place by `getSongs`, aggregated through Map-filling loops, and
    searched case-insensitively. Unlike the SQLite table it never drops a
    duplicate. A stored song has the shape of a table row (id, the song,
    created_at), so it reuses `Row`. */
module MemoryStore {
  import opened Collections
  import opened Text
  import opened Songs
  import opened SqliteStore

  /** A JavaScript string or null/undefined used as a condition: truthy
      when present and non-empty. */
  predicate Truthy(o: Option<string>)
  {
    o.Some? && o.value != ""
  }

  /** `o || fallback` on an optional string. */
  function OrElse(o: Option<string>, fallback: string): (r: string)
    ensures Truthy(o) ==> r == o.value
    ensures !Truthy(o) ==> r == fallback
  {
    if Truthy(o) then o.value else fallback
  }

  /** The ids of a log in insertion order: 1, 2, 3, ... */
  predicate Numbered(log: seq<Row>)
  {
    forall i :: 0 <= i < |log| ==> log[i].id == i + 1
  }

  lemma TwoPositions<T>(s: seq<T>, i: int, j: int)
    requires 0 <= i < j < |s| && s[i] == s[j]
    ensures multiset(s)[s[i]] >= 2
  {
    assert s == s[..j] + s[j..];
    assert s[i] in s[..j];
    assert s[j] in s[j..];
  }

  /** A numbered log holds no song twice. */
  lemma {:induction false} NumberedOnce(log: seq<Row>)
    requires Numbered(log)
    ensures forall x :: multiset(log)[x] <= 1
  {
    if |log| > 0 {
      var p, last := log[..|log| - 1], log[|log| - 1];
      assert log == p + [last];
      NumberedOnce(p);
      assert last !in p by {
        forall k | 0 <= k < |p| ensures p[k] != last {
          assert p[k].id == k + 1;
        }
      }
    }
  }

  /** The stored songs, in whatever order the last sort left them, are the
      log rearranged: every id occurs once and lies between 1 and the number
      of songs. */
  lemma IdsDistinct(songs: seq<Row>, log: seq<Row>)
    requires Numbered(log) && multiset(songs) == multiset(log)
    ensures |songs| == |log|
    ensures forall i :: 0 <= i < |songs| ==> 1 <= songs[i].id <= |log|
    ensures forall i, j :: 0 <= i < j < |songs| ==> songs[i].id != songs[j].id
  {
    calc {
      |songs|;
      |multiset(songs)|;
      |multiset(log)|;
      |log|;
    }
    NumberedOnce(log);
    forall i | 0 <= i < |songs| ensures 1 <= songs[i].id <= |log| && songs[i] == log[songs[i].id - 1] {
      assert songs[i] in multiset(log);
      var k :| 0 <= k < |log| && log[k] == songs[i];
    }
    forall i, j | 0 <= i < j < |songs| ensures songs[i].id != songs[j].id {
      if songs[i].id == songs[j].id {
        TwoPositions(songs, i, j);
        assert false;
      }
    }
  }

  /** Ids follow insertion order strictly. */
  lemma NumberedIncreasing(log: seq<Row>)
    requires Numbered(log)
    ensures forall i, j :: 0 <= i < j < |log| ==> log[i].id < log[j].id
  {
  }

  // ---------------------------------------------------------------------
  // Aggregations.

  /** `songs.filter(s => s.dj_name).map(s => s.dj_name)`. */
  function TruthyDJs(songs: seq<Row>): (names: seq<string>)
    ensures |names| <= |songs|
    ensures forall n :: n in names <==> exists i :: 0 <= i < |songs| && Truthy(songs[i].song.djName) && songs[i].song.djName.value == n
  {
    if |songs| == 0 then []
    else
      var p, last := songs[..|songs| - 1], songs[|songs| - 1];
      var names := TruthyDJs(p) + (if Truthy(last.song.djName) then [last.song.djName.value] else []);
      assert forall i :: 0 <= i < |p| ==> p[i] == songs[i];
      names
  }

  /** The distinct truthy DJ names of some songs. */
  function TruthyDJSet(songs: seq<Row>): set<string>
  {
    set x | x in songs && Truthy(x.song.djName) :: x.song.djName.value
  }

  lemma TruthyDJElems(songs: seq<Row>)
    ensures Elems(TruthyDJs(songs)) == TruthyDJSet(songs)
  {
    forall n | n in Elems(TruthyDJs(songs)) ensures n in TruthyDJSet(songs) {
      var i :| 0 <= i < |songs| && Truthy(songs[i].song.djName) && songs[i].song.djName.value == n;
      assert songs[i] in songs;
    }
    forall n | n in TruthyDJSet(songs) ensures n in Elems(TruthyDJs(songs)) {
      var x :| x in songs && Truthy(x.song.djName) && x.song.djName.value == n;
      var i :| 0 <= i < |songs| && songs[i] == x;
    }
  }

  datatype MemStats = MemStats(totalSongs: nat, uniqueArtists: nat, totalDJs: nat, lastUpdate: Option<Instant>)

  /** The show a DJ's entry ends with: the last truthy show_name among the
      DJ's songs, or "" when there is none. */
  function LastShow(songs: seq<Row>, name: string): string
  {
    if |songs| == 0 then ""
    else
      var last := songs[|songs| - 1];
      if last.song.djName == Some(name) && Truthy(last.song.showName) then last.song.showName.value
      else LastShow(songs[..|songs| - 1], name)
  }

  /** The show half of the `djMap` entries after the forEach: each DJ's
      entry is rewritten on each of the DJ's songs with `show_name ||
      existing.show`, a new entry starting from `show_name || ''`. */
  function ShowMap(songs: seq<Row>): map<string, string>
  {
    if |songs| == 0 then map[]
    else
      var shows := ShowMap(songs[..|songs| - 1]);
      var s := songs[|songs| - 1].song;
      if Truthy(s.djName) then
        var existing := if s.djName.value in shows then shows[s.djName.value] else OrElse(s.showName, "");
        shows[s.djName.value := OrElse(s.showName, existing)]
      else shows
  }

  /** A DJ with no truthy name among the songs has no show. */
  lemma {:induction false} LastShowAbsent(songs: seq<Row>, name: string)
    requires name != "" && name !in TruthyDJs(songs)
    ensures LastShow(songs, name) == ""
  {
    if |songs| > 0 {
      var p, last := songs[..|songs| - 1], songs[|songs| - 1].song;
      assert TruthyDJs(songs) == TruthyDJs(p) + (if Truthy(last.djName) then [last.djName.value] else []);
      LastShowAbsent(p, name);
    }
  }

  /** The map holds an entry for exactly the truthy DJ names, and each
      entry's show is the DJ's last truthy show_name. */
  lemma {:induction false} ShowMapLast(songs: seq<Row>)
    ensures forall n :: n in ShowMap(songs) <==> n in TruthyDJs(songs)
    ensures forall n :: n in ShowMap(songs) ==> ShowMap(songs)[n] == LastShow(songs, n)
  {
    if |songs| > 0 {
      var p, last := songs[..|songs| - 1], songs[|songs| - 1].song;
      ShowMapLast(p);
      assert TruthyDJs(songs) == TruthyDJs(p) + (if Truthy(last.djName) then [last.djName.value] else []);
      if Truthy(last.djName) {
        var name := last.djName.value;
        if name !in TruthyDJs(p) {
          LastShowAbsent(p, name);
        }
      }
    }
  }

  datatype DJEntry = DJEntry(djName: string, showName: string, songCount: int)

  /** `getDJs`: one entry per truthy DJ name, most songs first. */
  function DJList(songs: seq<Row>): seq<DJEntry>
  {
    var sorted := SortDesc(Tally(TruthyDJs(songs)), CountRank);
    seq(|sorted|, j requires 0 <= j < |sorted| => DJEntry(sorted[j].key, LastShow(songs, sorted[j].key), sorted[j].count))
  }

  function Counted(djs: seq<DJEntry>): (t: seq<Tallied<string>>)
    ensures |t| == |djs|
    ensures forall j :: 0 <= j < |djs| ==> t[j] == Tallied(djs[j].djName, djs[j].songCount)
  {
    seq(|djs|, j requires 0 <= j < |djs| => Tallied(djs[j].djName, djs[j].songCount))
  }

  /** The DJ list has one entry per truthy DJ name, with that DJ's number of
      songs and last show; the counts are non-increasing and add up to the
      number of songs with a truthy DJ name. */
  lemma DJListFacts(songs: seq<Row>)
    ensures var djs := DJList(songs);
      && KeysDistinct(Counted(djs))
      && SortedDesc(Counted(djs), CountRank)
      && SumCounts(Counted(djs)) == |TruthyDJs(songs)|
      && (forall j :: 0 <= j < |djs| ==>
            && djs[j].djName in TruthyDJs(songs)
            && djs[j].songCount == Count(TruthyDJs(songs), djs[j].djName) >= 1
            && djs[j].showName == LastShow(songs, djs[j].djName))
      && (forall n :: n in TruthyDJs(songs) ==> n in KeysOf(Counted(djs)))
  {
    var sorted := SortDesc(Tally(TruthyDJs(songs)), CountRank);
    SortedTallyFacts(TruthyDJs(songs), CountRank);
    assert Counted(DJList(songs)) == sorted;
  }

  /** One forEach step on the two halves of the DJ Map. */
  lemma ForEachStep(songs: seq<Row>, i: nat)
    requires i < |songs|
    ensures var s := songs[i].song;
      && TruthyDJs(songs[..i + 1]) == TruthyDJs(songs[..i]) + (if Truthy(s.djName) then [s.djName.value] else [])
      && Tally(TruthyDJs(songs[..i + 1])) ==
           (if Truthy(s.djName) then Bump(Tally(TruthyDJs(songs[..i])), s.djName.value) else Tally(TruthyDJs(songs[..i])))
      && ShowMap(songs[..i + 1]) ==
           (if Truthy(s.djName) then
              var shows := ShowMap(songs[..i]);
              var existing := if s.djName.value in shows then shows[s.djName.value] else OrElse(s.showName, "");
              shows[s.djName.value := OrElse(s.showName, existing)]
            else ShowMap(songs[..i]))
  {
    assert songs[..i + 1][..i] == songs[..i];
    var s := songs[i].song;
    if Truthy(s.djName) {
      assert TruthyDJs(songs[..i + 1]) == TruthyDJs(songs[..i]) + [s.djName.value];
      TallySnoc(TruthyDJs(songs[..i]), s.djName.value);
    } else {
      assert TruthyDJs(songs[..i + 1]) == TruthyDJs(songs[..i]);
    }
  }

  /** Every key of the sorted DJ tally has its last show in the map. */
  lemma ShowsCover(songs: seq<Row>, sorted: seq<Tallied<string>>)
    requires sorted == SortDesc(Tally(TruthyDJs(songs)), CountRank)
    ensures forall j :: 0 <= j < |sorted| ==>
      sorted[j].key in ShowMap(songs) && ShowMap(songs)[sorted[j].key] == LastShow(songs, sorted[j].key)
  {
    SortedTallyFacts(TruthyDJs(songs), CountRank);
    ShowMapLast(songs);
  }

  /** `getTopArtists(limit)`: per-artist play counts, most played first,
      then `slice(0, limit)`. */
  function TopArtistList(songs: seq<Row>, limit: int): seq<Tallied<string>>
  {
    JsSlice(SortDesc(Tally(Artists(songs)), CountRank), 0, limit)
  }

  lemma TopArtistFacts(songs: seq<Row>, limit: int)
    ensures var r := TopArtistList(songs, limit);
      && KeysDistinct(r) && SortedDesc(r, CountRank)
      && (0 <= limit ==> |r| <= limit)
      && (forall i :: 0 <= i < |r| ==> r[i].key in Artists(songs) && r[i].count == Count(Artists(songs), r[i].key) >= 1)
      && SumCounts(r) <= |songs|
      && (var d := |ArtistSet(songs)|;
          |r| == if 0 <= limit then (if limit < d then limit else d) else (if d + limit > 0 then d + limit else 0))
      && (|r| > 0 ==> forall a :: a in ArtistSet(songs) && Count(Artists(songs), a) > r[|r| - 1].count ==> a in KeysOf(r))
  {
    var keys := Artists(songs);
    var sorted := SortDesc(Tally(keys), CountRank);
    JsSliceFromStart(sorted, limit);
    TopTallyPrefix(keys, SliceIndex(limit, |sorted|));
    ArtistElems(songs);
  }

  /** Whether a song matches an already lower-cased query. */
  predicate Matches(r: Row, lowerQuery: string)
  {
    || Contains(ToLower(r.song.artist), lowerQuery)
    || Contains(ToLower(r.song.title), lowerQuery)
    || (Truthy(r.song.album) && Contains(ToLower(r.song.album.value), lowerQuery))
  }

  function SearchIn(songs: seq<Row>, query: string): (found: seq<Row>)
    ensures |found| <= |songs|
    ensures forall x :: x in found <==> x in songs && Matches(x, ToLower(query))
    ensures multiset(found) <= multiset(songs)
    ensures Subseq(found, songs)
  {
    var q := ToLower(query);
    var found := Filter(songs, (r: Row) => Matches(r, q));
    SubMultisetMembers(found, songs);
    found
  }

  /** Every string contains the empty string. */
  lemma ContainsEmpty(hay: string)
    ensures Contains(hay, "")
  {
    assert OccursAt(hay, "", 0);
  }

  /** An empty query returns every song, in stored order. */
  lemma SearchEmpty(songs: seq<Row>)
    ensures SearchIn(songs, "") == songs
  {
    var q := ToLower("");
    forall x | x in songs ensures Matches(x, q) {
      ContainsEmpty(ToLower(x.song.artist));
    }
    FilterKeepsAll(songs, (r: Row) => Matches(r, q));
  }

  // ---------------------------------------------------------------------
  // The class.

  class InMemoryDatabase {
    var songs: seq<Row>
    var nextId: nat
    /** The songs stored since the last clear, in insertion order. */
    ghost var log: seq<Row>

    ghost predicate Valid()
      reads this
    {
      nextId == |log| + 1 && Numbered(log) && multiset(songs) == multiset(log)
    }

    constructor ()
      ensures Valid() && songs == [] && nextId == 1 && log == []
    {
      songs := [];
      nextId := 1;
      log := [];
    }

    /** `insertSong`: always appends, with the next id and `now` as
        created_at, and always reports one change. */
    method InsertSong(song: Song, now: Instant) returns (res: RunResult)
      requires Valid()
      modifies this
      ensures Valid()
      ensures songs == old(songs) + [Row(old(nextId), song, now)]
      ensures log == old(log) + [Row(old(nextId), song, now)]
      ensures nextId == old(nextId) + 1
      ensures res == RunResult(1, old(nextId))
    {
      var row := Row(nextId, song, now);
      songs := songs + [row];
      log := log + [row];
      res := RunResult(1, nextId);
      nextId := nextId + 1;
    }

    /** `getSongs(limit = 50, offset = 0)`: sorts the stored array in place,
        newest played_at first, and returns `slice(offset, offset + limit)`. */
    method GetSongs(limit: Option<int>, offset: Option<int>) returns (page: seq<Row>)
      requires Valid()
      modifies this
      ensures Valid()
      ensures songs == SortDesc(old(songs), PlayedAtRank)
      ensures SortedDesc(songs, PlayedAtRank) && multiset(songs) == multiset(old(songs))
      ensures nextId == old(nextId) && log == old(log)
      ensures var l := if limit.Some? then limit.value else 50;
        var o := if offset.Some? then offset.value else 0;
        page == JsSlice(songs, o, o + l)
    {
      var l := if limit.Some? then limit.value else 50;
      var o := if offset.Some? then offset.value else 0;
      SortDescFacts(songs, PlayedAtRank);
      songs := SortDesc(songs, PlayedAtRank);
      page := JsSlice(songs, o, o + l);
    }

    /** `getSongCount`: the number of songs inserted since the last clear. */
    function GetSongCount(): (n: nat)
      requires Valid()
      reads this
      ensures n == nextId - 1 && n == |log|
    {
      IdsDistinct(songs, log);
      |songs|
    }

    /** `getStats`: lastUpdate is the created_at of the last element in the
        array's current order, which after a `getSongs` sort is the song
        played earliest rather than the one stored last. */
    function GetStats(): (st: MemStats)
      reads this
      ensures st.totalSongs == |songs|
      ensures st.uniqueArtists == |ArtistSet(songs)|
      ensures st.totalDJs == |TruthyDJSet(songs)|
      ensures st.uniqueArtists <= st.totalSongs && (|songs| > 0 ==> st.uniqueArtists >= 1)
      ensures st.totalDJs <= st.totalSongs
      ensures st.lastUpdate.None? <==> |songs| == 0
      ensures |songs| > 0 ==> st.lastUpdate == Some(songs[|songs| - 1].createdAt)
    {
      ElemsCard(Artists(songs));
      ElemsCard(TruthyDJs(songs));
      ArtistElems(songs);
      TruthyDJElems(songs);
      MemStats(|songs|, |Elems(Artists(songs))|, |Elems(TruthyDJs(songs))|,
        if |songs| > 0 then Some(songs[|songs| - 1].createdAt) else None)
    }

    /** `getDJs`: a forEach filling a Map of {count, show} per truthy
        dj_name, then the entries sorted by count, most first. The count half
        of the Map is the tally of DJ names, the show half a map. */
    method GetDJs() returns (djs: seq<DJEntry>)
      ensures djs == DJList(songs)
    {
      var counts: seq<Tallied<string>> := [];
      var shows: map<string, string> := map[];
      var i := 0;
      while i < |songs|
        invariant 0 <= i <= |songs|
        invariant counts == Tally(TruthyDJs(songs[..i]))
        invariant shows == ShowMap(songs[..i])
      {
        var s := songs[i].song;
        ForEachStep(songs, i);
        if Truthy(s.djName) {
          var name := s.djName.value;
          var existing := if name in shows then shows[name] else OrElse(s.showName, "");
          counts := Bump(counts, name);
          shows := shows[name := OrElse(s.showName, existing)];
        }
        i := i + 1;
      }
      assert songs[..i] == songs;
      var sorted := SortDesc(counts, CountRank);
      ShowsCover(songs, sorted);
      djs := seq(|sorted|, j requires 0 <= j < |sorted| && sorted[j].key in shows =>
        DJEntry(sorted[j].key, shows[sorted[j].key], sorted[j].count));
    }

    /** `getTopArtists(limit = 10)`: a forEach tallying artists, sorted by
        count, most first, then `slice(0, limit)`. */
    method GetTopArtists(limit: Option<int>) returns (top: seq<Tallied<string>>)
      ensures top == TopArtistList(songs, if limit.Some? then limit.value else 10)
    {
      var counts: seq<Tallied<string>> := [];
      var i := 0;
      while i < |songs|
        invariant 0 <= i <= |songs|
        invariant counts == Tally(Artists(songs[..i]))
      {
        assert Artists(songs[..i + 1]) == Artists(songs[..i]) + [songs[i].song.artist];
        counts := Bump(counts, songs[i].song.artist);
        i := i + 1;
      }
      assert songs[..i] == songs;
      top := JsSlice(SortDesc(counts, CountRank), 0, if limit.Some? then limit.value else 10);
    }

    /** `searchSongs(query)`: the stored songs whose artist, title or
        (truthy) album contains the query, ignoring case. */
    function SearchSongs(query: string): (found: seq<Row>)
      reads this
      ensures forall x :: x in found <==> x in songs && Matches(x, ToLower(query))
      ensures Subseq(found, songs)
      ensures found == SearchIn(songs, query)
    {
      SearchIn(songs, query)
    }

    /** `clear`: empties the array and restarts the ids at 1. */
    method Clear()
      modifies this
      ensures Valid() && songs == [] && nextId == 1 && log == []
    {
      songs := [];
      nextId := 1;
      log := [];
    }
  }

  /** The same song inserted twice: the in-memory store keeps both copies,
      the SQLite table keeps one. */
  method DuplicateInsert(song: Song, now: Instant) returns (memCount: nat, tableCount: nat)
    ensures memCount == 2 && tableCount == 1
  {
    var mem := new InMemoryDatabase();
    var r1 := mem.InsertSong(song, now);
    var r2 := mem.InsertSong(song, now);
    memCount := mem.GetSongCount();
    var table := new SongTable();
    var t1 := table.InsertSong(song, now);
    var t2 := table.InsertSong(song, now);
    tableCount := |table.rows|;
  }
}
