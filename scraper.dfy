/** The playlist scraper: the DJ schedule, the line parser of
    `scrapePlaylist` and the storing loop of `fetchAndStoreSongs`.

    The page arrives as text (`$('body').text()`), or as None when fetching
    or reading it failed; the weekday, the year and the local time zone
    offset are the caller's clock readings. */
module Scraper {
  import opened Collections
  import opened Text
  import opened Songs
  import opened SqliteStore

  // ---------------------------------------------------------------------
  // getCurrentDJ

  datatype DJInfo = DJInfo(dj: string, show: string)

  const Automated: DJInfo := DJInfo("Automated", "Automated Programming")

  /** `getCurrentDJ(hour)`, with `weekday` the value of Date.getDay()
      (0 = Sunday … 6 = Saturday) it reads. */
  function CurrentDJ(weekday: int, hour: int): DJInfo
  {
    if 1 <= weekday <= 5 && 6 <= hour < 10 then DJInfo("Alex Cortright", "Morning Show")
    else if 1 <= weekday <= 5 && 10 <= hour < 14 then DJInfo("Megan Byrd", "Middays")
    else if 1 <= weekday <= 5 && 14 <= hour < 18 then DJInfo("Rob Timm", "Afternoons")
    else if 1 <= weekday <= 5 && 18 <= hour < 20 then DJInfo("Various", "Evening Shows")
    else if 1 <= weekday <= 5 && 20 <= hour < 22 then DJInfo("Paul Hartman", "Detour")
    else if weekday == 6 && 8 <= hour < 10 then DJInfo("Brooks Long", "Six Degrees of Soul")
    else if weekday == 6 && 10 <= hour < 14 then DJInfo("Weekend Host", "Weekend Mix")
    else if weekday == 0 && 10 <= hour < 12 then DJInfo("Sunday Host", "Sunday Morning")
    else if weekday == 0 && 12 <= hour < 14 then DJInfo("Various", "Sunday Afternoon")
    else Automated
  }

  /** A slot of the weekly programme: days firstDay..lastDay, hours
      [fromHour, toHour). */
  datatype Band = Band(firstDay: int, lastDay: int, fromHour: int, toHour: int, info: DJInfo)

  /** The station's weekly programme, as a table. */
  const Programme: seq<Band> := [
    Band(1, 5, 6, 10, DJInfo("Alex Cortright", "Morning Show")),
    Band(1, 5, 10, 14, DJInfo("Megan Byrd", "Middays")),
    Band(1, 5, 14, 18, DJInfo("Rob Timm", "Afternoons")),
    Band(1, 5, 18, 20, DJInfo("Various", "Evening Shows")),
    Band(1, 5, 20, 22, DJInfo("Paul Hartman", "Detour")),
    Band(6, 6, 8, 10, DJInfo("Brooks Long", "Six Degrees of Soul")),
    Band(6, 6, 10, 14, DJInfo("Weekend Host", "Weekend Mix")),
    Band(0, 0, 10, 12, DJInfo("Sunday Host", "Sunday Morning")),
    Band(0, 0, 12, 14, DJInfo("Various", "Sunday Afternoon"))
  ]

  predicate Covers(b: Band, weekday: int, hour: int)
  {
    b.firstDay <= weekday <= b.lastDay && b.fromHour <= hour < b.toHour
  }

  /** No slot of the programme overlaps another, so the order in which the
      schedule is consulted does not matter. */
  lemma ProgrammeDisjoint(weekday: int, hour: int, i: int, j: int)
    requires 0 <= i < j < |Programme|
    requires Covers(Programme[i], weekday, hour)
    ensures !Covers(Programme[j], weekday, hour)
  {
  }

  /** Inside a slot of the programme the schedule names that slot's host
      and show. */
  lemma CurrentDJInSlot(weekday: int, hour: int, i: int)
    requires 0 <= i < |Programme| && Covers(Programme[i], weekday, hour)
    ensures CurrentDJ(weekday, hour) == Programme[i].info
  {
  }

  /** Outside every slot, including every hour before 6 or from 22 on and
      hours past 23, the schedule falls back to automated programming. */
  lemma CurrentDJOffProgramme(weekday: int, hour: int)
    requires forall i :: 0 <= i < |Programme| ==> !Covers(Programme[i], weekday, hour)
    ensures CurrentDJ(weekday, hour) == Automated
  {
    assert !Covers(Programme[0], weekday, hour) && !Covers(Programme[1], weekday, hour);
    assert !Covers(Programme[2], weekday, hour) && !Covers(Programme[3], weekday, hour);
    assert !Covers(Programme[4], weekday, hour) && !Covers(Programme[5], weekday, hour);
    assert !Covers(Programme[6], weekday, hour) && !Covers(Programme[7], weekday, hour);
    assert !Covers(Programme[8], weekday, hour);
  }

  lemma NightIsAutomated(weekday: int, hour: int)
    requires hour < 6 || 22 <= hour
    ensures CurrentDJ(weekday, hour) == Automated
  {
  }

  // ---------------------------------------------------------------------
  // The lines of the page.

  /** `line.trim()` is truthy. */
  predicate NonBlank(line: string)
  {
    Trim(line) != ""
  }

  /** `text.split('\n').filter(line => line.trim())`. */
  function Lines(text: string): (lines: seq<string>)
    ensures forall i :: 0 <= i < |lines| ==> NonBlank(lines[i]) && '\n' !in lines[i]
    ensures Subseq(lines, SplitOn(text, '\n'))
    ensures forall l :: l in SplitOn(text, '\n') && NonBlank(l) ==> l in lines
  {
    var pieces := SplitOn(text, '\n');
    var lines := Filter(pieces, NonBlank);
    KeptLines(pieces, lines);
    lines
  }

  lemma KeptLines(pieces: seq<string>, lines: seq<string>)
    requires lines == Filter(pieces, NonBlank)
    requires forall i :: 0 <= i < |pieces| ==> '\n' !in pieces[i]
    ensures forall i :: 0 <= i < |lines| ==> NonBlank(lines[i]) && '\n' !in lines[i]
  {
    SubMultisetMembers(lines, pieces);
    forall i | 0 <= i < |lines| ensures '\n' !in lines[i] {
      assert lines[i] in pieces;
    }
  }

  // ---------------------------------------------------------------------
  // The three line patterns.

  /** `\d{2}\/\d{2}` */
  predicate IsDateToken(d: string)
  {
    |d| == 5 && IsDigit(d[0]) && IsDigit(d[1]) && d[2] == '/' && IsDigit(d[3]) && IsDigit(d[4])
  }

  /** `\d{1,2}:\d{2}` */
  predicate IsTimeToken(t: string)
  {
    || (|t| == 4 && IsDigit(t[0]) && t[1] == ':' && IsDigit(t[2]) && IsDigit(t[3]))
    || (|t| == 5 && IsDigit(t[0]) && IsDigit(t[1]) && t[2] == ':' && IsDigit(t[3]) && IsDigit(t[4]))
  }

  /** `parseInt(time.split(':')[0])`: one or two digits, never range-checked. */
  function HourValue(time: string): (h: nat)
    requires IsTimeToken(time)
    ensures h < 100
  {
    var digits := time[..|time| - 3];
    assert Pow10(|digits|) <= 100;
    DigitsValue(digits)
  }

  function MinuteValue(time: string): (m: nat)
    requires IsTimeToken(time)
    ensures m < 100
  {
    DigitsValue(time[|time| - 2..])
  }

  /** The date and time a line opens with. */
  datatype Stamp = Stamp(date: string, time: string)

  /** `^(\d{2}\/\d{2}) (\d{1,2}:\d{2})`. Two hour digits are tried first; the
      one-digit reading cannot succeed where the two-digit one was tried,
      since it needs a colon where the other has a digit. */
  function LeadingStamp(line: string): (r: Option<Stamp>)
    ensures r.Some? ==>
      && IsDateToken(r.value.date) && IsTimeToken(r.value.time)
      && 6 + |r.value.time| <= |line|
      && line[..6 + |r.value.time|] == r.value.date + " " + r.value.time
  {
    if |line| < 10 || !IsDateToken(line[..5]) || line[5] != ' ' then None
    else if |line| >= 11 && IsTimeToken(line[6..11]) then Some(Stamp(line[..5], line[6..11]))
    else if IsTimeToken(line[6..10]) then Some(Stamp(line[..5], line[6..10]))
    else None
  }

  /** `^\d{2}\/\d{2} \d{1,2}:\d{2}$`: a line holding a stamp and nothing else. */
  function StampOnly(line: string): (r: Option<Stamp>)
    ensures r.Some? ==>
      && IsDateToken(r.value.date) && IsTimeToken(r.value.time)
      && line == r.value.date + " " + r.value.time
  {
    match LeadingStamp(line)
    case Some(st) => if |line| == 6 + |st.time| then Some(st) else None
    case None => None
  }

  /** What follows a line's stamp and the space after it. */
  function Body(line: string, st: Stamp): (body: Option<string>)
    requires 6 + |st.time| <= |line|
    ensures body.Some? ==> line == line[..6 + |st.time|] + " " + body.value
  {
    var p := 6 + |st.time|;
    if p < |line| && line[p] == ' ' then Some(line[p + 1..]) else None
  }

  /** Characters a regex `.` does not match. */
  predicate IsLineTerminator(c: char)
  {
    c == '\n' || c == '\r' || c == '\U{2028}' || c == '\U{2029}'
  }

  predicate NoLineBreak(s: string)
  {
    forall i :: 0 <= i < |s| ==> !IsLineTerminator(s[i])
  }

  /** The capture groups of a matched body. */
  datatype Groups = Groups(first: string, second: string, third: Option<string>)

  /** A separator cuts its string into the text before and after it. */
  lemma SepSplits(s: string, k: int)
    requires SepAt(s, k)
    ensures s == s[..k] + " / " + s[k + 3..]
  {
  }

  /** `(.+?)(?: \/ (.+))?$` on the text after the first separator: the
      second group ends at the first separator that still leaves text after
      it, and the third group is the rest of the line. */
  function SplitRest(tail: string): (g: (string, Option<string>))
    requires |tail| >= 1
    ensures |g.0| >= 1
    ensures tail == g.0 + (if g.1.Some? then " / " + g.1.value else "")
    ensures g.1.Some? ==> FindSep(tail, 1) == Some(|g.0|)
    ensures g.1.None? ==> g.0 == tail && forall k :: 1 <= k && k + 3 < |tail| ==> !SepAt(tail, k)
  {
    match FindSep(tail, 1)
    case Some(j) =>
      if j + 3 < |tail| then
        SepSplits(tail, j);
        (tail[..j], Some(tail[j + 3..]))
      else (tail, None)
    case None => (tail, None)
  }

  /** `(.+?) \/ (.+?)(?: \/ (.+))?$`: the first group ends at the first
      separator that still leaves text after it; the second ends at the next
      separator followed by text, and the third is the rest of the line. */
  function SplitThree(body: string): (r: Option<Groups>)
    ensures r.None? <==> !NoLineBreak(body) || forall k :: 1 <= k && k + 3 < |body| ==> !SepAt(body, k)
    ensures r.Some? ==> |r.value.first| >= 1 && |r.value.second| >= 1
    ensures r.Some? ==>
      body == r.value.first + " / " + r.value.second + (if r.value.third.Some? then " / " + r.value.third.value else "")
    ensures r.Some? ==> FindSep(body, 1) == Some(|r.value.first|)
    ensures r.Some? && r.value.third.Some? ==> FindSep(body[|r.value.first| + 3..], 1) == Some(|r.value.second|)
    ensures r.Some? && r.value.third.None? ==>
      forall k :: 1 <= k && k + 3 < |r.value.second| ==> !SepAt(r.value.second, k)
  {
    if !NoLineBreak(body) then None
    else match FindSep(body, 1)
      case None => None
      case Some(k) =>
        if k + 3 >= |body| then None
        else
          SepSplits(body, k);
          var rest := SplitRest(body[k + 3..]);
          Some(Groups(body[..k], rest.0, rest.1))
  }

  /** `(.+?) \/ (.+?)$`: as SplitThree without the optional third group. */
  function SplitTwo(body: string): (r: Option<Groups>)
    ensures r.None? <==> !NoLineBreak(body) || forall k :: 1 <= k && k + 3 < |body| ==> !SepAt(body, k)
    ensures r.Some? ==> r.value.third.None? && body == r.value.first + " / " + r.value.second
    ensures r.Some? ==> FindSep(body, 1) == Some(|r.value.first|)
  {
    if !NoLineBreak(body) then None
    else match FindSep(body, 1)
      case None => None
      case Some(k) =>
        if k + 3 >= |body| then None
        else
          SepSplits(body, k);
          Some(Groups(body[..k], body[k + 3..], None))
  }

  /** The slots of `match` after the destructuring at scraper.ts:89, before
      trimming. */
  datatype Fields = Fields(stamp: Stamp, title: string, artist: string, album: Option<string>)

  predicate WellStamped(st: Stamp)
  {
    IsDateToken(st.date) && IsTimeToken(st.time)
  }

  /** Pattern 1, "date time Title / Artist [/ Album]". */
  function MatchFirst(line: string): (r: Option<Fields>)
    ensures r.Some? ==> WellStamped(r.value.stamp)
  {
    match LeadingStamp(line)
    case None => None
    case Some(st) =>
      match Body(line, st)
      case None => None
      case Some(body) =>
        match SplitThree(body)
        case None => None
        case Some(g) => Some(Fields(st, g.first, g.second, g.third))
  }

  /** Pattern 2, "date time Artist / Title", with its groups swapped. */
  function MatchSecond(line: string): (r: Option<Fields>)
    ensures r.Some? ==> WellStamped(r.value.stamp)
  {
    match LeadingStamp(line)
    case None => None
    case Some(st) =>
      match Body(line, st)
      case None => None
      case Some(body) =>
        match SplitTwo(body)
        case None => None
        case Some(g) => Some(Fields(st, g.second, g.first, None))
  }

  /** Whatever the second pattern matches the first pattern matched already,
      so its swap of artist and title never takes effect. */
  lemma SecondPatternUnreachable(line: string)
    ensures MatchSecond(line).Some? ==> MatchFirst(line).Some?
  {
    match LeadingStamp(line)
    case None =>
    case Some(st) =>
      match Body(line, st)
      case None =>
      case Some(body) =>
        if SplitTwo(body).Some? {
          var k := FindSep(body, 1).value;
          assert k + 3 < |body|;
        }
  }

  /** Pattern 3's reading of the line after a bare stamp. */
  function FromNextLine(st: Stamp, nextLine: string): (r: Option<Fields>)
    ensures r.Some? ==> r.value.stamp == st
  {
    var parts := SplitSep(nextLine);
    if |parts| >= 2 then Some(Fields(st, parts[1], parts[0], if |parts| > 2 then Some(parts[2]) else None))
    else None
  }

  // ---------------------------------------------------------------------
  // Records.

  datatype ParsedSong = ParsedSong(
    date: string,
    time: string,
    title: string,
    artist: string,
    album: Option<string>,
    dj: string)

  function TrimAlbum(album: Option<string>): Option<string>
  {
    match album
    case Some(a) => Some(Trim(a))
    case None => None
  }

  /** The record pushed at scraper.ts:103-110. */
  function Record(f: Fields, weekday: int): (p: ParsedSong)
    requires WellStamped(f.stamp)
    ensures IsDateToken(p.date) && IsTimeToken(p.time)
    ensures p.dj == CurrentDJ(weekday, HourValue(p.time)).dj
  {
    ParsedSong(f.stamp.date, f.stamp.time, Trim(f.title), Trim(f.artist), TrimAlbum(f.album),
      CurrentDJ(weekday, HourValue(f.stamp.time)).dj)
  }

  /** How one turn of the loop reads its line: the match it ends with, and
      whether pattern 3 used the next line for it. */
  datatype Turn = Turn(fields: Option<Fields>, usedNext: bool)

  /** scraper.ts:58-86 for one line, `next` being the following line if any. */
  function MatchTurn(line: string, next: Option<string>): (t: Turn)
    ensures t.fields.Some? ==> WellStamped(t.fields.value.stamp)
    ensures t.usedNext ==> next.Some? && t.fields.Some?
  {
    var l := Trim(line);
    match MatchFirst(l)
    case Some(f) => Turn(Some(f), false)
    case None =>
      match MatchSecond(l)
      case Some(f) => Turn(Some(f), false)
      case None =>
        match StampOnly(l)
        case None => Turn(None, false)
        case Some(st) =>
          var nextLine := if next.Some? then Trim(next.value) else "";
          if nextLine == "" then Turn(None, false)
          else match FromNextLine(st, nextLine)
            case Some(f) => Turn(Some(f), true)
            case None => Turn(None, false)
  }

  /** The record of a turn, if any. */
  function Emitted(t: Turn, weekday: int): seq<ParsedSong>
    requires t.fields.Some? ==> WellStamped(t.fields.value.stamp)
  {
    if t.fields.Some? then [Record(t.fields.value, weekday)] else []
  }

  /** The records `scrapePlaylist` builds from the page's lines. */
  function Parse(lines: seq<string>, weekday: int): seq<ParsedSong>
    decreases |lines|
  {
    if |lines| == 0 then []
    else
      var t := MatchTurn(lines[0], if |lines| > 1 then Some(lines[1]) else None);
      Emitted(t, weekday) + Parse(lines[if t.usedNext then 2 else 1..], weekday)
  }

  /** The body of the loop up to the push, as the source writes it. */
  method MatchLine(raw: string, next: Option<string>) returns (m: Option<Fields>, usedNext: bool)
    ensures Turn(m, usedNext) == MatchTurn(raw, next)
    ensures m.Some? ==> WellStamped(m.value.stamp)
    ensures usedNext ==> next.Some?
  {
    var line := Trim(raw);
    m := MatchFirst(line);
    if m.None? {
      m := MatchSecond(line);
    }
    usedNext := false;
    if m.None? && StampOnly(line).Some? {
      var nextLine := if next.Some? then Trim(next.value) else "";
      if nextLine != "" {
        m := FromNextLine(StampOnly(line).value, nextLine);
        usedNext := m.Some?;
      }
    }
  }

  /** The loop at scraper.ts:57-112: `i` walks the lines and skips one more
      when pattern 3 consumed the next line. */
  method ParseLines(lines: seq<string>, weekday: int) returns (songs: seq<ParsedSong>)
    ensures songs == Parse(lines, weekday)
  {
    songs := [];
    var i := 0;
    while i < |lines|
      invariant 0 <= i <= |lines|
      invariant songs + Parse(lines[i..], weekday) == Parse(lines, weekday)
      decreases |lines| - i
    {
      var m, usedNext := NextTurn(lines, i, weekday);
      ghost var t := Turn(m, usedNext);
      ghost var j := i + (if usedNext then 2 else 1);
      ParseStep(songs, Emitted(t, weekday), Parse(lines[i..], weekday), Parse(lines[j..], weekday), Parse(lines, weekday));
      ghost var before := songs;
      if m.Some? {
        songs := songs + [Record(m.value, weekday)];
      }
      assert songs == before + Emitted(t, weekday);
      if usedNext {
        i := i + 1;
      }
      i := i + 1;
      assert i == j;
    }
  }

  /** The turn at line i, with what it means for the parse from i on. */
  method NextTurn(lines: seq<string>, i: nat, weekday: int) returns (m: Option<Fields>, usedNext: bool)
    requires i < |lines|
    ensures i + (if usedNext then 2 else 1) <= |lines|
    ensures m.Some? ==> WellStamped(m.value.stamp)
    ensures Parse(lines[i..], weekday) == Emitted(Turn(m, usedNext), weekday) + Parse(lines[i + (if usedNext then 2 else 1)..], weekday)
  {
    m, usedNext := MatchLine(lines[i], if i + 1 < |lines| then Some(lines[i + 1]) else None);
    ParseAt(lines, i, weekday, Turn(m, usedNext));
  }

  /** One turn of the loop keeps its invariant: the records so far, this
      turn's and the rest's make up the whole. */
  lemma ParseStep(songs: seq<ParsedSong>, emitted: seq<ParsedSong>, fromHere: seq<ParsedSong>, afterTurn: seq<ParsedSong>, whole: seq<ParsedSong>)
    requires songs + fromHere == whole
    requires fromHere == emitted + afterTurn
    ensures songs + emitted + afterTurn == whole
  {
    assert songs + emitted + afterTurn == songs + (emitted + afterTurn);
  }

  /** Parse from line i on: the turn `t` at i, then the lines after it. */
  lemma ParseAt(lines: seq<string>, i: nat, weekday: int, t: Turn)
    requires i < |lines|
    requires t == MatchTurn(lines[i], if i + 1 < |lines| then Some(lines[i + 1]) else None)
    ensures Parse(lines[i..], weekday) == Emitted(t, weekday) + Parse(lines[i + (if t.usedNext then 2 else 1)..], weekday)
  {
    var rest := lines[i..];
    assert rest[0] == lines[i];
    assert |rest| > 1 ==> rest[1] == lines[i + 1];
    assert rest[if t.usedNext then 2 else 1..] == lines[i + (if t.usedNext then 2 else 1)..];
    ParseUnfold(rest, weekday);
  }

  /** What `scrapePlaylist` returns: no records when the page could not be
      fetched or read. */
  function Scraped(page: Option<string>, weekday: int): seq<ParsedSong>
  {
    match page
    case None => []
    case Some(text) => Parse(Lines(text), weekday)
  }

  method ScrapePlaylist(page: Option<string>, weekday: int) returns (songs: seq<ParsedSong>)
    ensures songs == Scraped(page, weekday)
    ensures page.None? ==> songs == []
  {
    match page {
      case None =>
        songs := [];
      case Some(text) =>
        songs := ParseLines(Lines(text), weekday);
    }
  }

  // ---------------------------------------------------------------------
  // Properties of the parser.

  /** Each turn emits at most one record. */
  lemma {:induction false} ParseLength(lines: seq<string>, weekday: int)
    decreases |lines|
    ensures |Parse(lines, weekday)| <= |lines|
  {
    if |lines| > 0 {
      var t := MatchTurn(lines[0], if |lines| > 1 then Some(lines[1]) else None);
      ParseLength(lines[if t.usedNext then 2 else 1..], weekday);
    }
  }

  /** A record with a well-formed date and time and the DJ the schedule
      names for its hour. The hour itself, one or two digits, is below 100
      and never range-checked. */
  predicate GoodRecord(p: ParsedSong, weekday: int)
  {
    && IsDateToken(p.date) && IsTimeToken(p.time)
    && p.dj == CurrentDJ(weekday, HourValue(p.time)).dj
  }

  predicate GoodRecords(ps: seq<ParsedSong>, weekday: int)
  {
    forall i :: 0 <= i < |ps| ==> GoodRecord(ps[i], weekday)
  }

  lemma EmittedGood(t: Turn, weekday: int)
    requires t.fields.Some? ==> WellStamped(t.fields.value.stamp)
    ensures GoodRecords(Emitted(t, weekday), weekday)
  {
  }

  lemma GoodAppend(e: seq<ParsedSong>, r: seq<ParsedSong>, weekday: int)
    requires GoodRecords(e, weekday) && GoodRecords(r, weekday)
    ensures GoodRecords(e + r, weekday)
  {
    var ps := e + r;
    forall i | 0 <= i < |ps| ensures GoodRecord(ps[i], weekday) {
      if i < |e| {
        assert ps[i] == e[i];
      } else {
        assert ps[i] == r[i - |e|];
      }
    }
  }

  /** Every record the parser emits is a good record. */
  lemma {:induction false} ParseRecords(lines: seq<string>, weekday: int)
    decreases |lines|
    ensures GoodRecords(Parse(lines, weekday), weekday)
  {
    if |lines| > 0 {
      var t := MatchTurn(lines[0], if |lines| > 1 then Some(lines[1]) else None);
      var tail := lines[if t.usedNext then 2 else 1..];
      ParseRecords(tail, weekday);
      ParseUnfold(lines, weekday);
      EmittedGood(t, weekday);
      GoodAppend(Emitted(t, weekday), Parse(tail, weekday), weekday);
    }
  }

  lemma ParseStamped(lines: seq<string>, weekday: int)
    ensures Stamped(Parse(lines, weekday))
  {
    ParseRecords(lines, weekday);
  }

  lemma ParseUnfold(lines: seq<string>, weekday: int)
    requires |lines| > 0
    ensures var t := MatchTurn(lines[0], if |lines| > 1 then Some(lines[1]) else None);
      Parse(lines, weekday) == Emitted(t, weekday) + Parse(lines[if t.usedNext then 2 else 1..], weekday)
  {
  }

  /** A turn whose line the first pattern matches uses that match alone. */
  lemma TurnMatched(line: string, next: Option<string>)
    requires MatchFirst(Trim(line)).Some?
    ensures MatchTurn(line, next) == Turn(MatchFirst(Trim(line)), false)
  {
  }

  /** One line the first pattern matches yields its record and hands the
      following lines on unchanged. */
  lemma ParseMatched(line: string, rest: seq<string>, weekday: int)
    requires MatchFirst(Trim(line)).Some?
    ensures Parse([line] + rest, weekday) == [Record(MatchFirst(Trim(line)).value, weekday)] + Parse(rest, weekday)
  {
    var lines := [line] + rest;
    assert lines[0] == line;
    assert lines[1..] == rest;
    TurnMatched(line, if |lines| > 1 then Some(lines[1]) else None);
    ParseUnfold(lines, weekday);
  }

  /** A line no pattern matches is skipped and leaves the rest alone. */
  lemma SkipsUnmatched(line: string, rest: seq<string>, weekday: int)
    requires MatchFirst(Trim(line)).None? && StampOnly(Trim(line)).None?
    ensures Parse([line] + rest, weekday) == Parse(rest, weekday)
  {
    SecondPatternUnreachable(Trim(line));
    assert ([line] + rest)[1..] == rest;
  }

  lemma DigitNotSpace(c: char)
    requires IsDigit(c)
    ensures !IsSpace(c)
  {
  }

  /** A line that opens with a stamp and ends in a non-space trims to
      itself. */
  lemma StampTrimmed(date: string, time: string, tail: string)
    requires IsDateToken(date) && IsTimeToken(time)
    requires |tail| == 0 || !IsSpace(tail[|tail| - 1])
    ensures var line := date + " " + time + tail; Trim(line) == line
  {
    var line := date + " " + time + tail;
    assert line[0] == date[0];
    DigitNotSpace(date[0]);
    if |tail| == 0 {
      assert line[|line| - 1] == time[|time| - 1];
      DigitNotSpace(time[|time| - 1]);
    } else {
      assert line[|line| - 1] == tail[|tail| - 1];
    }
  }

  lemma StampLeads(date: string, time: string, tail: string)
    requires IsDateToken(date) && IsTimeToken(time)
    requires |tail| == 0 || tail[0] == ' '
    ensures LeadingStamp(date + " " + time + tail) == Some(Stamp(date, time))
  {
    var line := date + " " + time + tail;
    assert line[..5] == date;
    assert line[6..6 + |time|] == time;
    if |time| == 4 && |line| >= 11 {
      assert line[7] == ':';
    }
  }

  /** FindSep finds the first separator at or after `from`. */
  lemma FindSepAt(s: string, from: nat, k: nat)
    requires from <= k && SepAt(s, k)
    requires forall j :: from <= j < k ==> !SepAt(s, j)
    ensures FindSep(s, from) == Some(k)
  {
  }

  /** No separator starts after the first character of `s`: where a lazy
      `(.+?) \/ ` group could not stop. */
  predicate NoInnerSep(s: string)
  {
    FindSep(s, 1).None?
  }

  lemma NoLineBreakJoin(a: string, b: string)
    requires NoLineBreak(a) && NoLineBreak(b)
    ensures NoLineBreak(a + " / " + b)
  {
    var s := a + " / " + b;
    forall i | 0 <= i < |s| ensures !IsLineTerminator(s[i]) {
      if i >= |a| + 3 {
        assert s[i] == b[i - |a| - 3];
      }
    }
  }

  /** In a body "X / Y" the first group is exactly X when no separator
      starts inside "X " after its first character. */
  lemma FirstSeparator(x: string, y: string)
    requires |x| > 0
    ensures FindSep(x + " / " + y, 1) == Some(|x|) <==> NoInnerSep(x + " ")
  {
    var body, xs := x + " / " + y, x + " ";
    assert SepAt(body, |x|);
    forall j | 1 <= j <= |x| - 2 ensures SepAt(body, j) <==> SepAt(xs, j) {
      assert body[j] == xs[j] && body[j + 1] == xs[j + 1] && body[j + 2] == xs[j + 2];
    }
    assert !SepAt(body, |x| - 1) by {
      assert body[|x|] == ' ';
    }
    if NoInnerSep(xs) {
      FindSepAt(body, 1, |x|);
    } else {
      var j := FindSep(xs, 1).value;
      assert SepAt(body, j);
    }
  }

  /** After a stamp and one space, the body is the rest of the line. */
  lemma BodyAfterStamp(date: string, time: string, body: string)
    requires IsDateToken(date) && IsTimeToken(time)
    ensures var line := date + " " + time + " " + body;
      6 + |time| <= |line| && Body(line, Stamp(date, time)) == Some(body)
  {
    var line := date + " " + time + " " + body;
    assert line[6 + |time|] == ' ';
    assert line[7 + |time|..] == body;
  }

  /** The first pattern from its parts: stamp, body and its split. */
  lemma MatchFirstParts(line: string, st: Stamp, body: string)
    requires LeadingStamp(line) == Some(st)
    requires Body(line, st) == Some(body)
    requires SplitThree(body).Some?
    ensures var g := SplitThree(body).value;
      MatchFirst(line) == Some(Fields(st, g.first, g.second, g.third))
  {
  }

  /** A line "date time body" is matched by the first pattern exactly as
      its body splits. */
  lemma MatchFirstBody(date: string, time: string, body: string)
    requires IsDateToken(date) && IsTimeToken(time) && |body| > 0 && !IsSpace(body[|body| - 1])
    requires SplitThree(body).Some?
    ensures var line := date + " " + time + " " + body;
      var g := SplitThree(body).value;
      Trim(line) == line && MatchFirst(line) == Some(Fields(Stamp(date, time), g.first, g.second, g.third))
  {
    var line := date + " " + time + " " + body;
    var tail := " " + body;
    assert line == date + " " + time + tail;
    assert tail[|tail| - 1] == body[|body| - 1];
    StampTrimmed(date, time, tail);
    StampLeads(date, time, tail);
    BodyAfterStamp(date, time, body);
    MatchFirstParts(line, Stamp(date, time), body);
  }

  lemma SplitThreeTwo(x: string, y: string)
    requires |x| > 0 && |y| > 0
    requires NoInnerSep(x + " ") && NoInnerSep(y) && NoLineBreak(x) && NoLineBreak(y)
    ensures SplitThree(x + " / " + y) == Some(Groups(x, y, None))
  {
    var body := x + " / " + y;
    NoLineBreakJoin(x, y);
    FirstSeparator(x, y);
    assert body[..|x|] == x && body[|x| + 3..] == y;
  }

  lemma SplitThreeThree(x: string, y: string, z: string)
    requires |x| > 0 && |y| > 0 && |z| > 0
    requires NoInnerSep(x + " ") && NoInnerSep(y + " ") && NoLineBreak(x) && NoLineBreak(y) && NoLineBreak(z)
    ensures SplitThree(x + " / " + y + " / " + z) == Some(Groups(x, y, Some(z)))
  {
    var tail := y + " / " + z;
    var body := x + " / " + tail;
    assert x + " / " + y + " / " + z == body;
    NoLineBreakJoin(y, z);
    NoLineBreakJoin(x, tail);
    FirstSeparator(x, tail);
    assert body[..|x|] == x && body[|x| + 3..] == tail;
    FirstSeparator(y, z);
    assert tail[..|y|] == y && tail[|y| + 3..] == z;
  }

  /** A trimmed line the first pattern matches, read as a record. */
  lemma MatchedLine(line: string, date: string, time: string, x: string, y: string, album: Option<string>,
                    rest: seq<string>, weekday: int)
    requires IsDateToken(date) && IsTimeToken(time)
    requires Trim(line) == line && MatchFirst(line) == Some(Fields(Stamp(date, time), x, y, album))
    ensures Parse([line] + rest, weekday) ==
      [ParsedSong(date, time, Trim(x), Trim(y), TrimAlbum(album), CurrentDJ(weekday, HourValue(time)).dj)]
      + Parse(rest, weekday)
  {
    ParseMatched(line, rest, weekday);
  }

  /** "date time X / Y", where no separator starts inside "X " or Y after
      their first character: title X, artist Y and no album, all trimmed.
      Slashes without the surrounding spaces ("AC/DC") are plain text. */
  lemma TitleArtistLine(date: string, time: string, x: string, y: string, rest: seq<string>, weekday: int)
    requires IsDateToken(date) && IsTimeToken(time)
    requires |x| > 0 && |y| > 0 && !IsSpace(y[|y| - 1])
    requires NoInnerSep(x + " ") && NoInnerSep(y) && NoLineBreak(x) && NoLineBreak(y)
    ensures Parse([date + " " + time + " " + x + " / " + y] + rest, weekday) ==
      [ParsedSong(date, time, Trim(x), Trim(y), None, CurrentDJ(weekday, HourValue(time)).dj)] + Parse(rest, weekday)
  {
    var body := x + " / " + y;
    var line := date + " " + time + " " + body;
    assert date + " " + time + " " + x + " / " + y == line;
    SplitThreeTwo(x, y);
    assert body[|body| - 1] == y[|y| - 1];
    MatchFirstBody(date, time, body);
    MatchedLine(line, date, time, x, y, None, rest, weekday);
  }

  /** "date time X / Y / Z", where no separator starts inside "X " or "Y "
      after their first character: the album is Z, which may itself hold
      further separators. */
  lemma TitleArtistAlbumLine(date: string, time: string, x: string, y: string, z: string, rest: seq<string>, weekday: int)
    requires IsDateToken(date) && IsTimeToken(time)
    requires |x| > 0 && |y| > 0 && |z| > 0 && !IsSpace(z[|z| - 1])
    requires NoInnerSep(x + " ") && NoInnerSep(y + " ") && NoLineBreak(x) && NoLineBreak(y) && NoLineBreak(z)
    ensures Parse([date + " " + time + " " + x + " / " + y + " / " + z] + rest, weekday) ==
      [ParsedSong(date, time, Trim(x), Trim(y), Some(Trim(z)), CurrentDJ(weekday, HourValue(time)).dj)] + Parse(rest, weekday)
  {
    var body := x + " / " + y + " / " + z;
    var line := date + " " + time + " " + body;
    assert date + " " + time + " " + x + " / " + y + " / " + z == line;
    SplitThreeThree(x, y, z);
    assert body[|body| - 1] == z[|z| - 1];
    MatchFirstBody(date, time, body);
    MatchedLine(line, date, time, x, y, Some(z), rest, weekday);
  }

  lemma BareStamp(date: string, time: string)
    requires IsDateToken(date) && IsTimeToken(time)
    ensures var line := date + " " + time;
      && Trim(line) == line
      && MatchFirst(line).None? && MatchSecond(line).None?
      && StampOnly(line) == Some(Stamp(date, time))
  {
    var line := date + " " + time;
    assert line == date + " " + time + "";
    StampTrimmed(date, time, "");
    StampLeads(date, time, "");
  }

  /** A turn on a bare stamp whose next line splits into two or more parts
      takes its fields from that next line. */
  lemma TurnStampPair(line: string, next: string, st: Stamp)
    requires Trim(line) == line && MatchFirst(line).None? && MatchSecond(line).None?
    requires StampOnly(line) == Some(st)
    requires |SplitSep(Trim(next))| >= 2
    ensures MatchTurn(line, Some(next)) == Turn(FromNextLine(st, Trim(next)), true)
  {
    assert Trim(next) != "";
  }

  /** A turn on a bare stamp whose next line has fewer than two parts emits
      nothing and leaves the next line alone. */
  lemma TurnStampAlone(line: string, next: string, st: Stamp)
    requires Trim(line) == line && MatchFirst(line).None? && MatchSecond(line).None?
    requires StampOnly(line) == Some(st)
    requires |SplitSep(Trim(next))| < 2
    ensures MatchTurn(line, Some(next)) == Turn(None, false)
  {
  }

  lemma BareStampAlone(date: string, time: string, next: string)
    requires IsDateToken(date) && IsTimeToken(time)
    requires |SplitSep(Trim(next))| < 2
    ensures MatchTurn(date + " " + time, Some(next)) == Turn(None, false)
  {
    BareStamp(date, time);
    TurnStampAlone(date + " " + time, next, Stamp(date, time));
  }

  /** A bare "date time" line followed by a line of at least two parts:
      artist is the first part, title the second, album the third if any;
      later parts are dropped and the next line is consumed. */
  lemma StampThenPair(date: string, time: string, next: string, rest: seq<string>, weekday: int)
    requires IsDateToken(date) && IsTimeToken(time)
    requires |SplitSep(Trim(next))| >= 2
    ensures var parts := SplitSep(Trim(next));
      Parse([date + " " + time, next] + rest, weekday) ==
      [ParsedSong(date, time, Trim(parts[1]), Trim(parts[0]),
         if |parts| > 2 then Some(Trim(parts[2])) else None,
         CurrentDJ(weekday, HourValue(time)).dj)] + Parse(rest, weekday)
  {
    var st := Stamp(date, time);
    BareStampPair(date, time, next);
    ParseTakesPair(date + " " + time, next, rest, FromNextLine(st, Trim(next)).value, weekday);
  }

  lemma BareStampPair(date: string, time: string, next: string)
    requires IsDateToken(date) && IsTimeToken(time)
    requires |SplitSep(Trim(next))| >= 2
    ensures FromNextLine(Stamp(date, time), Trim(next)).Some?
    ensures MatchTurn(date + " " + time, Some(next)) == Turn(FromNextLine(Stamp(date, time), Trim(next)), true)
  {
    BareStamp(date, time);
    TurnStampPair(date + " " + time, next, Stamp(date, time));
  }

  /** A turn that emits a record and uses the next line drops both lines. */
  lemma ParseTakesPair(line: string, next: string, rest: seq<string>, f: Fields, weekday: int)
    requires MatchTurn(line, Some(next)) == Turn(Some(f), true)
    ensures Parse([line, next] + rest, weekday) == [Record(f, weekday)] + Parse(rest, weekday)
  {
    var lines := [line, next] + rest;
    assert lines[0] == line && lines[1] == next;
    assert lines[2..] == rest;
    ParseUnfold(lines, weekday);
  }

  /** A bare "date time" line whose next line has fewer than two parts emits
      nothing, and the next line gets its own turn. */
  lemma StampWithoutPair(date: string, time: string, lines: seq<string>, weekday: int)
    requires IsDateToken(date) && IsTimeToken(time)
    requires |lines| > 1 && lines[0] == date + " " + time
    requires |SplitSep(Trim(lines[1]))| < 2
    ensures Parse(lines, weekday) == Parse(lines[1..], weekday)
  {
    BareStampAlone(date, time, lines[1]);
    ParseDropsFirst(lines, weekday);
  }

  /** A turn that emits nothing and uses one line drops just that line. */
  lemma ParseDropsFirst(lines: seq<string>, weekday: int)
    requires |lines| > 1
    requires MatchTurn(lines[0], Some(lines[1])) == Turn(None, false)
    ensures Parse(lines, weekday) == Parse(lines[1..], weekday)
  {
    ParseUnfold(lines, weekday);
  }

  /** A bare "date time" as the last line emits nothing. */
  lemma StampLast(date: string, time: string, weekday: int)
    requires IsDateToken(date) && IsTimeToken(time)
    ensures Parse([date + " " + time], weekday) == []
  {
    BareStamp(date, time);
  }

  // ---------------------------------------------------------------------
  // fetchAndStoreSongs

  /** Days from 1970-01-01 to the given day of the proleptic Gregorian
      calendar (month 1..12). */
  function DaysFromCivil(year: int, month: int, day: int): int
    requires 1 <= month <= 12
  {
    var y := if month <= 2 then year - 1 else year;
    var era := y / 400;
    var yoe := y - era * 400;
    var mp := if month > 2 then month - 3 else month + 9;
    var doy := (153 * mp + 2) / 5 + day - 1;
    var doe := yoe * 365 + yoe / 4 - yoe / 100 + doy;
    era * 146097 + doe - 719468
  }

  /** ECMAScript MakeDay: a month index outside 0..11 carries into the year,
      a day past the month's end into the following months. */
  function MakeDay(year: int, monthIndex: int, date: int): int
  {
    DaysFromCivil(year + monthIndex / 12, monthIndex % 12 + 1, 1) + date - 1
  }

  /** `new Date(year, monthIndex, date, hour, minute)` as an instant, in a
      time zone `offset` minutes behind UTC (Date.getTimezoneOffset). */
  function LocalInstant(year: int, monthIndex: int, date: int, hour: int, minute: int, offset: int): Instant
  {
    MakeDay(year, monthIndex, date) * MinutesPerDay + hour * 60 + minute + offset
  }

  lemma EpochIsDayZero()
    ensures MakeDay(1970, 0, 1) == 0
  {
    assert 0 / 12 == 0 && 0 % 12 == 0;
    assert 1969 / 400 == 4;
    assert (153 * 10 + 2) / 5 == 306;
    assert 369 / 4 == 92 && 369 / 100 == 3;
    assert DaysFromCivil(1970, 1, 1) == 4 * 146097 + (369 * 365 + 92 - 3 + 306) - 719468;
  }

  /** Gregorian leap years. */
  predicate LeapYear(year: int)
  {
    year % 4 == 0 && (year % 100 != 0 || year % 400 == 0)
  }

  lemma CycleStep(x: int)
    ensures (x + 400) % 4 == x % 4 && (x + 400) % 100 == x % 100 && (x + 400) % 400 == x % 400
  {
    assert (x + 400) % 4 == x % 4;
    assert (x + 400) % 100 == x % 100;
  }

  /** Whole 400-year cycles change neither the remainders by 4, 100 and 400
      nor anything but the quotient by 400. */
  lemma {:induction false} CycleShift(e: int, m: int)
    ensures var x := 400 * e + m;
      && x % 4 == m % 4 && x % 100 == m % 100 && x % 400 == m % 400
    decreases if e < 0 then -e else e
  {
    if e > 0 {
      CycleShift(e - 1, m);
      CycleStep(400 * (e - 1) + m);
    } else if e < 0 {
      CycleShift(e + 1, m);
      CycleStep(400 * e + m);
    }
  }

  /** Days from the start of a 400-year cycle's count to New Year's Day of
      year y + 1: whole cycles plus the days of the years into the current
      one. */
  function CycleDays(y: int): int
  {
    (y / 400) * 146097 + (y % 400) * 365 + (y % 400) / 4 - (y % 400) / 100
  }

  /** New Year's Day counted in whole 400-year cycles and days into the
      current cycle. */
  lemma NewYearDay(year: int)
    ensures MakeDay(year, 0, 1) == CycleDays(year - 1) + 306 - 719468
  {
    assert 0 / 12 == 0 && 0 % 12 == 0;
    assert (153 * 10 + 2) / 5 == 306;
  }

  /** The last year of a cycle is a leap year divisible by 400. */
  lemma CycleEnd(y: int)
    requires y % 400 == 399
    ensures CycleDays(y + 1) - CycleDays(y) == 366
    ensures LeapYear(y + 1)
  {
    var e := y / 400;
    assert y == 400 * e + 399;
    assert (y + 1) / 400 == e + 1 && (y + 1) % 400 == 0;
    CycleShift(e + 1, 0);
  }

  /** Within a cycle a year adds 366 days when it is a leap year, else 365. */
  lemma CycleInner(y: int)
    requires y % 400 < 399
    ensures CycleDays(y + 1) - CycleDays(y) == if LeapYear(y + 1) then 366 else 365
  {
    var e, r := y / 400, y % 400;
    assert y == 400 * e + r;
    assert (y + 1) / 400 == e && (y + 1) % 400 == r + 1;
    CycleShift(e, r + 1);
    assert (r + 1) / 4 == r / 4 + (if (r + 1) % 4 == 0 then 1 else 0);
    assert (r + 1) / 100 == r / 100 + (if (r + 1) % 100 == 0 then 1 else 0);
  }

  /** From one New Year's Day to the next: 366 days in a leap year, 365
      otherwise. */
  lemma YearLength(year: int)
    ensures MakeDay(year + 1, 0, 1) - MakeDay(year, 0, 1) == if LeapYear(year) then 366 else 365
  {
    NewYearDay(year);
    NewYearDay(year + 1);
    if (year - 1) % 400 == 399 {
      CycleEnd(year - 1);
    } else {
      CycleInner(year - 1);
    }
  }

  /** Month index 12 is January of the next year. */
  lemma MonthCarries(year: int, monthIndex: int, date: int)
    ensures MakeDay(year, monthIndex + 12, date) == MakeDay(year + 1, monthIndex, date)
  {
    assert (monthIndex + 12) / 12 == monthIndex / 12 + 1;
    assert (monthIndex + 12) % 12 == monthIndex % 12;
  }

  /** In UTC, the stored instant's day and hour are those written on the
      page. */
  lemma LocalInstantUtc(year: int, monthIndex: int, date: int, hour: int, minute: int)
    requires 0 <= hour < 24 && 0 <= minute < 60
    ensures var t := LocalInstant(year, monthIndex, date, hour, minute, 0);
      DayOf(t) == MakeDay(year, monthIndex, date) && HourOf(t) == hour
  {
    var d := MakeDay(year, monthIndex, date);
    var x := hour * 60 + minute;
    var t := d * MinutesPerDay + x;
    assert t / MinutesPerDay == d && t % MinutesPerDay == x by {
      assert 0 <= x < MinutesPerDay;
    }
  }

  /** The row `fetchAndStoreSongs` builds from one record: played_at from the
      page's date and time in the current year, DJ and show from the
      schedule. The record's own `dj` is not used. */
  function ToSong(p: ParsedSong, weekday: int, year: int, offset: int): (s: Song)
    requires IsDateToken(p.date) && IsTimeToken(p.time)
    ensures s.artist == p.artist && s.title == p.title && s.album == p.album
    ensures s.djName == Some(CurrentDJ(weekday, HourValue(p.time)).dj)
    ensures s.showName == Some(CurrentDJ(weekday, HourValue(p.time)).show)
    ensures s.playedAt == LocalInstant(year, DigitsValue(p.date[..2]) - 1, DigitsValue(p.date[3..]), HourValue(p.time), MinuteValue(p.time), offset)
    ensures offset == 0 && HourValue(p.time) < 24 && MinuteValue(p.time) < 60 ==>
      && DayOf(s.playedAt) == MakeDay(year, DigitsValue(p.date[..2]) - 1, DigitsValue(p.date[3..]))
      && HourOf(s.playedAt) == HourValue(p.time)
  {
    var month := DigitsValue(p.date[..2]);
    var day := DigitsValue(p.date[3..]);
    var hour := HourValue(p.time);
    var info := CurrentDJ(weekday, hour);
    var t := LocalInstant(year, month - 1, day, hour, MinuteValue(p.time), offset);
    assert offset == 0 && hour < 24 && MinuteValue(p.time) < 60 ==>
      DayOf(t) == MakeDay(year, month - 1, day) && HourOf(t) == hour
    by {
      if offset == 0 && hour < 24 && MinuteValue(p.time) < 60 {
        LocalInstantUtc(year, month - 1, day, hour, MinuteValue(p.time));
      }
    }
    Song(p.artist, p.title, p.album, t, Some(info.dj), Some(info.show))
  }

  predicate Stamped(ps: seq<ParsedSong>)
  {
    forall i :: 0 <= i < |ps| ==> IsDateToken(ps[i].date) && IsTimeToken(ps[i].time)
  }

  function ToSongs(ps: seq<ParsedSong>, weekday: int, year: int, offset: int): (ss: seq<Song>)
    requires Stamped(ps)
    ensures |ss| == |ps|
  {
    if |ps| == 0 then []
    else ToSongs(ps[..|ps| - 1], weekday, year, offset) + [ToSong(ps[|ps| - 1], weekday, year, offset)]
  }

  /** Each record of the batch becomes its own song, in order. */
  lemma {:induction false} ToSongsAt(ps: seq<ParsedSong>, weekday: int, year: int, offset: int)
    requires Stamped(ps)
    ensures forall i :: 0 <= i < |ps| ==> ToSongs(ps, weekday, year, offset)[i] == ToSong(ps[i], weekday, year, offset)
  {
    if |ps| > 0 {
      var p := ps[..|ps| - 1];
      ToSongsAt(p, weekday, year, offset);
      forall i | 0 <= i < |ps| ensures ToSongs(ps, weekday, year, offset)[i] == ToSong(ps[i], weekday, year, offset) {
        if i < |p| {
          assert ps[i] == p[i];
        }
      }
    }
  }

  lemma ScrapedStamped(page: Option<string>, weekday: int)
    ensures Stamped(Scraped(page, weekday))
  {
    if page.Some? {
      var lines := Lines(page.value);
      ParseStamped(lines, weekday);
      assert Scraped(page, weekday) == Parse(lines, weekday);
    }
  }

  /** The songs one sync hands to the table. */
  function Batch(page: Option<string>, weekday: int, year: int, offset: int): (b: seq<Song>)
    ensures Stamped(Scraped(page, weekday))
    ensures |b| == |Scraped(page, weekday)|
    ensures forall i :: 0 <= i < |b| ==> b[i] == ToSong(Scraped(page, weekday)[i], weekday, year, offset)
  {
    ScrapedStamped(page, weekday);
    ToSongsAt(Scraped(page, weekday), weekday, year, offset);
    ToSongs(Scraped(page, weekday), weekday, year, offset)
  }

  /** `fetchAndStoreSongs`: scrape, insert each record, count the inserts
      that changed the table. `now` is the CURRENT_TIMESTAMP of the sync. */
  method FetchAndStoreSongs(table: SongTable, page: Option<string>, weekday: int, year: int, offset: int, now: Instant)
    returns (total: nat, added: nat)
    requires table.Valid()
    modifies table
    ensures table.Valid()
    ensures total == |Scraped(page, weekday)|
    ensures table.rows == StoreAll(old(table.rows), Batch(page, weekday, year, offset), now, old(table.sequence))
    ensures table.sequence == old(table.sequence) + total
    ensures added == |table.rows| - |old(table.rows)| && added <= total
  {
    var songs := ScrapePlaylist(page, weekday);
    ScrapedStamped(page, weekday);
    added := StoreSongs(table, songs, weekday, year, offset, now);
    total := |songs|;
  }

  /** The loop at scraper.ts:127-155: each record becomes a song that is
      inserted or ignored; `added` counts the inserts that changed the
      table. */
  method StoreSongs(table: SongTable, songs: seq<ParsedSong>, weekday: int, year: int, offset: int, now: Instant)
    returns (added: nat)
    requires table.Valid() && Stamped(songs)
    modifies table
    ensures table.Valid()
    ensures table.rows == StoreAll(old(table.rows), ToSongs(songs, weekday, year, offset), now, old(table.sequence))
    ensures table.sequence == old(table.sequence) + |songs|
    ensures added == |table.rows| - |old(table.rows)| && added <= |songs|
  {
    var batch := ToSongs(songs, weekday, year, offset);
    added := InsertAll(table, batch, now);
  }

  /** The inserts of that loop, once each record is converted: one
      INSERT OR IGNORE per song, in order, counting those that changed the
      table. */
  method InsertAll(table: SongTable, batch: seq<Song>, now: Instant) returns (added: nat)
    requires table.Valid()
    modifies table
    ensures table.Valid()
    ensures table.rows == StoreAll(old(table.rows), batch, now, old(table.sequence))
    ensures table.sequence == old(table.sequence) + |batch|
    ensures added == |table.rows| - |old(table.rows)| && added <= |batch|
  {
    added := 0;
    var i := 0;
    while i < |batch|
      invariant 0 <= i <= |batch|
      invariant table.Valid()
      invariant table.rows == StoreAll(old(table.rows), batch[..i], now, old(table.sequence))
      invariant table.sequence == old(table.sequence) + i
      invariant added == |table.rows| - |old(table.rows)| <= i
    {
      var changes := InsertNext(table, batch, i, now, old(table.rows), old(table.sequence));
      added := added + changes;
      i := i + 1;
    }
    assert batch[..i] == batch;
  }

  /** One turn of that loop: the insert of song i moves the table from the
      first i songs stored to the first i + 1, and reports whether it added
      a row. */
  method InsertNext(table: SongTable, batch: seq<Song>, i: nat, now: Instant, ghost rows: seq<Row>, ghost sequence: int)
    returns (changes: nat)
    requires table.Valid() && i < |batch|
    requires table.rows == StoreAll(rows, batch[..i], now, sequence) && table.sequence == sequence + i
    modifies table
    ensures table.Valid()
    ensures table.rows == StoreAll(rows, batch[..i + 1], now, sequence) && table.sequence == sequence + i + 1
    ensures changes <= 1 && |table.rows| == |old(table.rows)| + changes
  {
    ghost var before, counter := table.rows, table.sequence;
    var result := table.InsertSong(batch[i], now);
    StoreAllPrefix(rows, batch, i, now, sequence, before, counter, table.rows);
    changes := if result.changes > 0 then 1 else 0;
  }

  /** Records with their DJ blanked: everything the weekday does not
      decide. */
  function WithoutDJ(ps: seq<ParsedSong>): (r: seq<ParsedSong>)
    ensures |r| == |ps|
    ensures forall i :: 0 <= i < |ps| ==> r[i] == ps[i].(dj := "")
  {
    seq(|ps|, i requires 0 <= i < |ps| => ps[i].(dj := ""))
  }

  lemma WithoutDJAppend(a: seq<ParsedSong>, b: seq<ParsedSong>)
    ensures WithoutDJ(a + b) == WithoutDJ(a) + WithoutDJ(b)
  {
  }

  /** The weekday only picks each record's DJ: the records themselves, their
      number and order do not depend on it. */
  lemma {:induction false} ParseWeekday(lines: seq<string>, w1: int, w2: int)
    decreases |lines|
    ensures WithoutDJ(Parse(lines, w1)) == WithoutDJ(Parse(lines, w2))
  {
    if |lines| > 0 {
      var t := MatchTurn(lines[0], if |lines| > 1 then Some(lines[1]) else None);
      var rest := lines[if t.usedNext then 2 else 1..];
      ParseUnfold(lines, w1);
      ParseUnfold(lines, w2);
      ParseWeekday(rest, w1, w2);
      EmittedWeekday(t, Parse(rest, w1), Parse(rest, w2), w1, w2);
    }
  }

  lemma EmittedWeekday(t: Turn, r1: seq<ParsedSong>, r2: seq<ParsedSong>, w1: int, w2: int)
    requires t.fields.Some? ==> WellStamped(t.fields.value.stamp)
    requires WithoutDJ(r1) == WithoutDJ(r2)
    ensures WithoutDJ(Emitted(t, w1) + r1) == WithoutDJ(Emitted(t, w2) + r2)
  {
    WithoutDJAppend(Emitted(t, w1), r1);
    WithoutDJAppend(Emitted(t, w2), r2);
  }

  /** Two syncs of one page for the same year and offset hand the table the
      same (artist, title, played_at) triples in the same order, whatever
      the weekday. */
  lemma BatchWeekday(page: Option<string>, w1: int, w2: int, year: int, offset: int)
    ensures |Batch(page, w1, year, offset)| == |Batch(page, w2, year, offset)|
    ensures forall i :: 0 <= i < |Batch(page, w1, year, offset)| ==>
      TripleOf(Batch(page, w1, year, offset)[i]) == TripleOf(Batch(page, w2, year, offset)[i])
  {
    var p1, p2 := Scraped(page, w1), Scraped(page, w2);
    if page.Some? {
      ParseWeekday(Lines(page.value), w1, w2);
    }
    assert WithoutDJ(p1) == WithoutDJ(p2);
    var b1, b2 := Batch(page, w1, year, offset), Batch(page, w2, year, offset);
    forall i | 0 <= i < |b1| ensures TripleOf(b1[i]) == TripleOf(b2[i]) {
      assert WithoutDJ(p1)[i] == WithoutDJ(p2)[i];
      ToSongTriple(p1[i], p2[i], w1, w2, year, offset);
    }
  }

  /** A record's triple does not depend on its DJ or on the weekday. */
  lemma ToSongTriple(p1: ParsedSong, p2: ParsedSong, w1: int, w2: int, year: int, offset: int)
    requires IsDateToken(p1.date) && IsTimeToken(p1.time)
    requires p1.(dj := "") == p2.(dj := "")
    ensures IsDateToken(p2.date) && IsTimeToken(p2.time)
    ensures TripleOf(ToSong(p1, w1, year, offset)) == TripleOf(ToSong(p2, w2, year, offset))
  {
    assert p1.date == p2.date && p1.time == p2.time && p1.artist == p2.artist && p1.title == p2.title;
  }

  /** Syncing the same page again for the same year and offset, on any day,
      at any later time and whatever the counter has reached, adds no row. */
  lemma ResyncAddsNothing(rows: seq<Row>, page: Option<string>, w1: int, w2: int, year: int, offset: int,
                          t1: Instant, t2: Instant, s1: int, s2: int)
    ensures var once := StoreAll(rows, Batch(page, w1, year, offset), t1, s1);
      StoreAll(once, Batch(page, w2, year, offset), t2, s2) == once
  {
    var b1, b2 := Batch(page, w1, year, offset), Batch(page, w2, year, offset);
    var once := StoreAll(rows, b1, t1, s1);
    BatchWeekday(page, w1, w2, year, offset);
    StoreAllHolds(rows, b1, t1, s1);
    forall s | s in b2 ensures HasTriple(once, TripleOf(s)) {
      var i :| 0 <= i < |b2| && b2[i] == s;
      assert b1[i] in b1;
    }
    StoreAllKnown(once, b2, t2, s2);
  }
}
