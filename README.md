# WTMD playlist tracker: a verified model of its core

The tracker scrapes the playlist page of the radio station WTMD. It reads every
line that carries a date and time stamp, attributes each song to the DJ on the
air by the station's weekly schedule, and stores the songs. It has two backends:

- a SQLite `songs` table under a UNIQUE(artist, title, played_at) constraint;
- an in-memory array used on ephemeral deployments.

A cron scheduler re-runs the sync every five minutes. A statistics endpoint
and an analytics page aggregate what has been stored.

This project models that core in Dafny, one module per source file:

| module | file | flavour |
|---|---|---|
| `Scraper` | `scraper.dfy` | the DJ schedule, the line parser (a loop over the lines, proved against the recursive `Parse`), and the storing loop (each record converted, then inserted or ignored in order; proved against `StoreAll`) |
| `SqliteStore` | `sqlite_store.dfy` | INSERT OR IGNORE as a function and as the class `SongTable` that reassigns its rows, plus the read queries |
| `MemoryStore` | `memory_store.dfy` | the class `InMemoryDatabase`, whose methods update its song array and id counter; its Map-filling loops are proved against tallies |
| `Scheduler` | `scheduler.dfy` | the class `SyncScheduler` holding the nullable cron job |
| `StatsRoute` | `stats_route.dfy` | the `type` dispatch and the four aggregations of GET /api/stats |
| `Analytics` | `analytics.dfy` | `getHourLabel` and `getMaxPlays` |

Three shared modules support them:

- `Songs` holds the song record and the clock arithmetic.
- `Text` holds trim, split, digits and lower-casing.
- `Collections` holds counting, tallies, a stable descending sort, SQL LIMIT and `Array.prototype.slice`.

Instants are whole minutes since 1970-01-01T00:00Z. `DATE(t)` is `t / 1440`, and `strftime('%H', t)` is the hour of that minute. Whatever is outside the program is a parameter:

- the fetched page (None when the fetch or the body read fails);
- the weekday, year and time zone offset of the sync;
- the CURRENT_TIMESTAMP of the sync;
- the current time of the statistics endpoint;
- the outcome of a sync, which the scheduler only logs.

## Model

| member | source | states |
|---|---|---|
| Scraper.CurrentDJInSlot | src/lib/scraper.ts:16-38 | inside any slot of the weekly programme (weekday bands 6-10, 10-14, 14-18, 18-20 and 20-22; Saturday 8-10 and 10-14; Sunday 10-12 and 12-14) the schedule names exactly that slot's host and show |
| Scraper.CurrentDJOffProgramme | src/lib/scraper.ts:16-38 | outside every slot the schedule falls back to "Automated" / "Automated Programming" |
| Scraper.ProgrammeDisjoint | src/lib/scraper.ts:19-35 | no two slots of the programme overlap, so the order of the checks does not matter |
| Scraper.NightIsAutomated | src/lib/scraper.ts:16-38 | every hour before 6 or from 22 on is automated programming, on every day |
| Scraper.Lines | src/lib/scraper.ts:54-55 | the split-and-filter keeps exactly the pieces of `split('\n')` that are non-blank after trimming, in their original order (a subsequence), and none holds a newline |
| Scraper.LeadingStamp | src/lib/scraper.ts:62 | a stamp is found only when the line opens with `dd/dd`, a space and a `h:mm` or `hh:mm` time |
| Scraper.StampOnly | src/lib/scraper.ts:75 | a bare-stamp line is exactly date, space, time |
| Scraper.SplitThree | src/lib/scraper.ts:62 | no match exactly when the body holds a line terminator or no separator with text on both sides; otherwise title and artist are non-empty, the title ends at the first separator after position 0, the artist at the next separator followed by text, and the album is the rest of the line |
| Scraper.SplitTwo | src/lib/scraper.ts:65 | no match exactly when the body holds a line terminator or no separator with text on both sides; otherwise the body is two non-empty groups around the first such separator |
| Scraper.SplitRest | src/lib/scraper.ts:62 | on the text after the first separator, the lazy second group stops at the first separator followed by text, which starts the album; with none, the whole text is the second group |
| Scraper.FirstSeparator | src/lib/scraper.ts:62 | in "x / y" the first group ends right after x exactly when no separator with text after it starts inside x followed by a space, so titles such as "AC/DC" are split where the source splits them |
| Scraper.SplitThreeTwo | src/lib/scraper.ts:62 | "x / y" matches as title x and artist y, without album, whenever neither field holds a " / " that the lazy groups would stop at |
| Scraper.SplitThreeThree | src/lib/scraper.ts:62 | "x / y / z" matches as title x, artist y and album z, where z may itself contain separators |
| Scraper.MatchFirst | src/lib/scraper.ts:62 | a match of pattern 1 always carries a well-formed date and time |
| Scraper.SecondPatternUnreachable | src/lib/scraper.ts:62-72 | any line that pattern 2 matches was already matched by pattern 1, so the artist/title swap at lines 69-70 never takes effect |
| Scraper.FromNextLine | src/lib/scraper.ts:77-86 | pattern 3 keeps the stamp of the bare line and needs at least two " / " parts on the next line |
| Scraper.Record | src/lib/scraper.ts:88-110 | a record has a well-formed date and time, and its DJ is the one the schedule names for the parsed hour |
| Scraper.MatchTurn | src/lib/scraper.ts:58-86 | a turn uses the next line only when one exists and the turn produced fields, and every match is well stamped |
| Scraper.MatchLine | src/lib/scraper.ts:58-86 | the loop body as written (patterns 1, 2 and 3 in order) agrees with the turn function |
| Scraper.ParseLines | src/lib/scraper.ts:57-112 | the index loop, which skips one more line when pattern 3 consumed the next, returns exactly the records of the recursive parse |
| Scraper.NextTurn | src/lib/scraper.ts:57-86 | one turn at line i stays within the lines, and the parse from i is that turn's record followed by the parse after it |
| Scraper.ParseAt | src/lib/scraper.ts:57-112 | the parse from any line i starts with the turn taken at i |
| Scraper.ScrapePlaylist | src/lib/scraper.ts:40-120 | the records are the parse of the page's lines, and a page that could not be fetched or read yields no records |
| Scraper.ParseLength | src/lib/scraper.ts:57-112 | there are never more records than lines |
| Scraper.ParseRecords | src/lib/scraper.ts:57-112 | every record the parser emits has a well-formed stamp and the DJ the schedule names for its hour |
| Scraper.TitleArtistLine | src/lib/scraper.ts:62-110 | the line "date time X / Y" yields title X and artist Y, trimmed and without album, then the rest of the page; X and Y may contain slashes, only not a " / " the lazy groups stop at |
| Scraper.TitleArtistAlbumLine | src/lib/scraper.ts:62-110 | the line "date time X / Y / Z" yields title X, artist Y and album Z, where Z may itself contain separators and X and Y may contain slashes |
| Scraper.StampThenPair | src/lib/scraper.ts:75-86 | a bare stamp followed by a line of two or more parts yields artist = part 1, title = part 2 and album = part 3; later parts are dropped and both lines are consumed |
| Scraper.StampWithoutPair | src/lib/scraper.ts:75-86 | a bare stamp whose next line has fewer than two parts yields nothing, and the next line gets its own turn |
| Scraper.StampLast | src/lib/scraper.ts:75-86 | a bare stamp on the last line yields nothing |
| Scraper.ParseTakesPair | src/lib/scraper.ts:83 | a turn that consumed the next line drops both lines |
| Scraper.ParseDropsFirst | src/lib/scraper.ts:57-112 | a turn that matched nothing drops only its own line |
| Scraper.EpochIsDayZero | src/lib/scraper.ts:132-138 | `new Date(1970, 0, 1)` is day 0 |
| Scraper.MonthCarries | src/lib/scraper.ts:132-138 | month index 12 carries into January of the next year, as the Date constructor does |
| Scraper.LocalInstantUtc | src/lib/scraper.ts:132-138 | with no time zone offset, the stored instant falls on the constructed day at the written hour |
| Scraper.YearLength | src/lib/scraper.ts:132-138 | from one New Year's Day to the next, the constructed days differ by 366 in a Gregorian leap year and by 365 otherwise |
| Scraper.ToSong | src/lib/scraper.ts:128-149 | the song keeps the record's artist, title and album, takes its DJ and show from the schedule at the parsed hour, and is played at `new Date(year, month - 1, day, hour, minute)` in the sync's time zone; in UTC that instant falls on the written day at the written hour |
| Scraper.ToSongsAt | src/lib/scraper.ts:127-155 | the i-th song of a batch is the conversion of the i-th record |
| Scraper.Batch | src/lib/scraper.ts:122-155 | a sync hands the table one song per scraped record, in page order |
| Scraper.StoreSongs | src/lib/scraper.ts:127-155 | the loop leaves the table equal to inserting or ignoring each converted song in turn, advances the AUTOINCREMENT counter once per record, and `added` equals the growth of the table, at most one per record |
| Scraper.InsertAll | src/lib/scraper.ts:127-155 | the loop of INSERT OR IGNORE calls equals `StoreAll` over the batch, keeps the table well formed, advances the counter by the batch length, and counts exactly the rows added |
| Scraper.InsertNext | src/lib/scraper.ts:151-154 | one turn of the loop moves the table from the first i songs stored to the first i + 1 and reports whether a row was added |
| Scraper.FetchAndStoreSongs | src/lib/scraper.ts:122-158 | `total` is the number of scraped records, the table is the batch stored into it with the counter advanced by `total`, and `new` counts the rows actually added |
| Scraper.ResyncAddsNothing | src/lib/scraper.ts:122-158 | syncing the same page again in the same year and time zone, on any weekday, at any later CURRENT_TIMESTAMP and whatever the AUTOINCREMENT counter has reached, leaves the table unchanged |
| Scraper.ParseWeekday | src/lib/scraper.ts:57-112 | the weekday only picks each record's DJ: with the DJ blanked, the parse of the lines is the same on every weekday |
| Scraper.BatchWeekday | src/lib/scraper.ts:127-149 | the batches of one page on two weekdays have the same length and the same (artist, title, played_at) triple at every position |
| SqliteStore.InsertOrIgnore | src/lib/database.ts:65-71 | the table grows by one row exactly when the (artist, title, played_at) triple is new under the UNIQUE constraint of database.ts:26; the new row takes the id after the AUTOINCREMENT counter, which every attempt advances; the triple is stored afterwards; unique triples and increasing ids bounded by the counter are preserved |
| SqliteStore.InsertTwice | src/lib/database.ts:65-71 | inserting the same song again changes no row, although the counter moves on |
| SqliteStore.StoreAll | src/lib/database.ts:65-71 | a batch only appends and adds at most one row per song |
| SqliteStore.StoreAllWellFormed | src/lib/database.ts:65-71 | a batch keeps triples unique and ids increasing and within the counter, which ends one further on per song |
| SqliteStore.StoreAllHolds | src/lib/database.ts:65-71 | after a batch the table holds every song's triple |
| SqliteStore.StoreAllPrefix | src/lib/database.ts:65-71 | storing the first i + 1 songs is storing the first i and then inserting song i with the counter i further on |
| SqliteStore.StoreAllKnown | src/lib/database.ts:65-71 | a batch whose triples are all stored already changes nothing |
| SqliteStore.StoreAllAppend | src/lib/database.ts:65-71 | storing one more song after a batch is one INSERT OR IGNORE on the result |
| SqliteStore.StoreAllIdempotent | src/lib/database.ts:65-71 | storing a batch a second time, at any time and from any counter, leaves the rows of the first storing unchanged |
| SqliteStore.SongTable.constructor | src/lib/database.ts:15-27 | a new table is empty, well formed, and its AUTOINCREMENT counter is 0 |
| SqliteStore.SongTable.InsertSong | src/lib/database.ts:65-71 | every call advances the AUTOINCREMENT counter; `changes` is 0 exactly when the triple was present, and then the rows and last rowid are unchanged; otherwise `changes` is 1, one row with the new counter as id is appended, that id exceeds every earlier one, and `lastInsertRowid` is that id |
| SqliteStore.PlayedAfter | src/lib/database.ts:108 | the window holds exactly the rows played strictly after the cut-off |
| SqliteStore.NewestFirst | src/lib/database.ts:73-80 | rows are in non-increasing played_at order; length is min(limit, rows), or all rows when the limit is negative; the result is drawn from the rows, and none newer than the last one returned is left out |
| SqliteStore.RecentSongs | src/lib/database.ts:73-80 | `getRecentSongs`: newest first, as many as the limit allows, only table rows, and nothing newer than the last returned row is missing |
| SqliteStore.ByDJMembers | src/lib/database.ts:85 | `WHERE dj_name = ?` keeps exactly that DJ's rows |
| SqliteStore.SongsByDJ | src/lib/database.ts:82-90 | only that DJ's rows, newest first, each no more often than stored, exactly min(limit, that DJ's rows) of them, all of them with a negative limit, and none of that DJ's rows newer than the last returned is missing |
| SqliteStore.TopArtistsByDJ | src/lib/database.ts:92-102 | one entry per artist the DJ played, with that DJ's exact play count, most played first, exactly min(limit, that DJ's distinct artists) entries, and every artist played more often than the last entry is listed |
| SqliteStore.TopSongs | src/lib/database.ts:104-114 | one entry per (artist, title) played after the cut-off, with its exact count, most played first, exactly min(limit, distinct songs) entries, and every song played more often than the last entry is listed |
| SqliteStore.CountDJNames | src/lib/database.ts:125-126 | each non-null DJ name occurs once per row of that DJ |
| SqliteStore.StatOfFacts | src/lib/database.ts:116-130 | one group's aggregates: total = that DJ's rows ≥ 1; unique_artists is the number of distinct artists and days_active the number of distinct days among them, each between 1 and total; `last_active` is one of the DJ's played_at values and no later than any of them |
| SqliteStore.StatsOfTotals | src/lib/database.ts:120 | the groups' total_songs add up to their counts |
| SqliteStore.GroupStats | src/lib/database.ts:116-130 | every group of a sorted tally of DJ names carries that DJ's row count, its distinct artists and days, and its latest played_at |
| SqliteStore.DJStats | src/lib/database.ts:116-130 | one group per distinct non-null dj_name and no other; totals are non-increasing and sum to the rows with a DJ; each group's total, COUNT(DISTINCT artist) and COUNT(DISTINCT DATE(played_at)) are those of exactly that DJ's rows; MAX(played_at) is attained and maximal |
| MemoryStore.OrElse | src/lib/database-memory.ts:53-56 | the JavaScript "or" default yields x exactly when x is a non-empty string |
| MemoryStore.NumberedOnce | src/lib/database-memory.ts:19-27 | a log numbered by insertion holds no stored song twice |
| MemoryStore.IdsDistinct | src/lib/database-memory.ts:19-33 | in any order the sort leaves, the stored songs carry distinct ids between 1 and their number |
| MemoryStore.NumberedIncreasing | src/lib/database-memory.ts:22 | ids follow insertion order strictly |
| MemoryStore.TruthyDJs | src/lib/database-memory.ts:43 | the list holds exactly the non-empty dj_name values |
| MemoryStore.ShowMapLast | src/lib/database-memory.ts:49-59 | the Map has an entry for exactly the truthy DJ names, and each entry's show is the DJ's last non-empty show_name, or "" |
| MemoryStore.LastShowAbsent | src/lib/database-memory.ts:53 | a DJ who never appears gets no show |
| MemoryStore.ForEachStep | src/lib/database-memory.ts:51-59 | one forEach step bumps the DJ's count and rewrites its show with the show_name when non-empty, else the existing show |
| MemoryStore.DJListFacts | src/lib/database-memory.ts:48-66 | one entry per truthy DJ name, with that DJ's song count and last show; counts are non-increasing and sum to the songs that have a DJ |
| MemoryStore.ShowsCover | src/lib/database-memory.ts:61-64 | every DJ in the sorted tally has its show in the Map |
| MemoryStore.TopArtistFacts | src/lib/database-memory.ts:68-79 | distinct artists, each with its exact count, most played first, counts summing to at most the number of songs; the length is what `slice(0, limit)` leaves of one entry per distinct artist (min(limit, artists), or all but the last -limit), and every artist played more often than the last entry is listed |
| MemoryStore.SearchIn | src/lib/database-memory.ts:81-88 | a song is found exactly when its artist, its title or its non-empty album contains the lower-cased query; the result is a subsequence of the stored songs, so stored order is kept and nothing is repeated |
| MemoryStore.SearchEmpty | src/lib/database-memory.ts:81-88 | an empty query returns every song, in stored order |
| MemoryStore.InMemoryDatabase.constructor | src/lib/database-memory.ts:15-17 | a new store is empty, with the next id 1 |
| MemoryStore.InMemoryDatabase.InsertSong | src/lib/database-memory.ts:19-27 | always appends the song under the next id with `now` as created_at, increments the id, and reports `{changes: 1, lastInsertRowid: id}`, even for a duplicate |
| MemoryStore.InMemoryDatabase.GetSongs | src/lib/database-memory.ts:29-33 | sorts the stored array in place (newest played first, as a permutation), then returns `slice(offset, offset + limit)` with defaults 50 and 0 |
| MemoryStore.InMemoryDatabase.GetSongCount | src/lib/database-memory.ts:35-37 | the number of songs inserted since the last clear, which is the next id minus one |
| MemoryStore.InMemoryDatabase.GetStats | src/lib/database-memory.ts:39-46 | totalSongs is the song count; uniqueArtists is the number of distinct artists and totalDJs the number of distinct non-empty DJ names; lastUpdate is absent exactly when the store is empty, else the created_at of the array's last element |
| MemoryStore.InMemoryDatabase.GetDJs | src/lib/database-memory.ts:48-66 | the forEach over the Map computes the DJ list of `DJListFacts` |
| MemoryStore.InMemoryDatabase.GetTopArtists | src/lib/database-memory.ts:68-79 | the forEach tally, sorted and sliced with default limit 10, is the list of `TopArtistFacts` |
| MemoryStore.InMemoryDatabase.SearchSongs | src/lib/database-memory.ts:81-88 | returns `SearchIn` of the stored songs: exactly the matching songs, ignoring case, in stored order |
| MemoryStore.InMemoryDatabase.Clear | src/lib/database-memory.ts:90-93 | empties the store and restarts the ids at 1 |
| MemoryStore.DuplicateInsert | src/lib/database-memory.ts:19-27 | the same song inserted twice gives two songs in memory but one row in the SQLite table |
| Scheduler.SyncScheduler.constructor | src/lib/scheduler.ts:5 | no job at load |
| Scheduler.SyncScheduler.Start | src/lib/scheduler.ts:7-33 | always initialises the database; with a job already running, changes nothing else; otherwise creates and starts a new job and runs one immediate sync whose outcome is swallowed |
| Scheduler.SyncScheduler.Stop | src/lib/scheduler.ts:35-41 | afterwards no job exists; nothing else changes |
| Scheduler.SyncScheduler.Fire | src/lib/scheduler.ts:15-23 | a firing runs one sync and, success or failure, leaves the job running |
| Scheduler.SyncScheduler.GetSchedulerStatus | src/lib/scheduler.ts:43-48 | running exactly when a job exists; "Every 5 minutes" exactly when running, else "Not scheduled" |
| Scheduler.StartTwice | src/lib/scheduler.ts:7-13 | starting twice creates one job and one immediate sync but initialises the database twice |
| Scheduler.StartStopStart | src/lib/scheduler.ts:7-41 | start, fire, stop, stop, start: running again under a new job after two immediate syncs, even when every sync failed |
| StatsRoute.KindOf | src/app/api/stats/route.ts:9 | a present, non-empty `type` is used as given; anything else reads as "overview" |
| StatsRoute.OverviewOf | src/app/api/stats/route.ts:14-26 | totalSongs is the row count, uniqueArtists and totalDJs are the numbers of distinct artists and distinct non-null DJ names, and lastUpdate is absent exactly on an empty table, else the largest created_at |
| StatsRoute.HourlyFacts | src/app/api/stats/route.ts:28-38 | one entry per hour of day seen in the last week, hours strictly ascending, each within 0..23 with its exact play count, counts summing to the rows in the window |
| StatsRoute.DailyFacts | src/app/api/stats/route.ts:40-51 | one entry per day seen in the last 30 days, days strictly descending, each with its exact play count and, as unique_artists, the number of distinct artists played that day |
| StatsRoute.DayEntryFacts | src/app/api/stats/route.ts:43-45 | a day's play count is the number of its rows, and its unique_artists is the number of distinct artists among them, at least one and at most its plays |
| StatsRoute.OnDay | src/app/api/stats/route.ts:43-48 | exactly the rows played on the given day |
| StatsRoute.OnDaySnoc | src/app/api/stats/route.ts:43-48 | one more row adds one to its own day's rows and to that day's count, and nothing to other days |
| StatsRoute.DayEntriesOf | src/app/api/stats/route.ts:40-51 | one entry per day group, in the groups' order |
| StatsRoute.OnDayCount | src/app/api/stats/route.ts:43-48 | the rows of a day are as many as that day's occurrences among the rows' days |
| StatsRoute.GenreOf | src/app/api/stats/route.ts:53-64 | distinct artists from the last week, each with its exact count, most played first, exactly min(30, distinct artists) entries, and every artist played more often than the last entry is listed |
| StatsRoute.GetStats | src/app/api/stats/route.ts:6-82 | a failing database gives status 500 and otherwise success; the response echoes the type; overview, hourly, daily and genre-distribution carry exactly the aggregation of that name over the table, and an unknown type gives empty data |
| Analytics.HourLabelShape | src/app/analytics/page.tsx:40-45 | on a day's hours the label is a clock number 1..12, a space and "PM" exactly from noon on |
| Analytics.ParseHourLabelInverse | src/app/analytics/page.tsx:40-45 | reading a label back gives the hour |
| Analytics.HourLabelInjective | src/app/analytics/page.tsx:40-45 | no two hours of the day share a label |
| Analytics.MaxPlays | src/app/analytics/page.tsx:47-49 | the largest play count, a missing count reading as 0, attained by some bucket; absent exactly for an empty list |

## Left out

- Fetching the page, parsing the HTML and taking the body text (scraper.ts:42-54) are not modelled. The page text is a parameter, and None stands for a failed fetch or read, which makes `scrapePlaylist` return no records (scraper.ts:116-119).
- The regular expressions are modelled with single spaces between the stamp, the time and the body, and a literal " / " separator. The `\s+` runs of the source are not modelled.
- JavaScript `Date` is modelled with one fixed time zone offset per sync. Daylight-saving changes within a sync are not modelled.
- `played_at` is compared as an instant. The source compares the stored ISO string with SQLite's `datetime` text; that comparison is not modelled.
- SQLite and file system errors are not modelled. An insert that throws, and the rethrow at scraper.ts:159-162, are not modelled; the statistics endpoint's 500 path is modelled through a missing database.
- Each sync takes one CURRENT_TIMESTAMP (`now`) for all its rows.
- node-cron timing and the asynchronous syncs are not modelled. A sync's outcome is a parameter that the scheduler never inspects, as in the source, where it is only logged; the syncs themselves are counted, and the console logging is left out.
- `initDatabase` creates more tables and indexes (djs, genres, song_genres). Only the `songs` table and its UNIQUE constraint are modelled.
- The module-level wrappers at database-memory.ts:99-130 only delegate to the singleton and are not modelled separately.
- db.ts, seed-data.ts, the other API routes and the React UI are not part of this model.
- MaxPlays: the source's `Math.max()` of an empty list is -Infinity; the model returns None there. Play counts are integers, not floats.
- HourLabel: the source's `parseInt` of a non-numeric hour is NaN; the model takes an integer hour.
- ToLower: only ASCII letters are lower-cased.
- Ties in ORDER BY and in `Array.prototype.sort` are broken by one admissible stable order. The engines may order ties differently; only the ordering and the permutation are proved.
- The `playedAt` value computed and never used at scraper.ts:93-99 is not modelled.
- The `dj` field of a scraped record is not what gets stored. `fetchAndStoreSongs` recomputes DJ and show from the schedule; both are modelled, but only the latter is stored.
- The comparator of `getSongs` on unparsable dates (NaN) is not modelled; played_at is always a valid instant.
- MemoryStore.InMemoryDatabase.GetSongs: the in-place array sort is modelled as reassigning the `songs` sequence with its sorted copy. Aliasing of the returned array is not modelled.
- Which element is last in the in-memory array depends on whether `getSongs` sorted it in place since the last insert; the model states lastUpdate as the last element's created_at, as the source computes it, and does not relate it to the latest insert.
