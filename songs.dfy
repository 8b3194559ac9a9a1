/** The song record both storage backends keep, and the clock arithmetic the
    SQL queries apply to its timestamps. */
module Songs {
  import opened Collections

  /** An instant, in whole minutes since 1970-01-01T00:00Z. The stored
      `played_at` and `created_at` texts are UTC renderings of such an
      instant; DATE() and strftime('%H') read its UTC day and hour. */
  type Instant = int

  const MinutesPerDay: int := 1440

  /** SQLite `DATE(t)`, numbered in days since the epoch. */
  function DayOf(t: Instant): int
  {
    t / MinutesPerDay
  }

  /** SQLite `strftime('%H', t)`. */
  function HourOf(t: Instant): (h: int)
    ensures 0 <= h < 24
  {
    (t % MinutesPerDay) / 60
  }

  /** A song as handed to `insertSong`; absent optional columns are NULL. */
  datatype Song = Song(
    artist: string,
    title: string,
    album: Option<string>,
    playedAt: Instant,
    djName: Option<string>,
    showName: Option<string>)

  /** The columns of the table's UNIQUE constraint. */
  datatype Triple = Triple(artist: string, title: string, playedAt: Instant)

  function TripleOf(s: Song): Triple
  {
    Triple(s.artist, s.title, s.playedAt)
  }
}
