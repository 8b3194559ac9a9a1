/** Two helpers of the analytics page: the 12-hour label of an hour of the
    day, and the largest play count of a list of buckets. */
module Analytics {
  import opened Collections
  import opened Text

  /** `getHourLabel`: 0 is "12 AM", 12 is "12 PM", later hours count from
      1 PM, earlier ones are "h AM". The hour is the parsed number. */
  function HourLabel(h: int): string
  {
    if h == 0 then "12 AM"
    else if h == 12 then "12 PM"
    else if h > 12 then IntToString(h - 12) + " PM"
    else IntToString(h) + " AM"
  }

  /** The clock number and the suffix a label is made of. */
  function ClockNumber(h: int): int
  {
    if h == 0 || h == 12 then 12 else if h > 12 then h - 12 else h
  }

  function Suffix(h: int): string
  {
    if h >= 12 then "PM" else "AM"
  }

  /** On a day's hours the label is the clock number, 1 to 12, a space and
      the suffix, PM exactly from noon on. */
  lemma HourLabelShape(h: int)
    requires 0 <= h < 24
    ensures 1 <= ClockNumber(h) <= 12
    ensures HourLabel(h) == NatToString(ClockNumber(h)) + " " + Suffix(h)
    ensures Suffix(h) == "PM" <==> h >= 12
  {
    if h == 0 {
      assert NatToString(12) == "12";
    } else if h == 12 {
      assert NatToString(12) == "12";
    }
  }

  /** Reads a label back: the digits before the space and the suffix. */
  function ParseHourLabel(lbl: string): Option<int>
  {
    if |lbl| < 4 || lbl[|lbl| - 3] != ' ' || !AllDigits(lbl[..|lbl| - 3]) then None
    else
      var n := DigitsValue(lbl[..|lbl| - 3]);
      var suffix := lbl[|lbl| - 2..];
      if suffix == "AM" then Some(if n == 12 then 0 else n)
      else if suffix == "PM" then Some(if n == 12 then 12 else n + 12)
      else None
  }

  /** Reading a label back gives the hour. */
  lemma ParseHourLabelInverse(h: int)
    requires 0 <= h < 24
    ensures ParseHourLabel(HourLabel(h)) == Some(h)
  {
    HourLabelShape(h);
    var digits := NatToString(ClockNumber(h));
    var lbl := digits + " " + Suffix(h);
    assert lbl[..|lbl| - 3] == digits;
    assert lbl[|lbl| - 3] == ' ';
    assert lbl[|lbl| - 2..] == Suffix(h);
    NatToStringValue(ClockNumber(h));
  }

  /** No two hours of the day share a label. */
  lemma HourLabelInjective(h1: int, h2: int)
    requires 0 <= h1 < 24 && 0 <= h2 < 24
    requires HourLabel(h1) == HourLabel(h2)
    ensures h1 == h2
  {
    ParseHourLabelInverse(h1);
    ParseHourLabelInverse(h2);
  }

  /** `d.play_count || 0`: a missing count reads as 0. */
  function PlaysOf(c: Option<int>): int
  {
    if c.Some? then c.value else 0
  }

  function AllPlays(counts: seq<Option<int>>): (ps: seq<int>)
    ensures |ps| == |counts|
    ensures forall i :: 0 <= i < |counts| ==> ps[i] == PlaysOf(counts[i])
  {
    seq(|counts|, i requires 0 <= i < |counts| => PlaysOf(counts[i]))
  }

  /** `getMaxPlays`: the largest count, a missing one counting as 0; None on
      an empty list. */
  function MaxPlays(counts: seq<Option<int>>): (m: Option<int>)
    ensures m.None? <==> |counts| == 0
    ensures m.Some? ==>
      && (forall i :: 0 <= i < |counts| ==> PlaysOf(counts[i]) <= m.value)
      && (exists i :: 0 <= i < |counts| && PlaysOf(counts[i]) == m.value)
  {
    if |counts| == 0 then None
    else
      var ps := AllPlays(counts);
      assert forall i :: 0 <= i < |counts| ==> ps[i] in ps;
      Some(MaxOf(ps))
  }
}
