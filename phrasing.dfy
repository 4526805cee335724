/**
 * The phrase table of the clock face (src/main.c:111-191): for an hour and
 * a minute, the four words shown on the minute, relation, hour and
 * day-period lines.  This module states the table by minute buckets; the
 * if/else chain of `nederlands_format` itself is Clock.WordClock.NederlandsFormat,
 * which is proved to write exactly the lines of `Phrases`.
 */
module Phrasing {
  import opened Wrappers
  import opened Lexicon

  /** A wall-clock reading as the tick delivers it. */
  predicate ValidTime(h: int, m: int) {
    0 <= h <= 23 && 0 <= m <= 59
  }

  /** The words on the minute, relation, hour and day-period lines. */
  datatype Face = Face(minute: string, relation: string, hour: string, dayPeriod: string)

  // The relation words.
  const Past := "ab"
  const QuarterPast := "viertäl ab"
  const ToHalf := "vor halbi"
  const Half := "halbi"
  const PastHalf := "über halbi"
  const QuarterTo := "viertäl vor"
  const To := "vor"

  // The day-period words.
  const Night := "z'nacht"
  const Morning := "am morgä"
  const Afternoon := "am namitag"
  const Evening := "am abig"

  /**
   * The index the chain of `nederlands_format` hands to `min_string`, as
   * written, or None where it shows no minute word.  At minute 21 this is
   * 21, one past the end of `Nums`.
   */
  function NumsIndex(m: int): (r: Option<int>)
    ensures 0 <= m <= 59 ==> (r.None? <==> m == 0 || m == 15 || m == 30 || m == 45)
    ensures 0 <= m <= 59 && r.Some? ==> 1 <= r.value <= 21
  {
    if m == 0 then None
    else if m == 15 then None
    else if m <= 21 then Some(m)
    else if m < 30 then Some(30 - m)
    else if m == 30 then None
    else if m < 41 then Some(m - 30)
    else if m == 45 then None
    else if m < 60 then Some(60 - m)
    else None
  }

  /**
   * As written, every minute except 21 looks up a word that `Nums` has,
   * and minute 21 reads one entry past its end.
   */
  lemma NumsOverrunOnlyAtTwentyOne(m: int)
    requires 0 <= m <= 59
    ensures NumsIndex(m).Some? ==> 1 <= NumsIndex(m).value
    ensures NumsIndex(m).Some? ==> (NumsIndex(m).value < |Nums| <==> m != 21)
    ensures NumsIndex(21) == Some(|Nums|)
  {
  }

  /**
   * The minute line: empty on the quarter marks, otherwise the distance to
   * the nearest of the hour, the half or the next hour, counted up to 21
   * past the hour.
   */
  function MinuteWord(m: int): (r: string)
    requires 0 <= m <= 59
    ensures r == "" <==> m == 0 || m == 15 || m == 30 || m == 45
  {
    if m == 0 || m == 15 || m == 30 || m == 45 then ""
    else if m <= 21 then MinString(m)
    else if m < 30 then MinString(30 - m)
    else if m <= 40 then MinString(m - 30)
    else MinString(60 - m)
  }

  /** Off the quarter marks, the minute line is the entry the chain looks up. */
  lemma MinuteWordIsNumsEntry(m: int)
    requires 0 <= m <= 59 && m != 0 && m != 15 && m != 30 && m != 45
    ensures NumsIndex(m).Some? && 1 <= NumsIndex(m).value < |Words|
    ensures MinuteWord(m) == MinString(NumsIndex(m).value)
  {
  }

  /** The relation line; empty exactly on the hour. */
  function Relation(m: int): (r: string)
    requires 0 <= m <= 59
    ensures r == "" <==> m == 0
  {
    if m == 0 then ""
    else if m <= 21 then (if m == 15 then QuarterPast else Past)
    else if m < 30 then ToHalf
    else if m == 30 then Half
    else if m <= 40 then PastHalf
    else if m == 45 then QuarterTo
    else To
  }

  /** The minutes that are told relative to the next hour. */
  predicate Carries(m: int) {
    m == 15 || 22 <= m
  }

  /** The hour the face names: one more when the minute carries, never wrapped. */
  function CarriedHour(h: int, m: int): (c: int)
    requires ValidTime(h, m)
    ensures 0 <= c <= 24
    ensures c == 24 <==> h == 23 && Carries(m)
  {
    if Carries(m) then h + 1 else h
  }

  /** The day-period line for a (carried) hour; empty only at midnight and noon. */
  function DayPeriod(c: int): (r: string)
    requires 0 <= c <= 24
    ensures r == "" <==> c == 0 || c == 12
    ensures r == Night <==> 1 <= c <= 5
    ensures r == Morning <==> 6 <= c <= 11
    ensures r == Afternoon <==> 13 <= c <= 17
    ensures r == Evening <==> 18 <= c <= 24
  {
    if c == 0 || c == 12 then ""
    else if c < 6 then Night
    else if c < 12 then Morning
    else if c <= 17 then Afternoon
    else Evening
  }

  /** The whole face for a reading. */
  function Phrases(h: int, m: int): (f: Face)
    requires ValidTime(h, m)
    ensures f.hour != ""
    ensures f.minute == "" <==> m == 0 || m == 15 || m == 30 || m == 45
    ensures f.relation == "" <==> m == 0
    ensures f.dayPeriod == "" <==> CarriedHour(h, m) in {0, 12}
  {
    var c := CarriedHour(h, m);
    Face(MinuteWord(m), Relation(m), HourString(c), DayPeriod(c))
  }

  /** Reads the minute back from the minute and relation lines. */
  function ReadMinute(word: string, rel: string): Option<int> {
    if rel == "" then (if word == "" then Some(0) else None)
    else if rel == QuarterPast then Some(15)
    else if rel == Half then Some(30)
    else if rel == QuarterTo then Some(45)
    else match IndexOf(word)
      case None => None
      case Some(k) =>
        if rel == Past then Some(k)
        else if rel == ToHalf then Some(30 - k)
        else if rel == PastHalf then Some(30 + k)
        else if rel == To then Some(60 - k)
        else None
  }

  /** Reads the carried hour back from the hour and day-period lines. */
  function ReadHour(word: string, period: string): Option<int> {
    if word == Midnight then Some(0)
    else if word == Noon then Some(12)
    else match IndexOf(word)
      case None => None
      case Some(k) =>
        if period == Night || period == Morning then Some(k)
        else if period == Afternoon || period == Evening then Some(k + 12)
        else None
  }

  /**
   * Reads a face back to the reading that shows it.  It succeeds only on
   * faces that `Phrases` produces, and then names their reading.
   */
  function ReadTime(f: Face): (r: Option<(int, int)>)
    ensures r.Some? ==> ValidTime(r.value.0, r.value.1) && Phrases(r.value.0, r.value.1) == f
  {
    match ReadMinute(f.minute, f.relation)
    case None => None
    case Some(m) =>
      match ReadHour(f.hour, f.dayPeriod)
      case None => None
      case Some(c) =>
        var h := if Carries(m) then c - 1 else c;
        if ValidTime(h, m) && Phrases(h, m) == f then Some((h, m)) else None
  }

  lemma {:induction false} ReadMinuteRoundTrip(m: int)
    requires 0 <= m <= 59
    ensures ReadMinute(MinuteWord(m), Relation(m)) == Some(m)
  {
    if m != 0 && m != 15 && m != 30 && m != 45 {
      MinuteWordIsNumsEntry(m);
      IndexOfMinString(NumsIndex(m).value);
    }
  }

  lemma {:induction false} ReadHourRoundTrip(c: int)
    requires 0 <= c <= 24
    ensures ReadHour(HourString(c), DayPeriod(c)) == Some(c)
  {
    if c != 0 && c != 12 {
      IndexOfMinString(if c < 12 then c else c - 12);
    }
  }

  /** Every reading of the day can be read back from its face. */
  lemma {:induction false} ReadTimeRoundTrip(h: int, m: int)
    requires ValidTime(h, m)
    ensures ReadTime(Phrases(h, m)) == Some((h, m))
  {
    ReadMinuteRoundTrip(m);
    ReadHourRoundTrip(CarriedHour(h, m));
  }

  /**
   * No two readings of the day share a face: the display changes on every
   * minute (given the lookup of minute 21 the table as written lacks).
   */
  lemma PhrasesInjective(h1: int, m1: int, h2: int, m2: int)
    requires ValidTime(h1, m1) && ValidTime(h2, m2)
    ensures Phrases(h1, m1) == Phrases(h2, m2) <==> h1 == h2 && m1 == m2
  {
    ReadTimeRoundTrip(h1, m1);
    ReadTimeRoundTrip(h2, m2);
  }

  /**
   * The hour is not wrapped: a carry out of 23 names "zwölf" in the
   * evening, never midnight.
   */
  lemma NoWrapAtMidnight(m: int)
    requires 0 <= m <= 59 && Carries(m)
    ensures Phrases(23, m).hour == Words[12] == "zwölf"
    ensures Phrases(23, m).dayPeriod == Evening
    ensures Phrases(23, m).hour != Phrases(0, 0).hour
  {
  }

  // Readings whose faces can be checked word by word against the chain.

  /** Midnight on the hour: the two-line hour word alone. */
  lemma MidnightExample()
    ensures Phrases(0, 0) == Face("", "", "mittär-\nnacht", "")
  {
  }

  /** A quarter past one is told as a quarter of two. */
  lemma QuarterPastOneExample()
    ensures Phrases(1, 15) == Face("", "viertäl ab", "zwöi", "z'nacht")
  {
  }

  /** Half past eleven carries to noon, which has no day period. */
  lemma HalfPastElevenExample()
    ensures Phrases(11, 30) == Face("", "halbi", "mittag", "")
  {
  }

  /** Half past one in the afternoon. */
  lemma HalfPastThirteenExample()
    ensures Phrases(13, 30) == Face("", "halbi", "zwöi", "am namitag")
  {
  }

  /** A quarter to midnight names twelve in the evening. */
  lemma QuarterToMidnightExample()
    ensures Phrases(23, 45) == Face("", "viertäl vor", "zwölf", "am abig")
  {
  }

  /** A quarter past eleven at night also carries past 23, to "zwölf" in the evening. */
  lemma QuarterPastElevenPmExample()
    ensures Phrases(23, 15) == Face("", "viertäl ab", "zwölf", "am abig")
  {
  }

  /** Minute 21 uses the word the table as written lacks. */
  lemma TwentyOnePastNineExample()
    ensures Phrases(9, 21) == Face("einezwänzg", "ab", "nüün", "am morgä")
  {
  }
}
