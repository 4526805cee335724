/**
 * The four lines of the face and the once-a-minute tick
 * (src/main.c:45-56, 111-238): each line keeps the text it shows and the
 * text it showed before the tick; `nederlands_format` rewrites the texts,
 * and `update_word` sets the layer text and schedules the slide-in
 * animation only for a line whose text changed.
 */
module Clock {
  import opened Wrappers
  import opened Lexicon
  import opened Phrasing

  /** The four lines of the face. */
  datatype Slot = AmPm | Hour | Rel | Min

  /** What the tick does to one line: the layer text it sets and whether it animates. */
  datatype Redraw = Redraw(slot: Slot, text: string, animate: bool)

  /** One line of the face (`word_t`); None is the null text a static starts with. */
  class Word {
    var text: Option<string>
    var oldText: Option<string>
    var layerText: Option<string>

    constructor ()
      ensures text == None && oldText == None && layerText == Some("")
    {
      text := None;
      oldText := None;
      layerText := Some("");
    }

    /** `update_word`: show the text; animate exactly when it changed this tick. */
    method Update() returns (animate: bool)
      modifies this`layerText
      ensures layerText == text
      ensures animate <==> text != oldText
    {
      layerText := text;
      animate := text != oldText;
    }
  }

  /** The four lines `ampm_word`, `hour_word`, `rel_word` and `min_word`. */
  class WordClock {
    const ampmWord: Word
    const hourWord: Word
    const relWord: Word
    const minWord: Word

    /** The four lines are four different objects. */
    ghost predicate Valid() {
      && ampmWord != hourWord && ampmWord != relWord && ampmWord != minWord
      && hourWord != relWord && hourWord != minWord
      && relWord != minWord
    }

    /** The face the four lines hold, once every line has a text. */
    function Showing(): Option<Face>
      reads minWord, relWord, hourWord, ampmWord
    {
      if minWord.text.Some? && relWord.text.Some? && hourWord.text.Some? && ampmWord.text.Some?
      then Some(Face(minWord.text.value, relWord.text.value, hourWord.text.value, ampmWord.text.value))
      else None
    }

    /** The face as the statics start: every text null, every layer showing "". */
    constructor ()
      ensures Valid()
      ensures fresh(ampmWord) && fresh(hourWord) && fresh(relWord) && fresh(minWord)
      ensures ampmWord.text == None && hourWord.text == None && relWord.text == None && minWord.text == None
      ensures ampmWord.oldText == None && hourWord.oldText == None && relWord.oldText == None && minWord.oldText == None
      ensures ampmWord.layerText == Some("") && hourWord.layerText == Some("")
      ensures relWord.layerText == Some("") && minWord.layerText == Some("")
    {
      ampmWord := new Word();
      hourWord := new Word();
      relWord := new Word();
      minWord := new Word();
    }

    /**
     * `nederlands_format`: the if/else chain over the minute, with its hour
     * carry, then the hour and day-period words of the carried hour.  It
     * writes every text, and no previous text.
     */
    method NederlandsFormat(hour: int, min: int)
      requires Valid() && ValidTime(hour, min)
      modifies minWord`text, relWord`text, hourWord`text, ampmWord`text
      ensures minWord.text == Some(MinuteWord(min)) && relWord.text == Some(Relation(min))
      ensures hourWord.text == Some(HourString(CarriedHour(hour, min)))
      ensures ampmWord.text == Some(DayPeriod(CarriedHour(hour, min)))
      ensures ampmWord.oldText == old(ampmWord.oldText) && hourWord.oldText == old(hourWord.oldText)
      ensures relWord.oldText == old(relWord.oldText) && minWord.oldText == old(minWord.oldText)
    {
      var h := hour;
      if min == 0 {
        minWord.text := Some("");
        relWord.text := Some("");
      } else if min == 15 {
        minWord.text := Some("");
        relWord.text := Some(QuarterPast);
        h := h + 1;
      } else if min <= 21 {
        minWord.text := Some(MinString(min));
        relWord.text := Some(Past);
      } else if min < 30 {
        minWord.text := Some(MinString(30 - min));
        relWord.text := Some(ToHalf);
        h := h + 1;
      } else if min == 30 {
        minWord.text := Some("");
        relWord.text := Some(Half);
        h := h + 1;
      } else if min < 41 {
        minWord.text := Some(MinString(min - 30));
        relWord.text := Some(PastHalf);
        h := h + 1;
      } else if min == 45 {
        minWord.text := Some("");
        relWord.text := Some(QuarterTo);
        h := h + 1;
      } else if min < 60 {
        minWord.text := Some(MinString(60 - min));
        relWord.text := Some(To);
        h := h + 1;
      }
      assert h == CarriedHour(hour, min);
      FormatHour(h);
    }

    /**
     * The tail of `nederlands_format`: the hour word of the (carried) hour
     * and its day period, which is left out at midnight and noon.
     */
    method FormatHour(h: int)
      requires Valid() && 0 <= h <= 24
      modifies hourWord`text, ampmWord`text
      ensures hourWord.text == Some(HourString(h)) && ampmWord.text == Some(DayPeriod(h))
    {
      hourWord.text := Some(HourString(h));

      if h == 0 || h == 12 {
        ampmWord.text := Some("");
      } else if h < 6 {
        ampmWord.text := Some(Night);
      } else if h <= 12 {
        ampmWord.text := Some(Morning);
      } else if h <= 17 {
        ampmWord.text := Some(Afternoon);
      } else if h <= 24 {
        ampmWord.text := Some(Evening);
      }
    }

    /**
     * `handle_tick`: remember every text, recompute the face, then redraw
     * the lines in the order ampm, hour, relation, minute, animating exactly
     * the lines whose text differs from the one remembered.
     */
    method Tick(hour: int, min: int) returns (redraws: seq<Redraw>)
      requires Valid() && ValidTime(hour, min)
      modifies ampmWord, hourWord, relWord, minWord
      ensures Showing() == Some(Phrases(hour, min))
      ensures ampmWord.oldText == old(ampmWord.text) && hourWord.oldText == old(hourWord.text)
      ensures relWord.oldText == old(relWord.text) && minWord.oldText == old(minWord.text)
      ensures ampmWord.layerText == ampmWord.text && hourWord.layerText == hourWord.text
      ensures relWord.layerText == relWord.text && minWord.layerText == minWord.text
      ensures var f := Phrases(hour, min);
        redraws == [
          Redraw(AmPm, f.dayPeriod, old(ampmWord.text) != Some(f.dayPeriod)),
          Redraw(Hour, f.hour, old(hourWord.text) != Some(f.hour)),
          Redraw(Rel, f.relation, old(relWord.text) != Some(f.relation)),
          Redraw(Min, f.minute, old(minWord.text) != Some(f.minute))]
    {
      ampmWord.oldText := ampmWord.text;
      hourWord.oldText := hourWord.text;
      relWord.oldText := relWord.text;
      minWord.oldText := minWord.text;

      NederlandsFormat(hour, min);

      var a := ampmWord.Update();
      var b := hourWord.Update();
      var c := relWord.Update();
      var d := minWord.Update();
      var f := Phrases(hour, min);
      redraws := [Redraw(AmPm, f.dayPeriod, a), Redraw(Hour, f.hour, b), Redraw(Rel, f.relation, c), Redraw(Min, f.minute, d)];
    }
  }

  /**
   * A face that has just started gets two ticks: the first animates every
   * line, since every text starts null; the second animates some line
   * exactly when its reading differs from the first one's.
   */
  method TwoTicks(h1: int, m1: int, h2: int, m2: int) returns (first: seq<Redraw>, second: seq<Redraw>)
    requires ValidTime(h1, m1) && ValidTime(h2, m2)
    ensures |first| == 4 && forall k :: 0 <= k < 4 ==> first[k].animate
    ensures |second| == 4
    ensures (exists k :: 0 <= k < 4 && second[k].animate) <==> (h1, m1) != (h2, m2)
  {
    var clock := new WordClock();
    first := clock.Tick(h1, m1);
    second := clock.Tick(h2, m2);
    ghost var f1, f2 := Phrases(h1, m1), Phrases(h2, m2);
    assert second[0].animate == (f1.dayPeriod != f2.dayPeriod);
    assert second[1].animate == (f1.hour != f2.hour);
    assert second[2].animate == (f1.relation != f2.relation);
    assert second[3].animate == (f1.minute != f2.minute);
    PhrasesInjective(h1, m1, h2, m2);
  }
}
