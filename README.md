# hoelaat: the Zurich German word clock, modelled in Dafny

The watch face tells the time in four lines of Zurich German words. The lines are the
minute count, its relation to the hour ("ab", "vor halbi", ...), the hour, and the
period of the day. Quarters and halves are told relative to the next hour, so the
hour "carries". Once a minute the face remembers what each line showed, recomputes
the four words, and slides in only the lines whose words changed.

The model has four modules:

- `Lexicon` (lexicon.dfy): the number table `nums`, the raw lookup `min_string`, and
  `hour_string` with its own words for midnight and noon. It also holds the reverse
  lookup `IndexOf`, the inverse of `MinString`.
- `Phrasing` (phrasing.dfy): the phrase table as a pure function `Phrases(h, m)`,
  stated by minute buckets. It also has the decoder `ReadTime`, which reads a face
  back to its reading. The round-trip lemmas show that no two minutes of the day
  share a face.
- `Clock` (clock.dfy): the four `word_t` lines as `Word` objects, each with a text,
  the text before the tick, and the text on its layer. `WordClock.NederlandsFormat`
  follows the if/else chain of `nederlands_format` branch by branch, with its local
  hour carry. It is proved to write exactly the words of `Phrases`.
  `WordClock.Tick` is `handle_tick`: it snapshots the texts, formats, and then
  redraws ampm, hour, relation and minute in that order. A line animates exactly
  when its text differs from the snapshot.
- `Wrappers` (wrappers.dfy): the `Option` type.

The carried hour is never wrapped: the comments at src/main.c:97 and 174 say that
midnight is named only when it is midnight, not when the time is told before it. At 23:15 and from 23:22 to 23:59 the hour carries to
24, which is shown as "zwölf" with "am abig" (src/main.c:107, 189); only hour 0
itself is shown as midnight. See `Phrasing.NoWrapAtMidnight`.

## Model

| member | source | states |
|---|---|---|
| `Lexicon.MinString` | src/main.c:59-89 | only entry 0 of the number table is the empty word; no number word is the midnight or noon word |
| `Lexicon.HourString` | src/main.c:92-108 | the hour word is never empty; it is the midnight word exactly at hour 0 and the noon word exactly at hour 12, also for the unwrapped hour 24 |
| `Lexicon.IndexOf` | src/main.c:83-89 | reading a word back yields an index whose entry is that word, and fails only on words the table does not hold |
| `Lexicon.WordsDistinct` | src/main.c:59-81 | no two entries of the number table are the same word |
| `Lexicon.IndexOfMinString` | src/main.c:83-89 | every non-empty number word reads back to its own index, so the lookup is invertible |
| `Phrasing.NumsIndex` | src/main.c:117-169 | the index the chain hands to `min_string` as written (`min`, `30 - min`, `min - 30`, `60 - min`): none exactly at minutes 0, 15, 30 and 45, otherwise an index from 1 to 21; its lemmas are `NumsOverrunOnlyAtTwentyOne` and `MinuteWordIsNumsEntry` |
| `Phrasing.NumsOverrunOnlyAtTwentyOne` | src/main.c:117-169 | as written, every minute except 21 looks up an index from 1 to 20 in `nums`; minute 21 looks up index 21, one past its end |
| `Phrasing.MinuteWord` | src/main.c:117-169 | the minute line is empty exactly at minutes 0, 15, 30 and 45, and is defined for every minute once the table has a word for 21 |
| `Phrasing.MinuteWordIsNumsEntry` | src/main.c:117-169 | off the quarter marks, the minute line is the table entry the chain looks up, at an index from 1 to 21 |
| `Phrasing.Relation` | src/main.c:117-169 | the relation line is empty exactly on the hour |
| `Phrasing.CarriedHour` | src/main.c:117-171 | the named hour lies in 0..24 and reaches 24 exactly when 23 o'clock carries, so it is not wrapped |
| `Phrasing.DayPeriod` | src/main.c:173-190 | the period is empty exactly at hours 0 and 12; it is "z'nacht" exactly for 1-5, "am morgä" for 6-11, "am namitag" for 13-17 and "am abig" for 18-24 |
| `Phrasing.Phrases` | src/main.c:111-191 | the hour line is never empty; the minute line is empty exactly on the quarter marks; the relation line exactly on the hour; the period exactly when the named hour is midnight or noon |
| `Phrasing.ReadTime` | src/main.c:111-191 | the decoder succeeds only on a face that `Phrases` produces for a valid reading, and then returns that reading |
| `Phrasing.ReadMinuteRoundTrip` | src/main.c:117-169 | the minute and relation lines together determine the minute |
| `Phrasing.ReadHourRoundTrip` | src/main.c:171-190 | the hour and period lines together determine the named hour 0..24 |
| `Phrasing.ReadTimeRoundTrip` | src/main.c:111-191 | every reading of the day is read back from its face |
| `Phrasing.PhrasesInjective` | src/main.c:111-191 | two readings show the same face exactly when they are the same reading |
| `Phrasing.NoWrapAtMidnight` | src/main.c:97-107 | a carry out of 23 o'clock names "zwölf" in the evening, not the midnight word |
| `Phrasing.MidnightExample` | src/main.c:117-120 | 0:00 shows only the two-line midnight word |
| `Phrasing.QuarterPastOneExample` | src/main.c:122-127 | 1:15 shows "viertäl ab" "zwöi" "z'nacht": the quarter carries |
| `Phrasing.HalfPastElevenExample` | src/main.c:142-147 | 11:30 shows "halbi" "mittag" with no period |
| `Phrasing.HalfPastThirteenExample` | src/main.c:142-147 | 13:30 shows "halbi" "zwöi" "am namitag" |
| `Phrasing.QuarterToMidnightExample` | src/main.c:156-161 | 23:45 shows "viertäl vor" "zwölf" "am abig" |
| `Phrasing.QuarterPastElevenPmExample` | src/main.c:122-127 | 23:15 carries to hour 24 and shows "viertäl ab" "zwölf" "am abig" |
| `Phrasing.TwentyOnePastNineExample` | src/main.c:129-133 | 9:21 shows the word for twenty-one "ab" "nüün" "am morgä" |
| `Clock.Word.constructor` | src/main.c:53-56 | a line starts with a null text and a null previous text |
| `Clock.Word.Update` | src/main.c:194-202 | the layer always gets the current text; the line animates exactly when the text differs from the previous one |
| `Clock.WordClock.constructor` | src/main.c:53-56 | the four lines are distinct and start with null texts |
| `Clock.WordClock.NederlandsFormat` | src/main.c:111-191 | the chain writes every line (for minutes 0..59 no line keeps a stale text): minute, relation, hour and period words of `Phrases`, with the hour carried exactly at minute 15 and from minute 22 on; no previous text is touched |
| `Clock.WordClock.FormatHour` | src/main.c:171-190 | the hour and period lines get the words for the named hour |
| `Clock.WordClock.Tick` | src/main.c:205-238 | every previous text becomes the text before the tick; the face then shows `Phrases`; every layer shows its line's text; the redraws come in the order ampm, hour, relation, minute, each animating exactly when its text changed |
| `Clock.TwoTicks` | src/main.c:218-237 | on a fresh face the first tick animates all four lines; a second tick animates some line exactly when its reading differs from the first |

## Findings

| source | as written | input that shows it | evidently intended | confidence | as-written member | corrected member |
|---|---|---|---|---|---|---|
| src/main.c:129-133 | minutes up to 21 take `min_string(min)`, but `nums` holds the words for 0 to 20 only | minute 21 of any hour reads `nums[21]`, past the end of the table | minute 21 is counted past the hour like 1 to 20, which is what the `min <= 21` guard and its comment say; the table needs a word for twenty-one ("einezwänzg" in the model) | high that the read is out of bounds; the intended word is an assumption; not executed | `Phrasing.NumsOverrunOnlyAtTwentyOne` | `Phrasing.MinuteWord` |

## Left out

- The Pebble plumbing is not modelled: the app info, `pbl_main` and its event loop, `handle_init`, `handle_deinit`, windows, fonts and layer setup (src/main.c:25-37, 241-338). These are calls into the platform SDK or pixel layout. The layer text a line starts with is taken to be "" (src/main.c:250).
- The slide-in animation is only a yes/no flag per line. Its frames, 500 ms duration and ease-in curve are not modelled.
- Reading hour and minute from `PblTm` (src/main.c:213-216) is not modelled. The tick takes a valid reading: hour 0..23, minute 0..59. For a minute of 60 or more the chain assigns no minute or relation word.
- `Clock.Word.Update`: `update_word` compares pointers, not strings (src/main.c:200). The model compares the words. Every word is a string literal or a table entry, so this is the same except for the separate "" literals (src/main.c:119, 125, 145, 159, 178). If the compiler does not merge them, a line that shows "" before and after a tick can still animate; the model says it does not.
- The table as written (`Lexicon.Nums`) lacks the word for 21. The formatter and the tick use the completed table `Lexicon.Words`; see Findings.
- No rotating status-text variant of the face exists in this source, so there is nothing to model for it.
