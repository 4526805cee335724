/**
 * The number words of the Zurich German word clock (src/main.c:59-108):
 * the table `nums`, the raw lookup `min_string` and the hour lookup
 * `hour_string` with its special words for midnight and noon.
 */
module Lexicon {
  import opened Wrappers

  /** The table `nums` as written: the words for 0 to 20, entry 0 empty. */
  const Nums: seq<string> := [
    "", "eis", "zwöi", "drü", "vier", "föif", "sächs", "siibe", "acht", "nüün",
    "zä", "ölf", "zwölf", "drizäh", "vierzä", "füfzäh", "sächszäh", "siibezäh",
    "achtzäh", "nüünzäh", "zwänzg"
  ]

  /**
   * The table the face needs: `Nums` plus the word for twenty-one, which
   * minute 21 looks up (see Phrasing.NumsIndex for the overrun as written).
   */
  const Words: seq<string> := Nums + ["einezwänzg"]

  /** The two-line hour word shown at midnight, and the word for noon. */
  const Midnight := "mittär-\nnacht"
  const Noon := "mittag"

  /** `min_string`: a raw index into the table; only entry 0 is empty. */
  function MinString(i: int): (r: string)
    requires 0 <= i < |Words|
    ensures r == "" <==> i == 0
    ensures r != Midnight && r != Noon
  {
    Words[i]
  }

  /**
   * `hour_string` for an hour that may already carry one past 23 (there is
   * no wrap): midnight only at 0, noon only at 12, never an empty word.
   */
  function HourString(h: int): (r: string)
    requires 0 <= h <= 24
    ensures r != ""
    ensures r == Midnight <==> h == 0
    ensures r == Noon <==> h == 12
    ensures h != 0 && h != 12 ==> r in Words[1..13]
  {
    if h == 0 then Midnight
    else if h == 12 then Noon
    else if h < 12 then MinString(h)
    else MinString(h - 12)
  }

  /** The first index at or after `i` (and from 1 on) whose word is `w`. */
  function Find(w: string, i: nat): (r: Option<nat>)
    requires 1 <= i <= |Words|
    ensures r.Some? ==> i <= r.value < |Words| && Words[r.value] == w
    ensures r.None? ==> forall k :: i <= k < |Words| ==> Words[k] != w
    decreases |Words| - i
  {
    if i == |Words| then None
    else if Words[i] == w then Some(i)
    else Find(w, i + 1)
  }

  /** Reads a number word back to its value; the inverse of `MinString`. */
  function IndexOf(w: string): (r: Option<nat>)
    ensures r.Some? ==> 1 <= r.value < |Words| && MinString(r.value) == w
    ensures r.None? ==> w !in Words[1..]
  {
    Find(w, 1)
  }

  /** No two entries of the table are the same word. */
  lemma WordsDistinct()
    ensures forall i, j :: 0 <= i < j < |Words| ==> Words[i] != Words[j]
  {
  }

  /** Every non-empty number word reads back to its own index. */
  lemma IndexOfMinString(k: int)
    requires 1 <= k < |Words|
    ensures IndexOf(MinString(k)) == Some(k)
  {
  }
}
