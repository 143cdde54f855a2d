/** Shared shapes of the `_assess_*` helpers: an integer score built from
  * non-negative increments, capped by `min(score, 10)`, and a three-way
  * category chosen by two thresholds. */
module Scoring {
  import opened Records

  /** The three categories of a helper's verdict, from the mildest up; each
    * helper attaches its own wording to them (see `Labels`). */
  datatype Band = Lower | Middle | Upper

  /** The wording a helper uses for its three bands. */
  datatype Labels = Labels(lower: string, middle: string, upper: string)

  function Caption(labels: Labels, band: Band): string
  {
    match band
    case Lower => labels.lower
    case Middle => labels.middle
    case Upper => labels.upper
  }

  /** `upper if x >= top else middle if x >= mid else lower`. */
  function BandOf(x: real, mid: real, top: real): (b: Band)
    requires mid <= top
    ensures b == Upper <==> x >= top
    ensures b == Lower <==> x < mid
    ensures b == Middle <==> mid <= x < top
  {
    if x >= top then Upper else if x >= mid then Middle else Lower
  }

  /** A band never drops when the score grows. */
  lemma BandMonotone(x: real, y: real, mid: real, top: real)
    requires mid <= top && x <= y
    ensures BandOf(x, mid, top) == Upper ==> BandOf(y, mid, top) == Upper
    ensures BandOf(y, mid, top) == Lower ==> BandOf(x, mid, top) == Lower
  {
  }

  /** `min(score, 10)`. */
  function Capped(raw: int): (s: int)
    ensures raw >= 0 ==> 0 <= s <= 10
    ensures s == raw <==> raw <= 10
    ensures s < raw <==> raw > 10
  {
    MinInt(raw, 10)
  }

  /** The helpers choose their category from the uncapped score; with both
    * thresholds at most 10 the capped score would give the same category. */
  lemma CapKeepsBand(raw: int, mid: real, top: real)
    requires mid <= top <= 10.0
    ensures BandOf(raw as real, mid, top) == BandOf(Capped(raw) as real, mid, top)
  {
  }

  /** What one `if`/`elif` ladder of a helper contributes: the points it adds
    * to `score` and the notes it appends. A helper's tally adds the points and
    * concatenates the notes of its ladders in source order. */
  datatype Step<N> = Step(points: int, notes: seq<N>)

  /** The result of an accumulating helper: the capped score, the notes it
    * appended (in order) and the category of its raw score. */
  datatype Assessment<N> = Assessment(score: int, notes: seq<N>, band: Band)

  /** The common risk wording of the lifestyle helpers ("Low", "Medium",
    * "High", "Very High"). */
  datatype Level = Low | Medium | High | VeryHigh

  /** `"High" if score >= top else "Medium" if score >= mid else "Low"`. */
  function LevelOf(score: int, mid: int, top: int): (l: Level)
    requires mid <= top
    ensures l != VeryHigh
    ensures l == High <==> score >= top
    ensures l == Low <==> score < mid
  {
    if score >= top then High else if score >= mid then Medium else Low
  }

  /** A lifestyle helper's verdict: its level and the notes it appended. */
  datatype Impact<N> = Impact(level: Level, notes: seq<N>)
}
