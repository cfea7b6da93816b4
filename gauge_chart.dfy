/**
  The numbers behind the semicircular gauge of the total score: the clamped
  proportion, the two pie slices, the colour band and the rounded score shown
  in the centre label and in the accessible label.
 */
module GaugeChart {
  import opened Types
  import opened Scoring
  import opened JsText
  import opened Palette

  /** `Math.min(Math.max(score / max, 0), 1)`. */
  function Percentage(score: real, max: int): (p: real)
    requires max > 0
    ensures 0.0 <= p <= 1.0
    ensures 0.0 <= score <= max as real ==> p == score / max as real
    ensures score <= 0.0 ==> p == 0.0
    ensures score >= max as real ==> p == 1.0
  {
    var q := score / max as real;
    assert q * max as real == score;
    Min(Max(q, 0.0), 1.0)
  }

  datatype Slice = Slice(name: string, value: real)

  /** The filled slice is the score and the grey slice the rest, so together they make `max`. */
  function GaugeData(score: real, max: int): (r: seq<Slice>)
    ensures |r| == 2 && r[0].name == "Score" && r[1].name == "Remaining"
    ensures r[0].value == score
    ensures r[0].value + r[1].value == max as real
  {
    [Slice("Score", score), Slice("Remaining", max as real - score)]
  }

  /** Red, then each guarded assignment overrides the colour chosen before it. */
  function GaugeColor(score: real): (c: string)
    ensures score < 120.0 ==> c == Red
    ensures 120.0 <= score < 180.0 ==> c == Amber
    ensures 180.0 <= score < 240.0 ==> c == Blue
    ensures 240.0 <= score ==> c == Emerald
  {
    var c0 := Red;
    var c1 := if score >= 120.0 then Amber else c0;
    var c2 := if score >= 180.0 then Blue else c1;
    var c3 := if score >= 240.0 then Emerald else c2;
    c3
  }

  /** The gauge colour of each rank tier. */
  function TierColor(r: Rank): string {
    match r
    case TOP => Emerald
    case GOOD => Blue
    case CRITICAL => Amber
    case FAILED => Red
  }

  /** The colour bands start exactly at the tier minimums, so the gauge colour is the tier's colour. */
  lemma GaugeColorMatchesRank(total: real)
    ensures GaugeColor(total) == TierColor(RankOf(total))
  {
  }

  /** Distinct tiers get distinct gauge colours. */
  lemma TierColorsDistinct(a: Rank, b: Rank)
    requires a != b
    ensures TierColor(a) != TierColor(b)
  {
  }

  const AriaPrefix := "Tachometerdiagramm: Aktueller Punktestand ist "

  /** The big number in the middle of the gauge. */
  function CenterLabel(score: real): string {
    IntText(Round(score))
  }

  function AriaLabel(score: real, max: int): string {
    AriaPrefix + IntText(Round(score)) + " von " + IntText(max) + " möglichen Punkten."
  }

  /** Both labels show the same rounded score, and it reads back as that number. */
  lemma LabelsShowRoundedScore(score: real, max: int)
    ensures ParseInt(CenterLabel(score)) == Some(Round(score))
    ensures |AriaPrefix| + |CenterLabel(score)| <= |AriaLabel(score, max)|
    ensures AriaLabel(score, max)[|AriaPrefix|..|AriaPrefix| + |CenterLabel(score)|] == CenterLabel(score)
  {
    IntTextRoundTrip(Round(score));
    var t := CenterLabel(score);
    var rest := " von " + IntText(max) + " möglichen Punkten.";
    assert AriaLabel(score, max) == AriaPrefix + t + rest;
  }

  /** For a store with scores in range, the gauge shows a proportion of 300 and a centre number in 0..300. */
  lemma GaugeOfResult(s: Store)
    requires ScoresInRange(s)
    ensures Percentage(Result(s).totalScore, Result(s).maxScore) == Result(s).totalScore / 300.0
    ensures 0 <= Round(Result(s).totalScore) <= 300
    ensures GaugeData(Result(s).totalScore, Result(s).maxScore)[1].value >= 0.0
  {
    ResultBounds(s);
    RoundWithin(Result(s).totalScore, 0, 300);
  }
}
