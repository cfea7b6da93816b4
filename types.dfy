/**
  Shapes of the scoring form's data: the static schema (categories and their
  KPIs), the score store, the rank tiers and the derived assessment result.
 */
module Types {

  datatype Option<T> = None | Some(value: T)

  /** One criterion of a category, scored 0..3 by the assessor. */
  datatype KPI = KPI(id: string, text: string)

  /** A weighted category; `weight` is in percentage points. */
  datatype Category = Category(id: string, title: string, weight: int, kpis: seq<KPI>)

  /** The score store: category id -> KPI id -> score. */
  type Store = map<string, map<string, int>>

  datatype Rank = TOP | GOOD | CRITICAL | FAILED

  /** What the aggregation reports for one category. */
  datatype CategoryScore = CategoryScore(
    id: string,
    title: string,
    score: real,        // the weighted score of the category
    maxPotential: int,  // the largest weighted score the category can reach
    percentage: real)

  datatype AssessmentResult = AssessmentResult(
    totalScore: real,
    maxScore: int,
    rank: Rank,
    categoryScores: seq<CategoryScore>)
}
