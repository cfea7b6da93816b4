/**
  The score store and the aggregation behind the form: seeding the store with
  0 for every KPI, replacing one score, the per-category figures (raw sum,
  weighted score, maximum potential, percentage), the total and the rank
  chosen by a top-down threshold cascade. Averages, percentages and totals
  are exact reals.
 */
module Scoring {
  import opened Types
  import opened Constants

  // ---------------------------------------------------------------------------
  // Reading the store

  /** The store holds an entry for this category and KPI. */
  predicate Defined(s: Store, catId: string, kpiId: string) {
    catId in s && kpiId in s[catId]
  }

  /** A score as the aggregation reads it: a missing entry counts as 0. */
  function Lookup(s: Store, catId: string, kpiId: string): int {
    if Defined(s, catId, kpiId) then s[catId][kpiId] else 0
  }

  /** Every stored score is one of 0, 1, 2, 3. */
  predicate ScoresInRange(s: Store) {
    forall c :: c in s ==> forall k :: k in s[c] ==> 0 <= s[c][k] <= 3
  }

  /** Every (category, KPI) pair of the schema has an entry. */
  predicate Complete(s: Store, cats: seq<Category>) {
    forall i, j :: 0 <= i < |cats| && 0 <= j < |cats[i].kpis| ==> Defined(s, cats[i].id, cats[i].kpis[j].id)
  }

  lemma LookupInRange(s: Store, catId: string, kpiId: string)
    requires ScoresInRange(s)
    ensures 0 <= Lookup(s, catId, kpiId) <= 3
  {
  }

  // ---------------------------------------------------------------------------
  // Seeding the store

  /** The row of one category in a fresh store: 0 for each of its KPIs. */
  function ZeroRow(kpis: seq<KPI>): map<string, int> {
    if kpis == [] then map[] else ZeroRow(kpis[..|kpis| - 1])[kpis[|kpis| - 1].id := 0]
  }

  /** The fresh store: one zero row per category, filled category by category. */
  function Seed(cats: seq<Category>): Store {
    if cats == [] then map[] else Seed(cats[..|cats| - 1])[cats[|cats| - 1].id := ZeroRow(cats[|cats| - 1].kpis)]
  }

  function KpiIds(kpis: seq<KPI>): set<string> {
    set k | k in kpis :: k.id
  }

  function CategoryIds(cats: seq<Category>): set<string> {
    set c | c in cats :: c.id
  }

  /** Fills the store with nested loops over the categories and their KPIs. */
  method InitialScores(cats: seq<Category>) returns (m: Store)
    ensures m == Seed(cats)
  {
    m := map[];
    var i := 0;
    while i < |cats|
      invariant 0 <= i <= |cats|
      invariant m == Seed(cats[..i])
    {
      var cat := cats[i];
      assert cats[..i + 1][..i] == cats[..i];
      m := m[cat.id := map[]];
      var j := 0;
      while j < |cat.kpis|
        invariant 0 <= j <= |cat.kpis|
        invariant m == Seed(cats[..i])[cat.id := ZeroRow(cat.kpis[..j])]
      {
        assert cat.kpis[..j + 1][..j] == cat.kpis[..j];
        m := m[cat.id := m[cat.id][cat.kpis[j].id := 0]];
        j := j + 1;
      }
      assert cat.kpis[..j] == cat.kpis;
      i := i + 1;
    }
    assert cats[..i] == cats;
  }

  /** A zero row has exactly the category's KPI ids as keys, all mapped to 0. */
  lemma {:induction false} ZeroRowShape(kpis: seq<KPI>)
    ensures ZeroRow(kpis).Keys == KpiIds(kpis)
    ensures forall k :: k in ZeroRow(kpis) ==> ZeroRow(kpis)[k] == 0
  {
    if kpis != [] {
      var init := kpis[..|kpis| - 1];
      ZeroRowShape(init);
      assert kpis == init + [kpis[|kpis| - 1]];
      assert KpiIds(kpis) == KpiIds(init) + {kpis[|kpis| - 1].id};
    }
  }

  /** With distinct category ids, the seed holds exactly one zero row per category. */
  lemma {:induction false} SeedShape(cats: seq<Category>)
    requires DistinctCategoryIds(cats)
    ensures Seed(cats).Keys == CategoryIds(cats)
    ensures forall i :: 0 <= i < |cats| ==> Seed(cats)[cats[i].id] == ZeroRow(cats[i].kpis)
  {
    if cats != [] {
      var init := cats[..|cats| - 1];
      var last := cats[|cats| - 1];
      SeedShape(init);
      assert cats == init + [last];
      assert CategoryIds(cats) == CategoryIds(init) + {last.id};
      forall i | 0 <= i < |cats| ensures Seed(cats)[cats[i].id] == ZeroRow(cats[i].kpis) {
        if i < |cats| - 1 {
          assert cats[i] == init[i];
          assert cats[i].id != last.id;
        }
      }
    }
  }

  /** The seed has an entry for every KPI of the schema and no other entry, every entry 0. */
  lemma SeedIsZeroAndComplete(cats: seq<Category>)
    requires DistinctCategoryIds(cats)
    ensures Complete(Seed(cats), cats)
    ensures ScoresInRange(Seed(cats))
    ensures Seed(cats).Keys == CategoryIds(cats)
    ensures forall i :: 0 <= i < |cats| ==> Seed(cats)[cats[i].id].Keys == KpiIds(cats[i].kpis)
    ensures forall c, k :: Defined(Seed(cats), c, k) ==> Seed(cats)[c][k] == 0
  {
    SeedShape(cats);
    forall i | 0 <= i < |cats| ensures ZeroRow(cats[i].kpis).Keys == KpiIds(cats[i].kpis) {
      ZeroRowShape(cats[i].kpis);
    }
    forall c | c in Seed(cats) ensures forall k :: k in Seed(cats)[c] ==> Seed(cats)[c][k] == 0 {
      var i :| 0 <= i < |cats| && cats[i].id == c;
      ZeroRowShape(cats[i].kpis);
    }
    forall i, j | 0 <= i < |cats| && 0 <= j < |cats[i].kpis|
      ensures Defined(Seed(cats), cats[i].id, cats[i].kpis[j].id)
    {
      ZeroRowShape(cats[i].kpis);
      assert cats[i].kpis[j] in cats[i].kpis;
    }
  }

  /** The page's seeded store is in range and complete. */
  lemma InitialStoreValid(s: Store)
    requires s == Seed(Categories)
    ensures ScoresInRange(s) && Complete(s, Categories)
  {
    CategoryIdsDistinct();
    SeedIsZeroAndComplete(Categories);
  }

  // ---------------------------------------------------------------------------
  // Changing one score

  /** `{...prev, [catId]: {...prev[catId], [kpiId]: v}}`. */
  function SetScore(s: Store, catId: string, kpiId: string, v: int): (r: Store)
    ensures Lookup(r, catId, kpiId) == v
    ensures r.Keys == s.Keys + {catId}
    ensures forall c :: c in s && c != catId ==> r[c] == s[c]
    ensures catId in s ==> r[catId].Keys == s[catId].Keys + {kpiId}
    ensures catId in s ==> forall k :: k in s[catId] && k != kpiId ==> r[catId][k] == s[catId][k]
    ensures catId !in s ==> r[catId].Keys == {kpiId}
  {
    var row := if catId in s then s[catId] else map[];
    s[catId := row[kpiId := v]]
  }

  /** Changing one score leaves every other score, as the aggregation reads it, unchanged. */
  lemma SetScoreFrame(s: Store, catId: string, kpiId: string, v: int, c: string, k: string)
    requires c != catId || k != kpiId
    ensures Lookup(SetScore(s, catId, kpiId, v), c, k) == Lookup(s, c, k)
    ensures Defined(SetScore(s, catId, kpiId, v), c, k) <==> Defined(s, c, k)
  {
  }

  /** A score from the scale keeps the store within range, and no entry is ever lost. */
  lemma SetScorePreserves(s: Store, cats: seq<Category>, catId: string, kpiId: string, v: int)
    requires 0 <= v <= 3
    ensures ScoresInRange(s) ==> ScoresInRange(SetScore(s, catId, kpiId, v))
    ensures Complete(s, cats) ==> Complete(SetScore(s, catId, kpiId, v), cats)
  {
    var r := SetScore(s, catId, kpiId, v);
    if Complete(s, cats) {
      forall i, j | 0 <= i < |cats| && 0 <= j < |cats[i].kpis|
        ensures Defined(r, cats[i].id, cats[i].kpis[j].id)
      {
        if cats[i].id != catId || cats[i].kpis[j].id != kpiId {
          SetScoreFrame(s, catId, kpiId, v, cats[i].id, cats[i].kpis[j].id);
        }
      }
    }
  }

  // ---------------------------------------------------------------------------
  // Aggregation

  /** `cat.kpis.reduce((sum, kpi) => sum + score, 0)`. */
  function RawSum(s: Store, catId: string, kpis: seq<KPI>): (r: int)
    ensures ScoresInRange(s) ==> 0 <= r <= 3 * |kpis|
  {
    if kpis == [] then 0
    else RawSum(s, catId, kpis[..|kpis| - 1]) + Lookup(s, catId, kpis[|kpis| - 1].id)
  }

  /** When every KPI of a category reads `v`, the raw sum is `v` times the KPI count. */
  lemma {:induction false} RawSumUniform(s: Store, catId: string, kpis: seq<KPI>, v: int)
    requires forall j :: 0 <= j < |kpis| ==> Lookup(s, catId, kpis[j].id) == v
    ensures RawSum(s, catId, kpis) == v * |kpis|
  {
    if kpis != [] {
      RawSumUniform(s, catId, kpis[..|kpis| - 1], v);
    }
  }

  /** The figures of one category; `percentage` is 0 and the average 0 for a category without KPIs. */
  function ScoreCategory(s: Store, cat: Category): (r: CategoryScore)
    ensures r.id == cat.id && r.title == cat.title
    ensures r.maxPotential == 3 * cat.weight
  {
    var raw := RawSum(s, cat.id, cat.kpis);
    var kpiCount := |cat.kpis|;
    var maxRawScore := kpiCount * 3;
    var average: real := if kpiCount > 0 then raw as real / kpiCount as real else 0.0;
    var weighted := average * cat.weight as real;
    var percentage: real := if maxRawScore > 0 then (raw as real / maxRawScore as real) * 100.0 else 0.0;
    CategoryScore(cat.id, cat.title, weighted, 3 * cat.weight, percentage)
  }

  /** The weighted score is the percentage's share of the maximum potential. */
  lemma WeightedIsShareOfPotential(s: Store, cat: Category)
    ensures ScoreCategory(s, cat).score
            == ScoreCategory(s, cat).percentage / 100.0 * ScoreCategory(s, cat).maxPotential as real
  {
    var raw := RawSum(s, cat.id, cat.kpis) as real;
    var w := cat.weight as real;
    if |cat.kpis| > 0 {
      var k := |cat.kpis| as real;
      var avg := raw / k;
      assert ScoreCategory(s, cat).score == avg * w;
      assert ScoreCategory(s, cat).percentage == (raw / (3.0 * k)) * 100.0;
      assert raw / (3.0 * k) == avg / 3.0;
      assert (avg / 3.0) * 100.0 / 100.0 == avg / 3.0;
      assert avg / 3.0 * (3.0 * w) == avg * w;
    }
  }

  /** A quotient of a non-negative number by a larger positive one lies in [0, 1]. */
  lemma FractionBounds(a: real, b: real)
    requires 0.0 <= a <= b && 0.0 < b
    ensures 0.0 <= a / b <= 1.0
  {
  }

  /** For `0 <= p <= 1` and `m >= 0`, the product `p * m` lies in `[0, m]`. */
  lemma ShareBounds(p: real, m: real)
    requires 0.0 <= p <= 1.0 && 0.0 <= m
    ensures 0.0 <= p * m <= m
  {
    assert m - p * m == (1.0 - p) * m;
  }

  /** With scores in 0..3 the percentage lies in [0, 100] and the weighted score in [0, maxPotential]. */
  lemma CategoryScoreBounds(s: Store, cat: Category)
    requires ScoresInRange(s)
    requires cat.weight >= 0
    ensures 0.0 <= ScoreCategory(s, cat).percentage <= 100.0
    ensures 0.0 <= ScoreCategory(s, cat).score <= ScoreCategory(s, cat).maxPotential as real
  {
    WeightedIsShareOfPotential(s, cat);
    var r := ScoreCategory(s, cat);
    var raw := RawSum(s, cat.id, cat.kpis);
    var k := |cat.kpis|;
    if k > 0 {
      var q := raw as real / (k * 3) as real;
      FractionBounds(raw as real, (k * 3) as real);
      ShareBounds(q, 100.0);
      assert r.percentage == q * 100.0;
    }
    ShareBounds(r.percentage / 100.0, r.maxPotential as real);
  }

  /** The weighted score of a category with KPIs: the raw average times the weight. */
  lemma ScoreOfNonEmpty(s: Store, cat: Category)
    requires |cat.kpis| > 0
    ensures ScoreCategory(s, cat).score == RawSum(s, cat.id, cat.kpis) as real / |cat.kpis| as real * cat.weight as real
  {
  }

  /** The percentage of a category with KPIs: the raw sum over three times the KPI count, times 100. */
  lemma PercentageOfNonEmpty(s: Store, cat: Category)
    requires |cat.kpis| > 0
    ensures ScoreCategory(s, cat).percentage == RawSum(s, cat.id, cat.kpis) as real / (|cat.kpis| * 3) as real * 100.0
  {
  }

  /** When every KPI of a non-empty category reads `v`, the weighted score is `v` times the weight. */
  lemma ScoreCategoryUniform(s: Store, cat: Category, v: int)
    requires |cat.kpis| > 0
    requires forall j :: 0 <= j < |cat.kpis| ==> Lookup(s, cat.id, cat.kpis[j].id) == v
    ensures ScoreCategory(s, cat).score == (v * cat.weight) as real
  {
    RawSumUniform(s, cat.id, cat.kpis, v);
    ScoreOfNonEmpty(s, cat);
    UniformAverage(v, |cat.kpis|, cat.weight, RawSum(s, cat.id, cat.kpis));
  }

  /** `(v * n) / n * w == v * w` for a positive `n`. */
  lemma UniformAverage(v: int, n: int, w: int, raw: int)
    requires n > 0 && raw == v * n
    ensures raw as real / n as real * w as real == (v * w) as real
  {
    var k := n as real;
    assert raw as real == v as real * k;
    assert v as real * k / k == v as real;
  }

  /** When every KPI of a non-empty category reads `v`, the percentage is `v` thirds of 100. */
  lemma ScoreCategoryUniformPercentage(s: Store, cat: Category, v: int)
    requires |cat.kpis| > 0
    requires forall j :: 0 <= j < |cat.kpis| ==> Lookup(s, cat.id, cat.kpis[j].id) == v
    ensures ScoreCategory(s, cat).percentage == v as real * 100.0 / 3.0
  {
    RawSumUniform(s, cat.id, cat.kpis, v);
    PercentageOfNonEmpty(s, cat);
    UniformShare(v, |cat.kpis|, RawSum(s, cat.id, cat.kpis));
  }

  /** `(v * n) / (3 * n) == v / 3` for a positive `n`. */
  lemma UniformShare(v: int, n: int, raw: int)
    requires n > 0 && raw == v * n
    ensures raw as real / (n * 3) as real * 100.0 == v as real * 100.0 / 3.0
  {
    var k := n as real;
    assert raw as real == v as real * k;
    assert (n * 3) as real == 3.0 * k;
    assert v as real * k / (3.0 * k) == v as real / 3.0;
  }

  /** `CATEGORIES.map(...)`: one result per category, in schema order. */
  function CategoryScores(s: Store, cats: seq<Category>): (r: seq<CategoryScore>)
    ensures |r| == |cats|
    ensures forall i :: 0 <= i < |cats| ==> r[i] == ScoreCategory(s, cats[i])
  {
    if cats == [] then [] else CategoryScores(s, cats[..|cats| - 1]) + [ScoreCategory(s, cats[|cats| - 1])]
  }

  /** The running `totalScore += weightedScore`. */
  function TotalOf(cs: seq<CategoryScore>): real {
    if cs == [] then 0.0 else TotalOf(cs[..|cs| - 1]) + cs[|cs| - 1].score
  }

  /** The top-down cascade: TOP, else GOOD, else CRITICAL, else FAILED, each inclusive of its minimum. */
  function RankOf(total: real): (r: Rank)
    ensures r == TOP <==> 240.0 <= total
    ensures r == GOOD <==> 180.0 <= total < 240.0
    ensures r == CRITICAL <==> 120.0 <= total < 180.0
    ensures r == FAILED <==> total < 120.0
  {
    if total >= RankingConfig(TOP).min as real then TOP
    else if total >= RankingConfig(GOOD).min as real then GOOD
    else if total >= RankingConfig(CRITICAL).min as real then CRITICAL
    else FAILED
  }

  /** Tiers ordered from worst to best. */
  function Level(r: Rank): nat {
    match r
    case FAILED => 0
    case CRITICAL => 1
    case GOOD => 2
    case TOP => 3
  }

  function Assess(s: Store, cats: seq<Category>): AssessmentResult {
    var cs := CategoryScores(s, cats);
    var total := TotalOf(cs);
    AssessmentResult(total, MaxScore, RankOf(total), cs)
  }

  /** What the form shows for a store: the assessment over the fixed schema. */
  function Result(s: Store): AssessmentResult {
    Assess(s, Categories)
  }

  /** Scoring one more category of the prefix appends its result. */
  lemma CategoryScoresStep(s: Store, cats: seq<Category>, i: int)
    requires 0 <= i < |cats|
    ensures CategoryScores(s, cats[..i + 1]) == CategoryScores(s, cats[..i]) + [ScoreCategory(s, cats[i])]
  {
    assert cats[..i + 1][..i] == cats[..i];
  }

  /** Appending a result adds its weighted score to the total. */
  lemma TotalOfAppend(cs: seq<CategoryScore>, c: CategoryScore)
    ensures TotalOf(cs + [c]) == TotalOf(cs) + c.score
  {
    assert (cs + [c])[..|cs|] == cs;
  }

  /** The `useMemo` body: one pass over the categories, then the rank cascade on the total. */
  method ComputeResult(s: Store, cats: seq<Category>) returns (r: AssessmentResult)
    ensures r == Assess(s, cats)
    ensures |r.categoryScores| == |cats|
    ensures forall i :: 0 <= i < |cats| ==> r.categoryScores[i].id == cats[i].id
  {
    var categoryScores, totalScore := ScoreAll(s, cats);
    var rank := DetermineRank(totalScore);
    r := AssessmentResult(totalScore, MaxScore, rank, categoryScores);
  }

  /** The `CATEGORIES.map` callback run over every category, accumulating `totalScore`. */
  method ScoreAll(s: Store, cats: seq<Category>) returns (categoryScores: seq<CategoryScore>, totalScore: real)
    ensures categoryScores == CategoryScores(s, cats)
    ensures totalScore == TotalOf(categoryScores)
  {
    totalScore := 0.0;
    categoryScores := [];
    var i := 0;
    while i < |cats|
      invariant 0 <= i <= |cats|
      invariant categoryScores == CategoryScores(s, cats[..i])
      invariant totalScore == TotalOf(categoryScores)
    {
      var c := ScoreCategory(s, cats[i]);
      CategoryScoresStep(s, cats, i);
      TotalOfAppend(categoryScores, c);
      totalScore := totalScore + c.score;
      categoryScores := categoryScores + [c];
      i := i + 1;
    }
    assert cats[..i] == cats;
  }

  /** The `let rank` cascade: start at FAILED and upgrade at the first minimum the total reaches, from the top. */
  method DetermineRank(totalScore: real) returns (rank: Rank)
    ensures rank == RankOf(totalScore)
  {
    rank := FAILED;
    if totalScore >= RankingConfig(TOP).min as real {
      rank := TOP;
    } else if totalScore >= RankingConfig(GOOD).min as real {
      rank := GOOD;
    } else if totalScore >= RankingConfig(CRITICAL).min as real {
      rank := CRITICAL;
    }
  }

  // ---------------------------------------------------------------------------
  // Properties of the aggregation

  /** With scores in 0..3 and non-negative weights, the total lies between 0 and 3 times the weight sum. */
  lemma {:induction false} TotalBounds(s: Store, cats: seq<Category>)
    requires ScoresInRange(s)
    requires forall i :: 0 <= i < |cats| ==> cats[i].weight >= 0
    ensures 0.0 <= TotalOf(CategoryScores(s, cats)) <= (3 * SumWeights(cats)) as real
  {
    if cats != [] {
      var init := cats[..|cats| - 1];
      TotalBounds(s, init);
      CategoryScoreBounds(s, cats[|cats| - 1]);
      TotalOfSnoc(s, cats);
    }
  }

  /** The total over one more category adds that category's weighted score. */
  lemma TotalOfSnoc(s: Store, cats: seq<Category>)
    requires cats != []
    ensures TotalOf(CategoryScores(s, cats))
            == TotalOf(CategoryScores(s, cats[..|cats| - 1])) + ScoreCategory(s, cats[|cats| - 1]).score
  {
    var xs := CategoryScores(s, cats[..|cats| - 1]);
    var ys := CategoryScores(s, cats);
    assert ys == xs + [ScoreCategory(s, cats[|cats| - 1])];
    assert ys[..|ys| - 1] == xs;
  }

  /** When every KPI of the schema reads `v`, the total is `v` times the weight sum. */
  lemma {:induction false} UniformTotal(s: Store, cats: seq<Category>, v: int)
    requires forall i :: 0 <= i < |cats| ==> |cats[i].kpis| > 0
    requires forall i, j :: 0 <= i < |cats| && 0 <= j < |cats[i].kpis| ==> Lookup(s, cats[i].id, cats[i].kpis[j].id) == v
    ensures TotalOf(CategoryScores(s, cats)) == (v * SumWeights(cats)) as real
  {
    if cats != [] {
      var init := cats[..|cats| - 1];
      var last := cats[|cats| - 1];
      assert forall i :: 0 <= i < |init| ==> init[i] == cats[i];
      UniformTotal(s, init, v);
      ScoreCategoryUniform(s, last, v);
      var cs := CategoryScores(s, cats);
      assert cs == CategoryScores(s, init) + [ScoreCategory(s, last)];
      assert cs[..|cs| - 1] == CategoryScores(s, init);
      TotalStep(cs, v, SumWeights(init), last.weight, SumWeights(cats));
    }
  }

  /** The last category result, worth `v * b`, adds to a prefix worth `v * a`. */
  lemma TotalStep(cs: seq<CategoryScore>, v: int, a: int, b: int, sum: int)
    requires cs != [] && sum == a + b
    requires TotalOf(cs[..|cs| - 1]) == (v * a) as real
    requires cs[|cs| - 1].score == (v * b) as real
    ensures TotalOf(cs) == (v * sum) as real
  {
    var p, q := v * a, v * b;
    calc {
      v * sum;
      v * (a + b);
      { Distribute(v, a, b); }
      p + q;
    }
    assert TotalOf(cs) == TotalOf(cs[..|cs| - 1]) + cs[|cs| - 1].score;
    assert p as real + q as real == (p + q) as real;
  }

  lemma Distribute(v: int, a: int, b: int)
    ensures v * (a + b) == v * a + v * b
  {
  }

  /** The rank never drops when the total grows. */
  lemma RankMonotone(a: real, b: real)
    requires a <= b
    ensures Level(RankOf(a)) <= Level(RankOf(b))
  {
  }

  /** The cascade's boundaries are inclusive lower bounds. */
  lemma RankBoundaries()
    ensures RankOf(240.0) == TOP && RankOf(239.999) == GOOD
    ensures RankOf(180.0) == GOOD && RankOf(179.999) == CRITICAL
    ensures RankOf(120.0) == CRITICAL && RankOf(119.999) == FAILED
    ensures RankOf(0.0) == FAILED
  {
  }

  /**
    The cascade agrees with the rank table: a total lies between the chosen
    tier's minimum and the next tier's minimum, and an integer total lies in
    the chosen tier's [min, max] range.
   */
  lemma RankMatchesTable(total: real)
    requires 0.0 <= total <= MaxScore as real
    ensures RankingConfig(RankOf(total)).min as real <= total
    ensures total < RankingConfig(RankOf(total)).max as real + 1.0
    ensures total == total.Floor as real ==> total <= RankingConfig(RankOf(total)).max as real
  {
  }

  /** Every category result is within bounds and the total lies in 0..300. */
  lemma ResultBounds(s: Store)
    requires ScoresInRange(s)
    ensures |Result(s).categoryScores| == |Categories|
    ensures forall i :: 0 <= i < |Categories| ==> Result(s).categoryScores[i].id == Categories[i].id
    ensures forall i :: 0 <= i < |Categories| ==>
              0.0 <= Result(s).categoryScores[i].percentage <= 100.0 &&
              0.0 <= Result(s).categoryScores[i].score <= Result(s).categoryScores[i].maxPotential as real
    ensures 0.0 <= Result(s).totalScore <= Result(s).maxScore as real
  {
    WeightsNonNegative();
    WeightsSumTo100();
    TotalBounds(s, Categories);
    forall i | 0 <= i < |Categories|
      ensures 0.0 <= Result(s).categoryScores[i].percentage <= 100.0
      ensures 0.0 <= Result(s).categoryScores[i].score <= Result(s).categoryScores[i].maxPotential as real
    {
      CategoryScoreBounds(s, Categories[i]);
    }
  }

  /** Over any schema with distinct category ids, the fresh store totals 0. */
  lemma SeedTotalsZero(cats: seq<Category>)
    requires DistinctCategoryIds(cats)
    requires forall i :: 0 <= i < |cats| ==> |cats[i].kpis| > 0
    ensures TotalOf(CategoryScores(Seed(cats), cats)) == 0.0
    ensures Assess(Seed(cats), cats).totalScore == 0.0 && Assess(Seed(cats), cats).rank == FAILED
  {
    var s := Seed(cats);
    SeedIsZeroAndComplete(cats);
    forall i, j | 0 <= i < |cats| && 0 <= j < |cats[i].kpis|
      ensures Lookup(s, cats[i].id, cats[i].kpis[j].id) == 0
    {
      assert Defined(s, cats[i].id, cats[i].kpis[j].id);
    }
    UniformTotal(s, cats, 0);
  }

  /** The fresh store scores 0 and ranks FAILED. */
  lemma InitialResult()
    ensures Result(Seed(Categories)).totalScore == 0.0
    ensures Result(Seed(Categories)).rank == FAILED
  {
    SchemaWellFormed();
    SeedTotalsZero(Categories);
  }

  /** A store with every KPI of the schema at 3 scores the maximum 300 and ranks TOP. */
  lemma PerfectResult(s: Store)
    requires forall i, j :: 0 <= i < |Categories| && 0 <= j < |Categories[i].kpis| ==>
               Lookup(s, Categories[i].id, Categories[i].kpis[j].id) == 3
    ensures Result(s).totalScore == MaxScore as real
    ensures Result(s).rank == TOP
  {
    KpiCounts();
    WeightsSumTo100();
    UniformTotal(s, Categories, 3);
  }
}
