/**
  What one category section derives from the store: how many of its KPIs are
  answered, whether it is complete, the data of its bar chart, the bar colour
  of a score, the feedback badge of a KPI row, and the score changes its
  buttons can request.
 */
module CategorySection {
  import opened Types
  import opened Constants
  import opened Scoring
  import opened Palette

  // ---------------------------------------------------------------------------
  // Completion

  /** `kpis.reduce((acc, kpi) => acc + (entry defined ? 1 : 0), 0)`. */
  function CountAnswered(s: Store, catId: string, kpis: seq<KPI>): (n: nat)
    ensures n <= |kpis|
    ensures n == |AnsweredPositions(s, catId, kpis)|
    ensures n == |kpis| <==> forall j :: 0 <= j < |kpis| ==> Defined(s, catId, kpis[j].id)
  {
    if kpis == [] then 0
    else
      var init := kpis[..|kpis| - 1];
      var last := |kpis| - 1;
      assert AnsweredPositions(s, catId, kpis)
             == AnsweredPositions(s, catId, init) + (if Defined(s, catId, kpis[last].id) then {last} else {});
      CountAnswered(s, catId, init) + (if Defined(s, catId, kpis[last].id) then 1 else 0)
  }

  /** The positions of the KPIs whose entry is present. */
  function AnsweredPositions(s: Store, catId: string, kpis: seq<KPI>): set<int> {
    set j | 0 <= j < |kpis| && Defined(s, catId, kpis[j].id)
  }

  /** The `answeredCount` a section shows: `CountAnswered` over its category's KPIs. */
  function SectionAnsweredCount(s: Store, cat: Category): nat {
    CountAnswered(s, cat.id, cat.kpis)
  }

  predicate IsComplete(s: Store, cat: Category) {
    SectionAnsweredCount(s, cat) == |cat.kpis|
  }

  /** A store with every schema entry present shows every section as complete. */
  lemma CompleteStoreCompletesSections(s: Store, cats: seq<Category>)
    requires Complete(s, cats)
    ensures forall i :: 0 <= i < |cats| ==> IsComplete(s, cats[i])
  {
    forall i | 0 <= i < |cats| ensures IsComplete(s, cats[i]) {
      assert forall j :: 0 <= j < |cats[i].kpis| ==> Defined(s, cats[i].id, cats[i].kpis[j].id);
    }
  }

  /** Every section of the freshly seeded page is complete. */
  lemma SeededSectionsComplete()
    ensures forall i :: 0 <= i < |Categories| ==> IsComplete(Seed(Categories), Categories[i])
  {
    CategoryIdsDistinct();
    SeedIsZeroAndComplete(Categories);
    CompleteStoreCompletesSections(Seed(Categories), Categories);
  }

  // ---------------------------------------------------------------------------
  // Bar chart

  datatype BarDatum = BarDatum(name: string, text: string, score: int)

  /** One bar per KPI, in KPI order; a missing entry shows as 0 (`?? 0`). */
  function ChartBars(s: Store, catId: string, kpis: seq<KPI>): (r: seq<BarDatum>)
    ensures |r| == |kpis|
    ensures forall j :: 0 <= j < |kpis| ==> r[j].name == kpis[j].id && r[j].text == kpis[j].text
    ensures forall j :: 0 <= j < |kpis| && Defined(s, catId, kpis[j].id) ==> r[j].score == s[catId][kpis[j].id]
    ensures forall j :: 0 <= j < |kpis| && !Defined(s, catId, kpis[j].id) ==> r[j].score == 0
  {
    seq(|kpis|, j requires 0 <= j < |kpis| => BarDatum(kpis[j].id, kpis[j].text, Lookup(s, catId, kpis[j].id)))
  }

  function ChartData(s: Store, cat: Category): seq<BarDatum> {
    ChartBars(s, cat.id, cat.kpis)
  }

  function SumBars(bars: seq<BarDatum>): int {
    if bars == [] then 0 else SumBars(bars[..|bars| - 1]) + bars[|bars| - 1].score
  }

  /** The bars add up to the category's raw sum used by the aggregation. */
  lemma {:induction false} ChartSumIsRawSum(s: Store, catId: string, kpis: seq<KPI>)
    ensures SumBars(ChartBars(s, catId, kpis)) == RawSum(s, catId, kpis)
  {
    if kpis != [] {
      var init := kpis[..|kpis| - 1];
      assert ChartBars(s, catId, kpis)[..|kpis| - 1] == ChartBars(s, catId, init);
      ChartSumIsRawSum(s, catId, init);
    }
  }

  /** With scores in range, every bar lies on the chart's 0..3 axis. */
  lemma ChartScoresInRange(s: Store, cat: Category)
    requires ScoresInRange(s)
    ensures forall j :: 0 <= j < |ChartData(s, cat)| ==> 0 <= ChartData(s, cat)[j].score <= 3
  {
    forall j | 0 <= j < |cat.kpis| ensures 0 <= ChartData(s, cat)[j].score <= 3 {
      LookupInRange(s, cat.id, cat.kpis[j].id);
    }
  }

  /** 3 is blue, 2 emerald, 1 amber, and every other value red. */
  function BarColor(score: int): (c: string)
    ensures c == Blue <==> score == 3
    ensures c == Emerald <==> score == 2
    ensures c == Amber <==> score == 1
    ensures c == Red <==> score != 1 && score != 2 && score != 3
  {
    if score == 3 then Blue
    else if score == 2 then Emerald
    else if score == 1 then Amber
    else Red
  }

  // ---------------------------------------------------------------------------
  // KPI rows

  datatype Icon = XCircle | AlertCircle | CheckCircle2 | Star | Circle

  datatype Feedback = Feedback(icon: Icon, color: string, bg: string, border: string)

  const Neutral := Feedback(Circle, "text-slate-400", "bg-slate-50", "border-slate-200")

  function FeedbackConfig(v: int): Feedback {
    match v
    case 0 => Feedback(XCircle, "text-red-700", "bg-red-50", "border-red-200")
    case 1 => Feedback(AlertCircle, "text-amber-700", "bg-amber-50", "border-amber-200")
    case 2 => Feedback(CheckCircle2, "text-emerald-700", "bg-emerald-50", "border-emerald-200")
    case 3 => Feedback(Star, "text-blue-700", "bg-blue-50", "border-blue-200")
    case _ => Neutral
  }

  /** Each scale value has its own badge; any other value gets the neutral one. */
  lemma FeedbackDistinct(a: int, b: int)
    ensures 0 <= a <= 3 && 0 <= b <= 3 && a != b ==> FeedbackConfig(a) != FeedbackConfig(b)
    ensures FeedbackConfig(a) == Neutral <==> !(0 <= a <= 3)
  {
  }

  /** The values offered by the four score buttons of a KPI row. */
  const ScoreButtons: seq<int> := [0, 1, 2, 3]

  /** The arguments of one `onScoreChange` call. */
  datatype ScoreChange = ScoreChange(catId: string, kpiId: string, value: int)

  /** Every change the section's buttons can request: one per KPI and button. */
  function OfferedChanges(cat: Category): set<ScoreChange> {
    set j, b | 0 <= j < |cat.kpis| && b in ScoreButtons :: ScoreChange(cat.id, cat.kpis[j].id, b)
  }

  /**
    A button press names this section's category and one of its KPIs, and a
    value of the scale that has a label and its own badge.
   */
  lemma OfferedChangeIsOnScale(cat: Category, ch: ScoreChange)
    requires ch in OfferedChanges(cat)
    ensures ch.catId == cat.id
    ensures exists j :: 0 <= j < |cat.kpis| && cat.kpis[j].id == ch.kpiId
    ensures 0 <= ch.value <= 3
    ensures ch.value in ScaleLabels && FeedbackConfig(ch.value) != Neutral
  {
  }

  /** Every KPI of the section can be given every value of the scale. */
  lemma EveryValueOffered(cat: Category, j: int, v: int)
    requires 0 <= j < |cat.kpis| && 0 <= v <= 3
    ensures ScoreChange(cat.id, cat.kpis[j].id, v) in OfferedChanges(cat)
  {
    assert v in ScoreButtons;
  }

  /** Applying an offered change keeps the store in range and complete. */
  lemma OfferedChangeKeepsStore(s: Store, cats: seq<Category>, cat: Category, ch: ScoreChange)
    requires ch in OfferedChanges(cat)
    requires ScoresInRange(s) && Complete(s, cats)
    ensures ScoresInRange(SetScore(s, ch.catId, ch.kpiId, ch.value))
    ensures Complete(SetScore(s, ch.catId, ch.kpiId, ch.value), cats)
  {
    OfferedChangeIsOnScale(cat, ch);
    SetScorePreserves(s, cats, ch.catId, ch.kpiId, ch.value);
  }
}
