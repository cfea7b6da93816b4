# AI Data Impact Analyst — scoring form model

A Dafny model of the single-page assessment form for AI and data projects in
public administration. An assessor scores the KPIs of seven weighted
categories on the scale 0 (Nicht erfüllt) to 3 (Übertroffen). The page keeps
the scores in a two-level store (category id → KPI id → score), aggregates
them into a weighted score and a percentage per category and a total out of
300, and classifies the total into one of four rank tiers (TOP, GUT,
KRITISCH, NICHT ERFOLGREICH) by a top-down threshold cascade. One category
section is expanded at a time; print and PDF export expand every section for
the duration of the export and restore the previous state afterwards. A
gauge shows the total, a radar chart the category percentages, and each
section a bar chart of its KPI scores.

Modules, one per source file or concern:

- `Types` — the shapes of `types.ts`: KPI, category, score store, rank, category result, assessment result.
- `Constants` — `constants.ts`: the category schema, the rank table and the scale labels, with their invariants.
- `Scoring` — the store and the aggregation of `App.tsx`. Seeding the store is a method with nested loops over the categories and their KPIs, proved against the function `Seed`. Computing the result is a method that runs one loop over the categories, accumulating the total (`ScoreAll`), and then the rank cascade (`DetermineRank`); it is proved against the function `Assess`. The per-KPI `reduce`, replacing a score and the per-category arithmetic are functions.
- `Session` — the React state of `App.tsx` as a class `App` (`scores`, `openSection`, `pdfLoading`) with one method per handler.
- `CategorySection`, `GaugeChart`, `RadarSummary` — the values the three components compute from their props.
- `Palette` — the four chart colours shared by the bar chart and the gauge.
- `JsText` — the JavaScript built-ins those components rely on: `Math.round`, `Math.min`/`Math.max`, the text of an integer, `join` and `replace` with a one-character pattern.

Scores are integers. Averages, percentages and totals are exact reals.
`Math.round(x)` is `floor(x + 0.5)`.

## Model

| member | source | states |
|---|---|---|
| Scoring.InitialScores | App.tsx:11-17 | the nested loops build exactly the seed store `Seed(cats)`, proved by loop invariants over the categories and KPIs filled so far |
| Scoring.ZeroRow | App.tsx:13-16 | definition: the row `initialScores[cat.id]` after the inner loop, 0 for each KPI id; its shape is stated by `ZeroRowShape` |
| Scoring.Seed | App.tsx:11-17 | definition: the store after the outer loop, one zero row per category; its meaning is stated by `SeedIsZeroAndComplete` |
| Scoring.ZeroRowShape | App.tsx:13-16 | a category's fresh row has exactly its KPI ids as keys, each mapped to 0 |
| Scoring.SeedShape | App.tsx:12-17 | with distinct category ids the fresh store has exactly the category ids as keys and each category's zero row |
| Scoring.SeedIsZeroAndComplete | App.tsx:11-17 | the fresh store holds exactly one entry, equal to 0, for every (category, KPI) pair of the schema and nothing else |
| Scoring.InitialStoreValid | App.tsx:11-19 | the page's seeded store is complete and in range |
| Scoring.LookupInRange | App.tsx:90 | with every stored score in 0..3, a read (a missing entry reads 0) is in 0..3 |
| Scoring.Lookup | App.tsx:89-90 | definition: the read with the logical-or defaults, a missing category row or KPI entry reading 0 (as do the `?.[kpi.id] ?? 0` reads of CategorySection.tsx:41 and :103); `LookupInRange` states its range |
| Scoring.SetScore | App.tsx:24-32 | the copy-update sets `scores[cat][kpi] = v`; every other category and every other KPI of that category keeps its entry; no key is lost |
| Scoring.SetScoreFrame | App.tsx:24-32 | any other (category, KPI) pair reads the same value and is defined exactly when it was before |
| Scoring.SetScorePreserves | App.tsx:24-32 | a value from 0..3 keeps the store in range, and a complete store stays complete |
| Scoring.RawSum | App.tsx:90 | the `reduce` sum of a category's scores, a missing entry adding 0; with scores in 0..3 the sum of k KPIs lies in 0..3k |
| Scoring.RawSumUniform | App.tsx:90 | when every KPI reads v the raw sum is v times the KPI count |
| Scoring.ScoreCategory | App.tsx:102-108 | the category result carries the category's id and title and `maxPotential = 3 * weight` |
| Scoring.WeightedIsShareOfPotential | App.tsx:97-107 | `weightedScore = percentage / 100 * maxPotential`, including the zero-KPI fallback |
| Scoring.CategoryScoreBounds | App.tsx:89-107 | with scores in 0..3 and a non-negative weight, the percentage lies in [0, 100] and `0 <= weightedScore <= maxPotential` |
| Scoring.ScoreCategoryUniform | App.tsx:89-98 | when every KPI of a non-empty category reads v, the weighted score is v times the weight (all 3s with weight 20 give 60) |
| Scoring.ScoreCategoryUniformPercentage | App.tsx:107 | when every KPI of a non-empty category reads v, the percentage is 100v/3 (all 3s give 100) |
| Scoring.CategoryScores | App.tsx:88-109 | one result per category, same length and order, the i-th being the i-th category's result |
| Scoring.ComputeResult | App.tsx:86-123 | the pass over the categories and the rank cascade compute exactly `Assess(s, cats)`: the total is the sum of the weighted scores, the results keep the categories' order and ids, `maxScore` is 300 |
| Scoring.ScoreAll | App.tsx:86-109 | the `map` over the categories, accumulating `totalScore` as it goes, yields exactly `CategoryScores(s, cats)` and a total equal to `TotalOf` of those results, proved by loop invariants over the categories scored so far |
| Scoring.DetermineRank | App.tsx:112-115 | the `let rank` cascade starting at FAILED computes exactly `RankOf` of the total |
| Scoring.RankOf | App.tsx:112-115 | the rank is TOP exactly from 240, GOOD exactly in [180, 240), CRITICAL exactly in [120, 180) and FAILED exactly below 120 |
| Scoring.TotalOf | App.tsx:87-100 | definition: the running `totalScore += weightedScore`; its bounds are stated by `TotalBounds` and `UniformTotal` |
| Scoring.Assess | App.tsx:86-123 | definition: the result over a schema (total, 300, rank of the total, category results); `ComputeResult` is proved to compute it |
| Scoring.Result | App.tsx:86-123 | definition: `Assess` over the page's schema; its bounds are stated by `ResultBounds` |
| Scoring.TotalOfSnoc | App.tsx:100 | one more category adds its weighted score to the total |
| Scoring.TotalBounds | App.tsx:87-109 | with scores in 0..3 and non-negative weights, the total lies between 0 and 3 times the weight sum |
| Scoring.UniformTotal | App.tsx:87-109 | when every KPI of the schema reads v, the total is v times the weight sum |
| Scoring.RankMonotone | App.tsx:112-115 | the rank never drops when the total grows |
| Scoring.RankBoundaries | App.tsx:112-115 | thresholds are inclusive lower bounds: 240 is TOP, 239.999 GOOD, 180 GOOD, 179.999 CRITICAL, 120 CRITICAL, 119.999 and 0 FAILED |
| Scoring.RankMatchesTable | App.tsx:112-115 | for a total in 0..300 the cascade picks a tier whose min is at most the total and whose max + 1 is above it; an integer total lies in the tier's [min, max] |
| Scoring.ResultBounds | App.tsx:86-122 | with scores in 0..3 the form's result has the seven categories in order, each percentage in [0, 100], each weighted score in [0, maxPotential], and the total in [0, 300] |
| Scoring.SeedTotalsZero | App.tsx:11-17 | over any schema with distinct ids and non-empty categories the fresh store totals 0 and ranks FAILED |
| Scoring.InitialResult | App.tsx:86-123 | the fresh store totals 0 and ranks FAILED |
| Scoring.PerfectResult | App.tsx:86-123 | every KPI at 3 totals 300 and ranks TOP |
| Session.IsOpen | App.tsx:231 | definition: a section is open when the state is ALL or its id; `AtMostOneOpen` states its consequence |
| Session.Toggled | App.tsx:232 | definition: the toggled state, `null` when the section was the open one and its id otherwise; stated by `ToggleSingleExpansion` and `ToggleTwice` |
| Session.ToggleSingleExpansion | App.tsx:231-232 | toggling opens the section unless it was the open one, from any state including ALL, and leaves every other section closed |
| Session.AtMostOneOpen | App.tsx:231 | outside ALL at most one section is open |
| Session.ToggleTwice | App.tsx:232 | toggling the open section closes it and toggling again reopens it; from any other state two toggles close everything |
| Session.App.constructor | App.tsx:19-22 | the page starts with the seeded store, the first category open and not busy |
| Session.App.ValidResultInRange | App.tsx:86-123 | between two handler calls the displayed total lies in 0..300 and every category percentage in [0, 100] |
| Session.App.HandleScoreChange | App.tsx:24-32 | the store becomes `SetScore` of the old store; section state and busy flag unchanged; a value in 0..3 keeps the store valid |
| Session.App.Reset | App.tsx:34-40 | confirmed: the store is exactly the seed and the first category is open; not confirmed: nothing changes |
| Session.App.ToggleSection | App.tsx:232 | the section state becomes the toggled state; scores untouched |
| Session.App.HandlePrint | App.tsx:42-51 | the print sees every section expanded; when `window.print` returns the saved section state is restored; scores untouched |
| Session.App.HandleDownloadPdf | App.tsx:53-83 | the capture sees ALL and the busy flag set; on success and on failure the busy flag is cleared and the saved section state restored; the alert is shown exactly on failure; scores untouched |
| Constants.Categories | constants.ts:3-84 | the schema: seven categories with their ids, titles, weights and KPIs, in order |
| Constants.RankingConfig | constants.ts:86-115 | the rank table: label, colour, description, min and max of each tier |
| Constants.ScaleLabels | constants.ts:117-122 | the labels of the scale values 0..3 |
| Constants.MaxScore | App.tsx:119 | definition: the result's `maxScore: 300`; `MaxPotentialsSumToMaxScore` ties it to the schema |
| Constants.MaxPotentialIsThreeTimesWeight | App.tsx:106 | the sum of `maxPotential` over any schema is 3 times its weight sum |
| Constants.CategoryCount | constants.ts:3-84 | the schema has seven categories, the first with id c1 |
| Constants.WeightsSumTo100 | constants.ts:3-84 | 15 + 20 + 20 + 15 + 20 + 5 + 5 = 100 |
| Constants.MaxPotentialsSumToMaxScore | constants.ts:3-84 | the categories' maximum potentials sum to 300, the `maxScore` of the result |
| Constants.CategoryIdsDistinct | constants.ts:5-79 | the category ids are pairwise distinct |
| Constants.AllKpiIdsDistinct | constants.ts:8-82 | the KPI ids are distinct within every category |
| Constants.KpiCounts | constants.ts:8-82 | the categories have 5, 5, 5, 5, 5, 3, 3 KPIs, so the zero-KPI fallbacks are unreachable for this schema |
| Constants.WeightsNonNegative | constants.ts:3-84 | every weight is non-negative |
| Constants.SchemaWellFormed | constants.ts:3-84 | the schema has distinct ids, non-empty categories, non-negative weights and distinct KPI ids per category |
| Constants.NoCategoryNamedAll | constants.ts:5-79 | no category id equals the 'ALL' marker of the section state |
| Constants.ThresholdsDescend | constants.ts:91-112 | the tier minimums strictly descend: 240 > 180 > 120 > 0 |
| Constants.TierRangesContiguous | constants.ts:91-114 | each tier's max is one below the next tier's min and the top tier ends at 300 |
| Constants.TierRangesPartition | constants.ts:91-114 | every integer in 0..300 lies in exactly one tier range |
| Constants.ScaleLabelKeys | constants.ts:117-122 | the scale labels have exactly the keys 0, 1, 2, 3 |
| CategorySection.CountAnswered | components/CategorySection.tsx:32-34 | the count is the number of KPI positions whose entry is present, lies in 0..kpis.length, and reaches the length exactly when every KPI has an entry |
| CategorySection.SectionAnsweredCount | components/CategorySection.tsx:32-34 | definition: `CountAnswered` over the section's category and KPIs |
| CategorySection.IsComplete | components/CategorySection.tsx:35 | definition: the answered count equals the number of KPIs; `CompleteStoreCompletesSections` states when it holds |
| CategorySection.CompleteStoreCompletesSections | components/CategorySection.tsx:35 | a store with every schema entry shows every section complete |
| CategorySection.SeededSectionsComplete | components/CategorySection.tsx:35 | every section of the seeded page is complete |
| CategorySection.ChartBars | components/CategorySection.tsx:38-42 | one bar per KPI in KPI order, named by the KPI id, carrying its text, and scoring the stored value or 0 when the entry is missing |
| CategorySection.ChartData | components/CategorySection.tsx:38-42 | definition: `ChartBars` over the section's category; its bars are stated by `ChartBars`, `ChartSumIsRawSum` and `ChartScoresInRange` |
| CategorySection.ChartSumIsRawSum | components/CategorySection.tsx:38-42 | the bars add up to the raw sum the aggregation uses |
| CategorySection.ChartScoresInRange | components/CategorySection.tsx:38-42 | with scores in 0..3 every bar lies on the 0..3 axis |
| CategorySection.BarColor | components/CategorySection.tsx:44-49 | 3 is blue, 2 emerald, 1 amber, and every other value, 0 included, red (each in both directions) |
| CategorySection.FeedbackConfig | components/CategorySection.tsx:178-186 | definition: the badge of each scale value and the neutral default; `FeedbackDistinct` states its properties |
| CategorySection.FeedbackDistinct | components/CategorySection.tsx:178-186 | each of 0..3 has its own badge, and exactly the other values get the neutral one |
| CategorySection.ScoreButtons | components/CategorySection.tsx:229 | definition: the values 0, 1, 2, 3 of the four buttons; `OfferedChangeIsOnScale` and `EveryValueOffered` state what they offer |
| CategorySection.OfferedChanges | components/CategorySection.tsx:229-234 | definition: every (category, KPI, button value) a press can send; `OfferedChangeIsOnScale` and `EveryValueOffered` state what it holds |
| CategorySection.OfferedChangeIsOnScale | components/CategorySection.tsx:229-234 | a button press names this category, one of its KPIs and a value in 0..3 that has a label and its own badge |
| CategorySection.EveryValueOffered | components/CategorySection.tsx:229-234 | every KPI of the section can be given every value of 0..3 |
| CategorySection.OfferedChangeKeepsStore | components/CategorySection.tsx:104 | applying any change the buttons can request keeps the store in range and complete |
| GaugeChart.Percentage | components/GaugeChart.tsx:11 | the clamped proportion lies in [0, 1]; it is score/max inside [0, max], 0 below and 1 above |
| GaugeChart.GaugeData | components/GaugeChart.tsx:14-17 | two slices, Score then Remaining, whose values sum to max |
| GaugeChart.GaugeColor | components/GaugeChart.tsx:20-23 | red below 120, amber in [120, 180), blue in [180, 240), emerald from 240, with later assignments overriding |
| GaugeChart.GaugeColorMatchesRank | components/GaugeChart.tsx:20-23 | the colour of a total is the colour of its rank tier, since the bands start at the tier minimums |
| GaugeChart.TierColorsDistinct | components/GaugeChart.tsx:20-23 | distinct tiers have distinct gauge colours |
| GaugeChart.CenterLabel | components/GaugeChart.tsx:52 | definition: the text of the rounded score |
| GaugeChart.AriaLabel | components/GaugeChart.tsx:29 | definition: the accessible label around the rounded score and the maximum |
| GaugeChart.LabelsShowRoundedScore | components/GaugeChart.tsx:12-52 | the centre label is the text of `Math.round(score)`, reads back as that number, and the aria label contains the same text |
| GaugeChart.GaugeOfResult | components/GaugeChart.tsx:11-16 | for the form's result the proportion is total/300, the centre number lies in 0..300 and the remaining slice is non-negative |
| RadarSummary.RadarData | components/RadarSummary.tsx:19-24 | one point per category in input order; `subject` is `Subject(id)`, `fullSubject` the title, `A` the rounded percentage, `fullMark` 100; `A` lies in 0..100 for a percentage in [0, 100] |
| RadarSummary.Subject | components/RadarSummary.tsx:20 | definition: "Cat " followed by the id with its first 'c' removed; `SubjectOfSchemaId` and `SchemaSubjects` state its values |
| RadarSummary.SummaryEntry | components/RadarSummary.tsx:27 | definition: "title: n%" with n the rounded percentage |
| RadarSummary.AccessibleSummary | components/RadarSummary.tsx:27 | definition: the entries joined with ", "; `AccessibleSummarySnoc` and `AccessibleSummaryStart` state its order |
| RadarSummary.SubjectOfSchemaId | components/RadarSummary.tsx:20 | an id starting with 'c' is shown as "Cat " followed by the rest of the id |
| RadarSummary.SchemaSubjects | components/RadarSummary.tsx:20 | the seven categories are labelled "Cat 1" to "Cat 7", pairwise distinct |
| RadarSummary.RadarOfResult | components/RadarSummary.tsx:19-24 | for the form's result the radar has seven points labelled in schema order with values in 0..100 |
| RadarSummary.SummaryEntries | components/RadarSummary.tsx:27 | one summary entry per category |
| RadarSummary.AccessibleSummarySnoc | components/RadarSummary.tsx:27 | the summary reads in input order: one more category appends ", " and its "title: n%" entry |
| RadarSummary.AccessibleSummaryStart | components/RadarSummary.tsx:27 | the summary starts with the first category's entry |
| RadarSummary.SummaryAgreesWithChart | components/RadarSummary.tsx:22-27 | each summary entry announces the value plotted for that category |
| JsText.Round | components/GaugeChart.tsx:12 | `Math.round` returns the integer within half of its argument, halves going up |
| JsText.RoundWithin | components/RadarSummary.tsx:22 | rounding a value between two integers stays between them |
| JsText.Min | components/GaugeChart.tsx:11 | definition: `Math.min`; `GaugeChart.Percentage` states the clamp it builds |
| JsText.Max | components/GaugeChart.tsx:11 | definition: `Math.max`; `GaugeChart.Percentage` states the clamp it builds |
| JsText.IntText | components/GaugeChart.tsx:29 | the text of an integer is non-empty, all digits when non-negative, and starts with '-' when negative |
| JsText.NatText | components/GaugeChart.tsx:52 | the decimal digits of a natural number, with no leading zero |
| JsText.IntTextRoundTrip | components/GaugeChart.tsx:29 | the text of an integer reads back as that integer |
| JsText.IntTextInjective | components/GaugeChart.tsx:29 | distinct integers have distinct texts |
| JsText.Join | components/RadarSummary.tsx:27 | a join starts with its first element |
| JsText.JoinSnoc | components/RadarSummary.tsx:27 | joining one more element appends the separator and that element |
| JsText.RemoveFirst | components/RadarSummary.tsx:20 | `replace('c', '')` removes exactly one character when the string has a 'c' and leaves a string without 'c' unchanged |
| JsText.RemoveFirstSplits | components/RadarSummary.tsx:20 | the character removed is the first 'c', and the text before and after it is kept in order |

## Left out

- JSX rendering, Tailwind classes, lucide icons and the recharts components: only the data handed to them is modelled.
- The rank badge and the print-only result table, which show `RANKING_CONFIG` labels, colours and descriptions and `toFixed(1)` figures; the footer year.
- `confirm` is the `confirmed` parameter of `Reset`; `window.print` returning or throwing is the `printReturns` parameter of `HandlePrint`; the html2pdf capture succeeding or throwing is the `saveSucceeds` parameter of `HandleDownloadPdf`. `alert`, `console.error`, `window.scrollTo` and `document.getElementById` have no effect on the modelled state.
- The 500 ms and 800 ms settle delays and the async scheduling. The two export handlers are modelled as one atomic step each, and the values the external call observes are returned as outputs.
- Session.App.HandlePrint and Session.App.HandleDownloadPdf: require `!pdfLoading`, because only the disabled export buttons keep a second export from starting while one runs.
- The html2pdf option bundle and the date-stamped file name.
- IEEE-754 arithmetic: averages, percentages and totals are exact reals, so float rounding at an exact tier boundary is not reproduced.
- Store entries that are not numbers (`NaN`, `undefined` read through `||` versus `??`): the store maps ids to integers, and a missing entry reads 0 in both the aggregation and the bar chart.
- Session.App.HandleScoreChange: accepts any integer, as the handler does; the invariant that scores stay in 0..3 is stated for values in 0..3 only, since only the four buttons call it.
- GaugeChart.Percentage: requires `max > 0`; JavaScript would produce `NaN` or an infinity for 0, and the page always passes 300.
- The aria label around the radar summary ("Netzdiagramm der 7 Kategorien. …") is fixed text and is not modelled.
- Recomputing the result twice on the same store gives the same result because `Scoring.Result` is a function; no separate lemma states it.
- Toggling a section while every section is expanded follows the code: it opens just that section.
- `window.print` throwing: `handlePrint` has no `finally` (App.tsx:42-51), so every section stays expanded. The comment at App.tsx:48-49 discusses leaving the sections expanded, but the code restores the saved state whenever the call returns.
- `RANKING_CONFIG.max` is never read by the cascade. For integer totals the [min, max] ranges agree with it; a fractional total the form can reach, such as 239 2/3, lies between two integer ranges and the cascade places it in the lower tier, as `Scoring.RankMatchesTable` states.
