/**
  The static schema of the form (seven weighted categories with their KPIs),
  the rank tier table and the labels of the four score values, together with
  the facts about them that the aggregation depends on.
 */
module Constants {
  import opened Types

  /** The seven categories in display order; their weights sum to 100. */
  const Categories: seq<Category> := [
    Goals, Efficiency, CitizenBenefit, DataQuality, Compliance, Adoption, Sustainability]

  const Goals := Category("c1", "1. Zielerreichung und strategischer Fit", 15, [
      KPI("1.1", "Zielbild war klar, messbar, schriftlich vorhanden"),
      KPI("1.2", "Problemdefinition fachlich, nicht technisch, war sauber"),
      KPI("1.3", "Zielkennzahlen wurden erreicht"),
      KPI("1.4", "Nutzen war vor Go Live validiert, Pilot oder Test"),
      KPI("1.5", "Abweichungen sind dokumentiert und begründet")])

  const Efficiency := Category("c2", "2. Operative Effizienz und Wirtschaftlichkeit", 20, [
      KPI("2.1", "Bearbeitungszeit pro Vorgang sank"),
      KPI("2.2", "Manuelle Tätigkeiten gingen zurück"),
      KPI("2.3", "Fehler oder Nacharbeit gingen zurück"),
      KPI("2.4", "Budget und Zeitplan wurden eingehalten"),
      KPI("2.5", "Betriebskosten sind tragbar und transparent")])

  const CitizenBenefit := Category("c3", "3. Nutzen für Bürgerinnen und Bürger", 20, [
      KPI("3.1", "Warte- und Durchlaufzeiten für Bürger wurden besser"),
      KPI("3.2", "Servicequalität stieg, gemessen über Feedback oder Beschwerden"),
      KPI("3.3", "Nutzungsrate des digitalen Angebots stieg"),
      KPI("3.4", "Barrierefreiheit ist erfüllt"),
      KPI("3.5", "Fairness, keine systematische Benachteiligung nachweisbar")])

  const DataQuality := Category("c4", "4. Daten und KI Qualität", 15, [
      KPI("4.1", "Datenqualität ist definiert und wird überwacht"),
      KPI("4.2", "Daten sind aktuell, Vollständigkeit ist akzeptabel"),
      KPI("4.3", "Modellleistung ist messbar und ausreichend"),
      KPI("4.4", "Ergebnisse sind fachlich plausibel und erklärbar"),
      KPI("4.5", "Monitoring für Drift, Fehler, Bias ist aktiv")])

  const Compliance := Category("c5", "5. Recht, Datenschutz, IT Sicherheit", 20, [
      KPI("5.1", "Rechtsgrundlage dokumentiert"),
      KPI("5.2", "DSGVO Prüfung, TOMs, Löschkonzept vorhanden"),
      KPI("5.3", "DSFA durchgeführt falls nötig"),
      KPI("5.4", "IT Sicherheitsanforderungen erfüllt, Audit oder Test"),
      KPI("5.5", "Transparenz, Dokumentation, Nachvollziehbarkeit vorhanden")])

  const Adoption := Category("c6", "6. Akzeptanz und Organisation", 5, [
      KPI("6.1", "Mitarbeitende nutzen das System wirklich im Alltag"),
      KPI("6.2", "Schulung und Change waren ausreichend"),
      KPI("6.3", "Rollen, Zuständigkeiten, Support sind geklärt")])

  const Sustainability := Category("c7", "7. Nachhaltigkeit und Wiederverwendbarkeit", 5, [
      KPI("7.1", "Betrieb und Wartung sind langfristig gesichert"),
      KPI("7.2", "Lösung ist skalierbar und integrierbar"),
      KPI("7.3", "Wiederverwendung für andere Bereiche ist realistisch")])

  /** One row of the rank table. */
  datatype RankInfo = RankInfo(labelText: string, color: string, description: string, min: int, max: int)

  function RankingConfig(r: Rank): RankInfo {
    match r
    case TOP => TopTier
    case GOOD => GoodTier
    case CRITICAL => CriticalTier
    case FAILED => FailedTier
  }

  /** The rows of the rank table, from the best tier down. */
  const TopTier := RankInfo("TOP", "text-emerald-700 bg-emerald-50 border-emerald-200",
                            "Mehrwert klar, skalieren.", 240, 300)
  const GoodTier := RankInfo("GUT", "text-blue-700 bg-blue-50 border-blue-200",
                             "Weiterführen, Optimierung einplanen.", 180, 239)
  const CriticalTier := RankInfo("KRITISCH", "text-amber-700 bg-amber-50 border-amber-200",
                                 "Nur weiter mit klarer Nachsteuerung.", 120, 179)
  const FailedTier := RankInfo("NICHT ERFOLGREICH", "text-red-700 bg-red-50 border-red-200",
                               "Stoppen oder neu aufsetzen.", 0, 119)

  const ScaleLabels: map<int, string> := map[
    0 := "Nicht erfüllt",
    1 := "Teilweise",
    2 := "Erfüllt",
    3 := "Übertroffen"]

  /** The highest total the schema allows: every KPI at 3. */
  const MaxScore: int := 300

  // ---------------------------------------------------------------------------
  // Schema-level definitions, for any list of categories

  function SumWeights(cats: seq<Category>): int {
    if cats == [] then 0 else SumWeights(cats[..|cats| - 1]) + cats[|cats| - 1].weight
  }

  /** The sum of every category's `maxPotential`, 3 * weight. */
  function SumMaxPotential(cats: seq<Category>): int {
    if cats == [] then 0 else SumMaxPotential(cats[..|cats| - 1]) + 3 * cats[|cats| - 1].weight
  }

  predicate DistinctCategoryIds(cats: seq<Category>) {
    forall i, j :: 0 <= i < j < |cats| ==> cats[i].id != cats[j].id
  }

  predicate DistinctKpiIds(kpis: seq<KPI>) {
    forall i, j :: 0 <= i < j < |kpis| ==> kpis[i].id != kpis[j].id
  }

  /** What the aggregation assumes of a schema. */
  predicate WellFormedSchema(cats: seq<Category>) {
    && DistinctCategoryIds(cats)
    && (forall i :: 0 <= i < |cats| ==> |cats[i].kpis| > 0)
    && (forall i :: 0 <= i < |cats| ==> cats[i].weight >= 0)
    && (forall i :: 0 <= i < |cats| ==> DistinctKpiIds(cats[i].kpis))
  }

  lemma {:induction false} MaxPotentialIsThreeTimesWeight(cats: seq<Category>)
    ensures SumMaxPotential(cats) == 3 * SumWeights(cats)
  {
    if cats != [] {
      MaxPotentialIsThreeTimesWeight(cats[..|cats| - 1]);
    }
  }

  // ---------------------------------------------------------------------------
  // Facts about this schema

  lemma CategoryCount()
    ensures |Categories| == 7
    ensures Categories[0].id == "c1"
  {
  }

  /** 15 + 20 + 20 + 15 + 20 + 5 + 5 = 100. */
  lemma WeightsSumTo100()
    ensures SumWeights(Categories) == 100
  {
    var c := Categories;
    assert SumWeights(c[..1]) == 15 by { assert c[..1][..0] == []; }
    assert SumWeights(c[..2]) == 35 by { assert c[..2][..1] == c[..1]; }
    assert SumWeights(c[..3]) == 55 by { assert c[..3][..2] == c[..2]; }
    assert SumWeights(c[..4]) == 70 by { assert c[..4][..3] == c[..3]; }
    assert SumWeights(c[..5]) == 90 by { assert c[..5][..4] == c[..4]; }
    assert SumWeights(c[..6]) == 95 by { assert c[..6][..5] == c[..5]; }
    assert c[..7] == c;
  }

  /** The aggregation's fixed maximum is the sum of the categories' potentials. */
  lemma MaxPotentialsSumToMaxScore()
    ensures SumMaxPotential(Categories) == MaxScore
  {
    MaxPotentialIsThreeTimesWeight(Categories);
    WeightsSumTo100();
  }

  lemma CategoryIdsDistinct()
    ensures DistinctCategoryIds(Categories)
  {
  }

  /** KPI ids are distinct within each category. */
  lemma KpiIdsDistinct(i: int)
    requires 0 <= i < |Categories|
    ensures DistinctKpiIds(Categories[i].kpis)
  {
    if i == 0 { GoalsKpiIdsDistinct(); }
    else if i == 1 { EfficiencyKpiIdsDistinct(); }
    else if i == 2 { CitizenBenefitKpiIdsDistinct(); }
    else if i == 3 { DataQualityKpiIdsDistinct(); }
    else if i == 4 { ComplianceKpiIdsDistinct(); }
    else if i == 5 { AdoptionKpiIdsDistinct(); }
    else { SustainabilityKpiIdsDistinct(); }
  }

  // One lemma per category, so that each proof sees only that category's texts.

  lemma GoalsKpiIdsDistinct()
    ensures DistinctKpiIds(Goals.kpis)
  {
  }

  lemma EfficiencyKpiIdsDistinct()
    ensures DistinctKpiIds(Efficiency.kpis)
  {
  }

  lemma CitizenBenefitKpiIdsDistinct()
    ensures DistinctKpiIds(CitizenBenefit.kpis)
  {
  }

  lemma DataQualityKpiIdsDistinct()
    ensures DistinctKpiIds(DataQuality.kpis)
  {
  }

  lemma ComplianceKpiIdsDistinct()
    ensures DistinctKpiIds(Compliance.kpis)
  {
  }

  lemma AdoptionKpiIdsDistinct()
    ensures DistinctKpiIds(Adoption.kpis)
  {
  }

  lemma SustainabilityKpiIdsDistinct()
    ensures DistinctKpiIds(Sustainability.kpis)
  {
  }

  /** Every category has KPIs: 5, 5, 5, 5, 5, 3, 3. */
  lemma KpiCounts()
    ensures forall i :: 0 <= i < |Categories| ==> |Categories[i].kpis| == (if i < 5 then 5 else 3)
  {
  }

  lemma WeightsNonNegative()
    ensures forall i :: 0 <= i < |Categories| ==> Categories[i].weight >= 0
  {
  }

  lemma AllKpiIdsDistinct()
    ensures forall i :: 0 <= i < |Categories| ==> DistinctKpiIds(Categories[i].kpis)
  {
    forall i | 0 <= i < |Categories| ensures DistinctKpiIds(Categories[i].kpis) {
      KpiIdsDistinct(i);
    }
  }

  /** The schema meets everything the aggregation assumes of it. */
  lemma SchemaWellFormed()
    ensures WellFormedSchema(Categories)
  {
    CategoryIdsDistinct();
    KpiCounts();
    WeightsNonNegative();
    AllKpiIdsDistinct();
  }

  /** No category id collides with the 'ALL' marker of the section state. */
  lemma NoCategoryNamedAll()
    ensures forall i :: 0 <= i < |Categories| ==> Categories[i].id != "ALL"
  {
  }

  /** The tier minimums strictly descend: 240 > 180 > 120 > 0. */
  lemma ThresholdsDescend()
    ensures RankingConfig(TOP).min > RankingConfig(GOOD).min > RankingConfig(CRITICAL).min
            > RankingConfig(FAILED).min == 0
  {
  }

  /** Each tier's max is one below the next tier's min, and the top tier ends at the maximum score. */
  lemma TierRangesContiguous()
    ensures RankingConfig(FAILED).max == RankingConfig(CRITICAL).min - 1
    ensures RankingConfig(CRITICAL).max == RankingConfig(GOOD).min - 1
    ensures RankingConfig(GOOD).max == RankingConfig(TOP).min - 1
    ensures RankingConfig(TOP).max == MaxScore
  {
  }

  /** Every integer total in 0..300 lies in exactly one tier range. */
  lemma TierRangesPartition(n: int)
    requires 0 <= n <= MaxScore
    ensures exists r :: RankingConfig(r).min <= n <= RankingConfig(r).max
    ensures forall r1, r2 ::
              (RankingConfig(r1).min <= n <= RankingConfig(r1).max &&
               RankingConfig(r2).min <= n <= RankingConfig(r2).max) ==> r1 == r2
  {
    var w := if n >= 240 then TOP else if n >= 180 then GOOD else if n >= 120 then CRITICAL else FAILED;
    assert RankingConfig(w).min <= n <= RankingConfig(w).max;
    forall r | RankingConfig(r).min <= n <= RankingConfig(r).max
      ensures r == w
    {
      match r
      case TOP =>
      case GOOD =>
      case CRITICAL =>
      case FAILED =>
    }
  }

  /** The labelled score values are exactly 0, 1, 2 and 3. */
  lemma ScaleLabelKeys()
    ensures ScaleLabels.Keys == {0, 1, 2, 3}
  {
  }
}
