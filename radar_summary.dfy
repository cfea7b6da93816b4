/**
  The data of the radar chart that compares the categories by percentage,
  and the text summary of it given to screen readers.
 */
module RadarSummary {
  import opened Types
  import opened Constants
  import opened Scoring
  import opened JsText

  datatype RadarPoint = RadarPoint(subject: string, fullSubject: string, a: int, fullMark: int)

  /** `Cat ${id.replace('c', '')}`. */
  function Subject(id: string): string {
    "Cat " + RemoveFirst(id, 'c')
  }

  /** One point per category, in input order; `a` is the rounded percentage on a 0..100 axis. */
  function RadarData(data: seq<CategoryScore>): (r: seq<RadarPoint>)
    ensures |r| == |data|
    ensures forall i :: 0 <= i < |data| ==> r[i].fullSubject == data[i].title && r[i].fullMark == 100
    ensures forall i :: 0 <= i < |data| ==> r[i].subject == Subject(data[i].id) && r[i].a == Round(data[i].percentage)
    ensures forall i :: 0 <= i < |data| && 0.0 <= data[i].percentage <= 100.0 ==> 0 <= r[i].a <= 100
  {
    seq(|data|, i requires 0 <= i < |data| =>
      RadarPoint(Subject(data[i].id), data[i].title, Round(data[i].percentage), 100))
  }

  /** `${title}: ${Math.round(percentage)}%`. */
  function SummaryEntry(c: CategoryScore): string {
    c.title + ": " + IntText(Round(c.percentage)) + "%"
  }

  function SummaryEntries(data: seq<CategoryScore>): (r: seq<string>)
    ensures |r| == |data|
  {
    seq(|data|, i requires 0 <= i < |data| => SummaryEntry(data[i]))
  }

  /** The entries joined with ", ". */
  function AccessibleSummary(data: seq<CategoryScore>): string {
    Join(", ", SummaryEntries(data))
  }

  /** The summary reads in input order: one more category appends ", " and its entry. */
  lemma AccessibleSummarySnoc(data: seq<CategoryScore>, c: CategoryScore)
    requires |data| > 0
    ensures AccessibleSummary(data + [c]) == AccessibleSummary(data) + ", " + SummaryEntry(c)
  {
    assert SummaryEntries(data + [c]) == SummaryEntries(data) + [SummaryEntry(c)];
    JoinSnoc(", ", SummaryEntries(data), SummaryEntry(c));
  }

  /** The summary starts with the first category's entry. */
  lemma AccessibleSummaryStart(data: seq<CategoryScore>)
    requires |data| > 0
    ensures |SummaryEntry(data[0])| <= |AccessibleSummary(data)|
    ensures AccessibleSummary(data)[..|SummaryEntry(data[0])|] == SummaryEntry(data[0])
  {
  }

  /** The number each summary entry announces is the value plotted for that category. */
  lemma SummaryAgreesWithChart(data: seq<CategoryScore>, i: int)
    requires 0 <= i < |data|
    ensures SummaryEntries(data)[i] == data[i].title + ": " + IntText(RadarData(data)[i].a) + "%"
    ensures ParseInt(IntText(RadarData(data)[i].a)) == Some(Round(data[i].percentage))
  {
    IntTextRoundTrip(Round(data[i].percentage));
  }

  /** An id starting with 'c' loses just that letter. */
  lemma SubjectOfSchemaId(id: string)
    requires |id| > 0 && id[0] == 'c'
    ensures Subject(id) == "Cat " + id[1..]
  {
  }

  /** The seven schema categories are labelled "Cat 1" to "Cat 7", all distinct. */
  lemma SchemaSubjects()
    ensures forall i :: 0 <= i < |Categories| ==> Subject(Categories[i].id) == "Cat " + [DigitChar(i + 1)]
    ensures forall i, j :: 0 <= i < j < |Categories| ==> Subject(Categories[i].id) != Subject(Categories[j].id)
  {
    forall i | 0 <= i < |Categories| ensures Subject(Categories[i].id) == "Cat " + [DigitChar(i + 1)] {
      var id := Categories[i].id;
      assert id == ['c', DigitChar(i + 1)];
      SubjectOfSchemaId(id);
      assert id[1..] == [DigitChar(i + 1)];
    }
    forall i, j | 0 <= i < j < |Categories| ensures Subject(Categories[i].id) != Subject(Categories[j].id) {
      assert Subject(Categories[i].id)[4] != Subject(Categories[j].id)[4];
    }
  }

  /** For a store with scores in range, the radar shows the seven categories in schema order on 0..100. */
  lemma RadarOfResult(s: Store)
    requires ScoresInRange(s)
    ensures |RadarData(Result(s).categoryScores)| == |Categories|
    ensures forall i :: 0 <= i < |Categories| ==>
              RadarData(Result(s).categoryScores)[i].subject == "Cat " + [DigitChar(i + 1)] &&
              0 <= RadarData(Result(s).categoryScores)[i].a <= 100
  {
    ResultBounds(s);
    SchemaSubjects();
  }
}
