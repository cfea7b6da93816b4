/**
  The state of the form's page: the score store, which category section is
  expanded, and the busy flag of the PDF export. The page's handlers change
  this state in place; the browser's confirm prompt, `window.print` and the
  PDF library are represented by their outcomes, passed in as parameters.
 */
module Session {
  import opened Types
  import opened Constants
  import opened Scoring

  /** `openSectionId`: `null`, one category id, or `'ALL'` for export. */
  datatype Visibility = NoSection | Section(id: string) | AllSections

  /** A section is expanded when everything is, or when it is the one expanded section. */
  predicate IsOpen(v: Visibility, catId: string) {
    v == AllSections || v == Section(catId)
  }

  /** The header button of a section: close it when it is the open one, otherwise open just it. */
  function Toggled(v: Visibility, catId: string): Visibility {
    if v == Section(catId) then NoSection else Section(catId)
  }

  /** Toggling opens the section unless it was the one open, and leaves every other section closed. */
  lemma ToggleSingleExpansion(v: Visibility, catId: string)
    ensures IsOpen(Toggled(v, catId), catId) <==> v != Section(catId)
    ensures forall other :: other != catId ==> !IsOpen(Toggled(v, catId), other)
    ensures Toggled(v, catId) != AllSections
  {
  }

  /** Outside export mode at most one section is open. */
  lemma AtMostOneOpen(v: Visibility, a: string, b: string)
    requires v != AllSections
    requires IsOpen(v, a) && IsOpen(v, b)
    ensures a == b
  {
  }

  /** Toggling the open section closes it, and toggling again reopens it. */
  lemma ToggleTwice(v: Visibility, catId: string)
    ensures v == Section(catId) ==> Toggled(Toggled(v, catId), catId) == v
    ensures v != Section(catId) ==> Toggled(Toggled(v, catId), catId) == NoSection
  {
  }

  class App {
    var scores: Store
    var openSection: Visibility
    var pdfLoading: bool

    /**
      Between two handler calls: every schema entry is present with a score
      of the scale, and no PDF export is running.
     */
    predicate Valid()
      reads this
    {
      ScoresInRange(scores) && Complete(scores, Categories) && !pdfLoading
    }

    /** The page as first shown: the seeded store, the first category open, not busy. */
    constructor ()
      ensures Valid()
      ensures scores == Seed(Categories)
      ensures openSection == Section(Categories[0].id)
      ensures !pdfLoading
    {
      var initialScores := InitialScores(Categories);
      InitialStoreValid(initialScores);
      scores := initialScores;
      openSection := Section(Categories[0].id);
      pdfLoading := false;
    }

    /** Between two handler calls the displayed total lies in 0..300 and every category figure is in bounds. */
    lemma ValidResultInRange()
      requires Valid()
      ensures 0.0 <= Result(scores).totalScore <= MaxScore as real
      ensures forall i :: 0 <= i < |Categories| ==> 0.0 <= Result(scores).categoryScores[i].percentage <= 100.0
    {
      ResultBounds(scores);
    }

    /** Replaces one score; a score from the scale keeps the store in range and complete. */
    method HandleScoreChange(catId: string, kpiId: string, val: int)
      modifies this
      ensures scores == SetScore(old(scores), catId, kpiId, val)
      ensures openSection == old(openSection) && pdfLoading == old(pdfLoading)
      ensures 0 <= val <= 3 && old(ScoresInRange(scores)) ==> ScoresInRange(scores)
      ensures 0 <= val <= 3 && old(Complete(scores, Categories)) ==> Complete(scores, Categories)
      ensures 0 <= val <= 3 && old(Valid()) ==> Valid()
    {
      if 0 <= val <= 3 {
        SetScorePreserves(scores, Categories, catId, kpiId, val);
      }
      scores := SetScore(scores, catId, kpiId, val);
    }

    /** Reset, taking effect only when the user confirms the prompt. */
    method Reset(confirmed: bool)
      modifies this
      ensures confirmed ==> scores == Seed(Categories) && openSection == Section(Categories[0].id)
      ensures !confirmed ==> scores == old(scores) && openSection == old(openSection)
      ensures pdfLoading == old(pdfLoading)
      ensures old(Valid()) ==> Valid()
    {
      if confirmed {
        var initialScores := InitialScores(Categories);
        InitialStoreValid(initialScores);
        scores := initialScores;
        openSection := Section(Categories[0].id);
      }
    }

    method ToggleSection(catId: string)
      modifies this
      ensures openSection == Toggled(old(openSection), catId)
      ensures scores == old(scores) && pdfLoading == old(pdfLoading)
      ensures old(Valid()) ==> Valid()
    {
      openSection := Toggled(openSection, catId);
    }

    /**
      Print: save the section state, expand everything, print, restore.
      `printReturns` is false when `window.print` throws; nothing catches
      that, so the state then stays expanded. The result is the section
      state the print sees.
     */
    method HandlePrint(printReturns: bool) returns (shownDuringPrint: Visibility)
      requires !pdfLoading
      modifies this
      ensures shownDuringPrint == AllSections
      ensures printReturns ==> openSection == old(openSection)
      ensures !printReturns ==> openSection == AllSections
      ensures scores == old(scores) && pdfLoading == old(pdfLoading)
      ensures old(Valid()) ==> Valid()
    {
      var previousState := openSection;
      openSection := AllSections;
      shownDuringPrint := openSection;
      if printReturns {
        openSection := previousState;
      }
    }

    /**
      PDF export: mark busy, save the section state, expand everything,
      capture (which may fail and then raises an alert), and in every case
      clear the busy flag and restore the saved state. The results are the
      section state and busy flag the capture sees, and whether the failure
      alert was shown.
     */
    method HandleDownloadPdf(saveSucceeds: bool) returns (shownDuringCapture: Visibility, busyDuringCapture: bool, alerted: bool)
      requires !pdfLoading
      modifies this
      ensures shownDuringCapture == AllSections && busyDuringCapture
      ensures alerted <==> !saveSucceeds
      ensures !pdfLoading && openSection == old(openSection)
      ensures scores == old(scores)
      ensures old(Valid()) ==> Valid()
    {
      pdfLoading := true;
      var previousState := openSection;
      openSection := AllSections;
      shownDuringCapture, busyDuringCapture := openSection, pdfLoading;
      alerted := !saveSucceeds;
      pdfLoading := false;
      openSection := previousState;
    }
  }
}
