/**
 * The report list page's logic over the stored reports: the live search on
 * the holder's name or PAN, and the removal of a deleted report.
 */
module ReportList {
  import opened Strings
  import opened Seqs
  import opened ReportModel

  /** A report as the list receives it: its store identifier and its record. */
  datatype StoredReport = StoredReport(id: string, report: Report)

  /** The full name as the list shows it: first name, one space, last name. */
  function FullName(r: StoredReport): string {
    r.report.basic.firstName + " " + r.report.basic.lastName
  }

  /** The search test: the lower-cased term occurs in the lower-cased full name or PAN. */
  predicate Matches(r: StoredReport, term: string) {
    Contains(Lower(FullName(r)), Lower(term)) || Contains(Lower(r.report.basic.pan), Lower(term))
  }

  function MatchesTerm(term: string): StoredReport -> bool {
    (r: StoredReport) => Matches(r, term)
  }

  /** `filteredReports`: the reports that match the term, in list order. */
  function FilteredReports(reports: seq<StoredReport>, term: string): (r: seq<StoredReport>)
    ensures forall i :: 0 <= i < |r| ==> r[i] in reports && Matches(r[i], term)
    ensures forall i :: 0 <= i < |reports| && Matches(reports[i], term) ==> reports[i] in r
  {
    Filter(reports, MatchesTerm(term))
  }

  /** The search never reorders the list. */
  lemma SearchKeepsOrder(reports: seq<StoredReport>, term: string)
    ensures IsSubsequence(FilteredReports(reports, term), reports)
  {
    FilterIsSubsequence(reports, MatchesTerm(term));
  }

  /** An empty search box shows every report. */
  lemma EmptySearchShowsAll(reports: seq<StoredReport>)
    ensures FilteredReports(reports, "") == reports
  {
    assert Lower("") == "";
    forall i | 0 <= i < |reports| ensures MatchesTerm("")(reports[i]) {
      ContainsEmpty(Lower(FullName(reports[i])));
    }
    FilterAll(reports, MatchesTerm(""));
  }

  /** The search ignores the case of the term: upper- or lower-casing it selects the same reports. */
  lemma SearchIgnoresCase(reports: seq<StoredReport>, term: string)
    ensures FilteredReports(reports, Upper(term)) == FilteredReports(reports, term)
    ensures FilteredReports(reports, Lower(term)) == FilteredReports(reports, term)
  {
    LowerUpper(term);
    LowerLower(term);
    FilterCongruent(reports, MatchesTerm(Upper(term)), MatchesTerm(term));
    FilterCongruent(reports, MatchesTerm(Lower(term)), MatchesTerm(term));
  }

  /** Typing more characters only narrows the list: a report shown for term + more is shown for term. */
  lemma LongerTermNarrows(reports: seq<StoredReport>, term: string, more: string)
    ensures forall r :: r in FilteredReports(reports, term + more) ==> r in FilteredReports(reports, term)
  {
    LowerConcat(term, more);
    forall r | r in FilteredReports(reports, term + more) ensures r in FilteredReports(reports, term) {
      var i :| 0 <= i < |FilteredReports(reports, term + more)| && FilteredReports(reports, term + more)[i] == r;
      assert r in reports && Matches(r, term + more);
      if Contains(Lower(FullName(r)), Lower(term) + Lower(more)) {
        ContainsPrefix(Lower(FullName(r)), Lower(term), Lower(more));
      } else {
        ContainsPrefix(Lower(r.report.basic.pan), Lower(term), Lower(more));
      }
      var k :| 0 <= k < |reports| && reports[k] == r;
      assert Matches(reports[k], term);
    }
  }

  /** A report whose PAN holds the term, in any case, is kept. */
  lemma PanMatchKept(reports: seq<StoredReport>, term: string, k: nat)
    requires k < |reports| && Contains(Lower(reports[k].report.basic.pan), Lower(term))
    ensures reports[k] in FilteredReports(reports, term)
  {
  }

  function KeepsOther(id: string): StoredReport -> bool {
    (r: StoredReport) => r.id != id
  }

  /** `setReports(prev => prev.filter(r => r._id !== id))`. */
  function DeleteReport(reports: seq<StoredReport>, id: string): (r: seq<StoredReport>)
    ensures forall i :: 0 <= i < |r| ==> r[i] in reports && r[i].id != id
    ensures forall i :: 0 <= i < |reports| && reports[i].id != id ==> reports[i] in r
  {
    Filter(reports, KeepsOther(id))
  }

  /** After a delete no listed report has the deleted id, and every other report is listed as often as before. */
  lemma DeleteRemovesOnlyThatId(reports: seq<StoredReport>, id: string, x: StoredReport)
    ensures multiset(DeleteReport(reports, id))[x] == if x.id == id then 0 else multiset(reports)[x]
  {
    FilterCount(reports, KeepsOther(id), x);
  }

  /** The remaining reports stay in their order. */
  lemma DeleteKeepsOrder(reports: seq<StoredReport>, id: string)
    ensures IsSubsequence(DeleteReport(reports, id), reports)
  {
    FilterIsSubsequence(reports, KeepsOther(id));
  }

  /** Deleting an id the list does not hold changes nothing. */
  lemma DeleteAbsentId(reports: seq<StoredReport>, id: string)
    requires forall i :: 0 <= i < |reports| ==> reports[i].id != id
    ensures DeleteReport(reports, id) == reports
  {
    FilterAll(reports, KeepsOther(id));
  }

  /** Deleting the same id twice is deleting it once. */
  lemma DeleteIdempotent(reports: seq<StoredReport>, id: string)
    ensures DeleteReport(DeleteReport(reports, id), id) == DeleteReport(reports, id)
  {
    FilterIdempotent(reports, KeepsOther(id));
  }

  /** With distinct ids, deleting the id of report k removes exactly that entry. */
  lemma DeleteUniqueId(reports: seq<StoredReport>, k: nat)
    requires k < |reports|
    requires forall i, j :: 0 <= i < j < |reports| ==> reports[i].id != reports[j].id
    ensures DeleteReport(reports, reports[k].id) == reports[..k] + reports[k + 1..]
  {
    var id := reports[k].id;
    var p := KeepsOther(id);
    var before, after := reports[..k], reports[k + 1..];
    assert reports == (before + [reports[k]]) + after;
    forall i | 0 <= i < |before| ensures p(before[i]) {
      assert before[i] == reports[i];
    }
    forall i | 0 <= i < |after| ensures p(after[i]) {
      assert after[i] == reports[k + 1 + i];
    }
    FilterAll(before, p);
    FilterAll(after, p);
    FilterEmpty([reports[k]], p);
    FilterConcat(before, [reports[k]], p);
    FilterConcat(before + [reports[k]], after, p);
    assert Filter(before + [reports[k]], p) == before;
  }
}
