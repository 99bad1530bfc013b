/**
 * The report builder (internal/chartverifier/report.go). A report owns a
 * sequence of check-report handles; AddCheck appends a new handle and
 * returns it, and SetResult through that handle changes the appended entry
 * in place, which is how the check runner records each outcome.
 */
module ReportBuilder {

  import opened Common
  import opened ReportTypes

  const ReportApiVersion := "v1"
  const ReportKind := "verify-report"

  datatype CheckId = CheckId(name: string, version: string)

  /** A catalog check as the builder sees it: its identity and its type. */
  datatype Check = Check(checkId: CheckId, checkType: CheckType)

  /** The check name a report entry carries: "<version>/<name>". */
  function EntryName(id: CheckId): (s: string)
    ensures |s| == |id.version| + 1 + |id.name|
    ensures s[..|id.version|] == id.version && s[|id.version|] == '/' && s[|id.version| + 1..] == id.name
  {
    id.version + "/" + id.name
  }

  /** A handle on one entry of a report's results. */
  class InternalCheckReport {
    var entry: CheckReport

    constructor (entry: CheckReport)
      ensures this.entry == entry
    {
      this.entry := entry;
    }

    /** Records the outcome (Pass for true, Fail for false) and the reason;
        the check name and type stay as they were. */
    method SetResult(outcome: bool, reason: string)
      modifies this
      ensures entry.check == old(entry.check) && entry.checkType == old(entry.checkType)
      ensures entry.outcome != Unknown && (entry.outcome == Pass <==> outcome)
      ensures entry.reason == reason
    {
      if outcome {
        entry := entry.(outcome := Pass);
      } else {
        entry := entry.(outcome := Fail);
      }
      entry := entry.(reason := reason);
    }
  }

  /** The current entries behind a sequence of handles. */
  function Entries(hs: seq<InternalCheckReport>): (es: seq<CheckReport>)
    reads set h | h in hs
    ensures |es| == |hs|
    ensures forall i :: 0 <= i < |hs| ==> es[i] == hs[i].entry
  {
    if hs == [] then [] else Entries(hs[..|hs| - 1]) + [hs[|hs| - 1].entry]
  }

  class InternalReport {
    var apiVersion: string
    var kind: string
    var metadata: ReportMetadata
    var results: seq<InternalCheckReport>

    /** Every entry has its own handle. */
    ghost predicate Valid()
      reads this
    {
      Distinct(results)
    }

    /** newReport: the fixed API version and kind, empty metadata, no results. */
    constructor ()
      ensures Valid()
      ensures apiVersion == ReportApiVersion && kind == ReportKind
      ensures metadata == EmptyMetadata && results == []
    {
      apiVersion := ReportApiVersion;
      kind := ReportKind;
      metadata := EmptyMetadata;
      results := [];
    }

    /** The report as the API sees it (GetApiReport): every entry as its
        handle currently holds it. */
    function ApiReport(): (r: ReportTypes.Report)
      reads this, set h | h in results
      ensures r.apiVersion == apiVersion && r.kind == kind && r.metadata == metadata
      ensures |r.results| == |results|
      ensures forall i :: 0 <= i < |results| ==> r.results[i] == results[i].entry
    {
      ReportTypes.Report(apiVersion, kind, metadata, Entries(results))
    }

    /** AddCheck appends exactly one fresh entry, named "<version>/<name>",
        with the check's type, outcome Unknown and no reason; earlier
        entries are untouched and nothing is deduplicated. */
    method AddCheck(check: Check) returns (h: InternalCheckReport)
      requires Valid()
      modifies this`results
      ensures Valid()
      ensures fresh(h)
      ensures results == old(results) + [h]
      ensures h.entry == CheckReport(EntryName(check.checkId), check.checkType, Unknown, "")
      ensures ApiReport().results == old(ApiReport().results) + [h.entry]
    {
      h := new InternalCheckReport(CheckReport(EntryName(check.checkId), check.checkType, Unknown, ""));
      results := results + [h];
    }
  }

  /** The entry SetResult leaves behind, as a value. */
  function Recorded(e: CheckReport, outcome: bool, reason: string): CheckReport
  {
    e.(outcome := if outcome then Pass else Fail, reason := reason)
  }

  /** Setting a result through the handle of entry i changes entry i of the
      report and no other entry, and nothing else in the report. */
  method SetResultAt(r: InternalReport, i: nat, outcome: bool, reason: string)
    requires r.Valid() && i < |r.results|
    modifies r.results[i]
    ensures r.Valid()
    ensures r.ApiReport() == old(r.ApiReport()).(results := old(r.ApiReport().results)[i := Recorded(old(r.results[i].entry), outcome, reason)])
  {
    r.results[i].SetResult(outcome, reason);
  }

  /** How the check runner uses the builder: add the check, then record its
      outcome through the returned handle. The report gains exactly that one
      completed entry at the end. */
  method RecordCheck(r: InternalReport, check: Check, outcome: bool, reason: string)
    requires r.Valid()
    modifies r`results
    ensures r.Valid()
    ensures |r.results| == |old(r.results)| + 1
    ensures r.ApiReport().results ==
              old(r.ApiReport().results) + [CheckReport(EntryName(check.checkId), check.checkType, if outcome then Pass else Fail, reason)]
  {
    var h := r.AddCheck(check);
    h.SetResult(outcome, reason);
  }
}
