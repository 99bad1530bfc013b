/**
 * The report summarizer (pkg/chartverifier/reportsummary/reportSummary.go):
 * it derives four sub-summaries of a verification report (metadata, digests,
 * the mandatory-check tally and the annotations), caches them until a new
 * report is set, and returns one of them or all of them in a chosen format.
 */
module ReportSummary {

  import opened Common
  import opened ReportTypes
  import opened Profiles

  const AnnotationsPrefixConfigName := "annotations.prefix"
  const DefaultAnnotationsPrefix := "charts.openshift.io"

  const DigestsAnnotationName := "digest"
  const LastCertifiedTimestampAnnotationName := "lastCertifiedTimestamp"
  const CertifiedOCPVersionsAnnotationName := "certifiedOpenShiftVersions"
  const TestedOCPVersionAnnotationName := "testedOpenShiftVersion"
  const SupportedOCPVersionsAnnotationName := "supportedOpenShiftVersions"

  const MetadataSummary := "metadata"
  const DigestsSummary := "digests"
  const ResultsSummary := "results"
  const AnnotationsSummary := "annotations"

  datatype Annotation = Annotation(name: string, value: string)

  datatype DigestReport = DigestReport(chartDigest: string, packageDigest: string)

  datatype MetadataReport = MetadataReport(
    profileVendorType: string,
    profileVersion: string,
    chartUri: string,
    chart: Option<ChartMetadata>,
    providerDelivery: bool)

  /** The tally of mandatory checks; the counts are decimal text. */
  datatype ResultsReport = ResultsReport(passed: string, failed: string, messages: seq<string>)

  /** What GetContent hands to the encoder: the format and the parts selected. */
  datatype SummaryOutput = SummaryOutput(
    format: Format,
    metadata: Option<MetadataReport>,
    digests: Option<DigestReport>,
    results: Option<ResultsReport>,
    annotations: seq<Annotation>)

  // ---------------------------------------------------------------------
  // Annotations

  /** The prefix for annotation names: the configured one if any, else the default. */
  function AnnotationPrefix(values: map<string, string>): string
  {
    if AnnotationsPrefixConfigName in values then values[AnnotationsPrefixConfigName] else DefaultAnnotationsPrefix
  }

  /** The five annotation candidates, in emission order: a name suffix and a
      value from the report's tool metadata. */
  function Candidates(tool: ToolMetadata): seq<(string, string)>
  {
    [ (DigestsAnnotationName, tool.digests.chart),
      (LastCertifiedTimestampAnnotationName, tool.lastCertifiedTimestamp),
      (CertifiedOCPVersionsAnnotationName, tool.certifiedOpenShiftVersions),
      (TestedOCPVersionAnnotationName, tool.testedOpenShiftVersion),
      (SupportedOCPVersionsAnnotationName, tool.supportedOpenShiftVersions) ]
  }

  /** The candidates with a non-empty value, as "prefix/suffix" annotations,
      in candidate order. */
  function Keep(prefix: string, cs: seq<(string, string)>): (kept: seq<Annotation>)
    ensures |kept| <= |cs|
  {
    if cs == [] then [] else Emit(prefix, cs[0]) + Keep(prefix, cs[1..])
  }

  /** The annotation one candidate contributes: none when its value is empty. */
  function Emit(prefix: string, c: (string, string)): seq<Annotation>
  {
    if c.1 != "" then [Annotation(prefix + "/" + c.0, c.1)] else []
  }

  lemma KeepStep(prefix: string, cs: seq<(string, string)>, k: nat)
    requires k < |cs|
    ensures Keep(prefix, cs[k..]) == Emit(prefix, cs[k]) + Keep(prefix, cs[k + 1..])
  {
    assert cs[k..][1..] == cs[k + 1..];
  }

  /** Keep over five candidates, written out. */
  lemma KeepFive(prefix: string, cs: seq<(string, string)>)
    requires |cs| == 5
    ensures Keep(prefix, cs) == Emit(prefix, cs[0]) + Emit(prefix, cs[1]) + Emit(prefix, cs[2]) + Emit(prefix, cs[3]) + Emit(prefix, cs[4])
  {
    KeepStep(prefix, cs, 0);
    KeepStep(prefix, cs, 1);
    KeepStep(prefix, cs, 2);
    KeepStep(prefix, cs, 3);
    KeepStep(prefix, cs, 4);
    assert cs[5..] == [];
  }

  function AnnotationsOf(prefix: string, tool: ToolMetadata): seq<Annotation>
  {
    Keep(prefix, Candidates(tool))
  }

  /** Every annotation kept comes from a candidate with a non-empty value. */
  lemma {:induction false} KeepSound(prefix: string, cs: seq<(string, string)>, a: Annotation)
    requires a in Keep(prefix, cs)
    ensures a.value != ""
    ensures exists c :: c in cs && a == Annotation(prefix + "/" + c.0, c.1)
  {
    if a !in Emit(prefix, cs[0]) {
      KeepSound(prefix, cs[1..], a);
      var c :| c in cs[1..] && a == Annotation(prefix + "/" + c.0, c.1);
      assert c in cs;
    }
  }

  /** Every candidate with a non-empty value is kept. */
  lemma {:induction false} KeepComplete(prefix: string, cs: seq<(string, string)>, c: (string, string))
    requires c in cs && c.1 != ""
    ensures Annotation(prefix + "/" + c.0, c.1) in Keep(prefix, cs)
  {
    if cs[0] != c {
      KeepComplete(prefix, cs[1..], c);
    }
  }

  /** Nothing is kept exactly when every candidate value is empty. */
  lemma {:induction false} KeepEmptyIff(prefix: string, cs: seq<(string, string)>)
    ensures Keep(prefix, cs) == [] <==> forall i :: 0 <= i < |cs| ==> cs[i].1 == ""
  {
    if cs != [] {
      KeepEmptyIff(prefix, cs[1..]);
      assert forall i :: 1 <= i < |cs| ==> cs[i] == cs[1..][i - 1];
    }
  }

  /** The annotations are empty exactly when the report has none of the five
      tool-metadata values; then the cached annotation list stays empty. */
  lemma AnnotationsEmptyIff(prefix: string, tool: ToolMetadata)
    ensures AnnotationsOf(prefix, tool) == [] <==>
              tool.digests.chart == "" && tool.lastCertifiedTimestamp == "" && tool.certifiedOpenShiftVersions == ""
              && tool.testedOpenShiftVersion == "" && tool.supportedOpenShiftVersions == ""
  {
    var cs := Candidates(tool);
    KeepEmptyIff(prefix, cs);
    if AnnotationsOf(prefix, tool) == [] {
      assert cs[0].1 == "" && cs[1].1 == "" && cs[2].1 == "" && cs[3].1 == "" && cs[4].1 == "";
    }
  }

  // ---------------------------------------------------------------------
  // Digests and metadata

  function DigestsOf(report: Report): (d: DigestReport)
  {
    DigestReport(report.metadata.tool.digests.chart, report.metadata.tool.digests.package)
  }

  /** The metadata summary copies the report's values; no configured value overrides them. */
  function MetadataOf(report: Report): (m: MetadataReport)
  {
    var tool := report.metadata.tool;
    MetadataReport(tool.profile.vendorType, tool.profile.version, tool.chartUri, report.metadata.chartData, tool.providerDelivery)
  }

  // ---------------------------------------------------------------------
  // The results tally

  /** The profile the tally uses: each of vendor type and version is the
      configured value when present and non-empty, else the report's. */
  function EffectiveProfile(profiles: ProfileSource, values: map<string, string>, reported: Profile): (p: Profile)
    ensures p.vendorType == (if profiles.vendorTypeKey in values && values[profiles.vendorTypeKey] != ""
                             then values[profiles.vendorTypeKey] else reported.vendorType)
    ensures p.version == (if profiles.versionKey in values && values[profiles.versionKey] != ""
                          then values[profiles.versionKey] else reported.version)
    ensures p.vendorType == "" ==> reported.vendorType == ""
    ensures p.version == "" ==> reported.version == ""
  {
    var vendorType :=
      if profiles.vendorTypeKey in values && |values[profiles.vendorTypeKey]| > 0
      then values[profiles.vendorTypeKey] else reported.vendorType;
    var version :=
      if profiles.versionKey in values && |values[profiles.versionKey]| > 0
      then values[profiles.versionKey] else reported.version;
    Profile(vendorType, version)
  }

  /** The first report entry for the named check, if any. */
  function FirstMatch(name: string, results: seq<CheckReport>): (m: Option<CheckReport>)
    ensures m.None? <==> forall i :: 0 <= i < |results| ==> results[i].check != name
    ensures m.Some? ==> m.value in results && m.value.check == name
  {
    if results == [] then None
    else if results[0].check == name then Some(results[0])
    else FirstMatch(name, results[1..])
  }

  /** An entry preceded by no entry of the same name is the first match. */
  lemma {:induction false} FirstMatchAt(name: string, results: seq<CheckReport>, j: nat)
    requires j < |results| && results[j].check == name
    requires forall k :: 0 <= k < j ==> results[k].check != name
    ensures FirstMatch(name, results) == Some(results[j])
  {
    if j > 0 {
      FirstMatchAt(name, results[1..], j - 1);
    }
  }

  /** strings.TrimRight with a one-character cutset: drop every trailing c. */
  function TrimTrailing(s: string, c: char): (r: string)
    ensures |r| <= |s| && r == s[..|r|]
    ensures r == [] || r[|r| - 1] != c
    ensures forall i :: |r| <= i < |s| ==> s[i] == c
  {
    if s != [] && s[|s| - 1] == c then TrimTrailing(s[..|s| - 1], c) else s
  }

  /** strings.ReplaceAll for a one-character pattern. */
  function ReplaceChar(s: string, c: char, replacement: string): (r: string)
    ensures c !in replacement ==> c !in r
    ensures c !in s ==> r == s
  {
    if s == [] then []
    else (if s[0] == c then replacement else [s[0]]) + ReplaceChar(s[1..], c, replacement)
  }

  /** Replacing distributes over concatenation. */
  lemma {:induction false} ReplaceCharAppend(a: string, b: string, c: char, replacement: string)
    ensures ReplaceChar(a + b, c, replacement) == ReplaceChar(a, c, replacement) + ReplaceChar(b, c, replacement)
  {
    if a != [] {
      ReplaceCharAppend(a[1..], b, c, replacement);
      assert (a + b)[1..] == a[1..] + b;
      assert (a + b)[0] == a[0];
    } else {
      assert a + b == b;
    }
  }

  /** Each occurrence of the character becomes the replacement ... */
  lemma ReplaceCharHit(c: char, replacement: string)
    ensures ReplaceChar([c], c, replacement) == replacement
  {
    assert [c][1..] == [];
  }

  /** ... and every other character is kept. */
  lemma ReplaceCharMiss(x: char, c: char, replacement: string)
    requires x != c
    ensures ReplaceChar([x], c, replacement) == [x]
  {
    assert [x][1..] == [];
  }

  /** A failure reason made single-line: trailing newlines dropped, inner ones turned into ", ". */
  function Flatten(reason: string): (line: string)
    ensures '\n' !in line
    ensures '\n' !in reason ==> line == reason
  {
    var trimmed := TrimTrailing(reason, '\n');
    assert '\n' !in reason ==> trimmed == reason;
    ReplaceChar(trimmed, '\n', ", ")
  }

  /** A trailing newline makes no difference to the flattened reason. */
  lemma FlattenTrailingNewline(s: string)
    ensures Flatten(s + "\n") == Flatten(s)
  {
    assert (s + "\n")[..|s|] == s;
    assert TrimTrailing(s + "\n", '\n') == TrimTrailing(s, '\n');
  }

  /** Inner newlines become ", " and the text around them is kept:
      two lines joined by a newline flatten to the lines joined by ", ". */
  lemma FlattenJoinsLines(a: string, b: string)
    requires '\n' !in a && '\n' !in b && b != []
    ensures Flatten(a + "\n" + b) == a + ", " + b
  {
    var s := a + "\n" + b;
    assert s[|s| - 1] == b[|b| - 1];
    assert TrimTrailing(s, '\n') == s;
    ReplaceCharAppend(a + "\n", b, '\n', ", ");
    ReplaceCharAppend(a, "\n", '\n', ", ");
    ReplaceCharHit('\n', ", ");
  }

  /** Two lines with a trailing newline flatten to the lines joined by ", ". */
  lemma FlattenTwoLines(a: string, b: string)
    requires '\n' !in a && '\n' !in b && b != []
    ensures Flatten(a + "\n" + b + "\n") == a + ", " + b
  {
    FlattenTrailingNewline(a + "\n" + b);
    FlattenJoinsLines(a, b);
  }

  /** "bad\nimage\n" flattens to "bad, image". */
  lemma FlattenExample()
    ensures Flatten("bad\nimage\n") == "bad, image"
  {
    var a, b := "bad", "image";
    assert '\n' !in a && '\n' !in b;
    FlattenTwoLines(a, b);
    assert a + "\n" + b + "\n" == "bad\nimage\n";
    assert a + ", " + b == "bad, image";
  }

  function MissingMessage(name: string): string
  {
    "Missing mandatory check : " + name
  }

  datatype Tally = Tally(passed: nat, failed: nat, messages: seq<string>)

  /** The tally over a profile's check list: each mandatory check counts as
      passed when its first report entry passed, otherwise as failed with a
      message (the flattened reason, or a missing-check message). */
  function TallySpec(checks: seq<ProfileCheck>, results: seq<CheckReport>): Tally
  {
    if checks == [] then Tally(0, 0, [])
    else
      var t := TallySpec(checks[..|checks| - 1], results);
      var c := checks[|checks| - 1];
      if c.checkType != Mandatory then t
      else match FirstMatch(c.name, results)
        case None => Tally(t.passed, t.failed + 1, t.messages + [MissingMessage(c.name)])
        case Some(e) =>
          if e.outcome == Pass then Tally(t.passed + 1, t.failed, t.messages)
          else Tally(t.passed, t.failed + 1, t.messages + [Flatten(e.reason)])
  }

  /** Every mandatory check is counted once, and there is one message per failure. */
  lemma {:induction false} TallyCounts(checks: seq<ProfileCheck>, results: seq<CheckReport>)
    ensures TallySpec(checks, results).passed + TallySpec(checks, results).failed == CountMandatory(checks)
    ensures |TallySpec(checks, results).messages| == TallySpec(checks, results).failed
  {
    if checks != [] {
      TallyCounts(checks[..|checks| - 1], results);
    }
  }

  /** Nothing fails exactly when every mandatory check has a first report entry that passed. */
  lemma {:induction false} TallyNoFailureIff(checks: seq<ProfileCheck>, results: seq<CheckReport>)
    ensures TallySpec(checks, results).failed == 0 <==>
              forall i :: 0 <= i < |checks| && checks[i].checkType == Mandatory ==>
                FirstMatch(checks[i].name, results).Some? && FirstMatch(checks[i].name, results).value.outcome == Pass
  {
    if checks != [] {
      var n := |checks| - 1;
      TallyNoFailureIff(checks[..n], results);
      assert forall i :: 0 <= i < n ==> checks[..n][i] == checks[i];
    }
  }

  /** Every message is a failed entry's flattened reason or the missing-check
      message of a mandatory check. */
  lemma {:induction false} TallyMessagesExplained(checks: seq<ProfileCheck>, results: seq<CheckReport>)
    ensures forall m :: m in TallySpec(checks, results).messages ==>
              || (exists e :: e in results && e.outcome != Pass && m == Flatten(e.reason))
              || (exists c :: c in checks && c.checkType == Mandatory && m == MissingMessage(c.name))
  {
    if checks != [] {
      var n := |checks| - 1;
      TallyMessagesExplained(checks[..n], results);
      assert forall c :: c in checks[..n] ==> c in checks;
    }
  }

  /** Optional checks never affect the tally. */
  lemma {:induction false} TallyIgnoresOptional(checks: seq<ProfileCheck>, results: seq<CheckReport>, c: ProfileCheck)
    requires c.checkType == Optional
    ensures TallySpec(checks + [c], results) == TallySpec(checks, results)
  {
    assert (checks + [c])[..|checks|] == checks;
  }

  /** An optional check anywhere in the profile never affects the tally. */
  lemma {:induction false} TallyIgnoresOptionalAnywhere(a: seq<ProfileCheck>, c: ProfileCheck, b: seq<ProfileCheck>,
                                                        results: seq<CheckReport>)
    requires c.checkType == Optional
    ensures TallySpec(a + [c] + b, results) == TallySpec(a + b, results)
  {
    if b == [] {
      assert a + [c] + b == a + [c];
      assert a + b == a;
      TallyIgnoresOptional(a, results, c);
    } else {
      var n := |b| - 1;
      TallyIgnoresOptionalAnywhere(a, c, b[..n], results);
      var left, right := a + [c] + b, a + b;
      assert left[..|left| - 1] == a + [c] + b[..n];
      assert right[..|right| - 1] == a + b[..n];
      assert left[|left| - 1] == b[n] == right[|right| - 1];
    }
  }

  /** The messages of a profile's prefix are a prefix of its messages. */
  lemma {:induction false} TallyMessagesGrow(checks: seq<ProfileCheck>, k: nat, results: seq<CheckReport>)
    requires k <= |checks|
    ensures TallySpec(checks[..k], results).messages <= TallySpec(checks, results).messages
  {
    if k < |checks| {
      var n := |checks| - 1;
      assert checks[..n][..k] == checks[..k];
      TallyMessagesGrow(checks[..n], k, results);
    } else {
      assert checks[..k] == checks;
    }
  }

  /** A mandatory check without a report entry always leaves its
      missing-check message. */
  lemma TallyReportsMissing(checks: seq<ProfileCheck>, i: nat, results: seq<CheckReport>)
    requires i < |checks| && checks[i].checkType == Mandatory
    requires FirstMatch(checks[i].name, results).None?
    ensures MissingMessage(checks[i].name) in TallySpec(checks, results).messages
  {
    var prefix := checks[..i + 1];
    assert prefix[..i] == checks[..i];
    TallyMessagesGrow(checks, i + 1, results);
    assert MissingMessage(checks[i].name) in TallySpec(prefix, results).messages;
  }

  /** A mandatory check whose first report entry did not pass always leaves
      that entry's flattened reason. */
  lemma TallyReportsFailure(checks: seq<ProfileCheck>, i: nat, results: seq<CheckReport>)
    requires i < |checks| && checks[i].checkType == Mandatory
    requires FirstMatch(checks[i].name, results).Some?
    requires FirstMatch(checks[i].name, results).value.outcome != Pass
    ensures Flatten(FirstMatch(checks[i].name, results).value.reason) in TallySpec(checks, results).messages
  {
    var prefix := checks[..i + 1];
    assert prefix[..i] == checks[..i];
    TallyMessagesGrow(checks, i + 1, results);
    assert Flatten(FirstMatch(checks[i].name, results).value.reason) in TallySpec(prefix, results).messages;
  }

  /** The tally loop of addResults: for each mandatory profile check, the
      first report entry with that name decides pass or fail; a check with
      no entry fails as missing. */
  method TallyResults(checks: seq<ProfileCheck>, results: seq<CheckReport>) returns (t: Tally)
    ensures t == TallySpec(checks, results)
  {
    var passed, failed := 0, 0;
    var messages: seq<string> := [];
    for i := 0 to |checks|
      invariant Tally(passed, failed, messages) == TallySpec(checks[..i], results)
    {
      assert checks[..i + 1][..i] == checks[..i];
      var profileCheck := checks[i];
      if profileCheck.checkType == Mandatory {
        var found := false;
        var j := 0;
        while j < |results|
          invariant 0 <= j <= |results|
          invariant !found ==> forall k :: 0 <= k < j ==> results[k].check != profileCheck.name
          invariant !found ==> Tally(passed, failed, messages) == TallySpec(checks[..i], results)
          invariant found ==> Tally(passed, failed, messages) == TallySpec(checks[..i + 1], results)
        {
          if profileCheck.name == results[j].check {
            found := true;
            FirstMatchAt(profileCheck.name, results, j);
            if results[j].outcome == Pass {
              passed := passed + 1;
            } else {
              failed := failed + 1;
              var reason := ReplaceChar(TrimTrailing(results[j].reason, '\n'), '\n', ", ");
              messages := messages + [reason];
            }
            break;
          }
          j := j + 1;
        }
        if !found {
          failed := failed + 1;
          messages := messages + [MissingMessage(profileCheck.name)];
        }
      }
    }
    assert checks[..|checks|] == checks;
    t := Tally(passed, failed, messages);
  }

  // ---------------------------------------------------------------------
  // Decimal text of the counts (fmt's %d on a non-negative int)

  function Digit(d: nat): char
    requires d < 10
  {
    ('0' as int + d) as char
  }

  function DecimalString(n: nat): (s: string)
    ensures |s| >= 1
    ensures forall i :: 0 <= i < |s| ==> '0' <= s[i] <= '9'
    ensures s[0] == '0' ==> n == 0
  {
    if n < 10 then [Digit(n)] else DecimalString(n / 10) + [Digit(n % 10)]
  }

  /** Reads decimal digits back into a number. */
  function ParseDecimal(s: string): nat
    requires forall i :: 0 <= i < |s| ==> '0' <= s[i] <= '9'
  {
    if s == [] then 0 else ParseDecimal(s[..|s| - 1]) * 10 + (s[|s| - 1] as int - '0' as int)
  }

  /** The decimal text of a count reads back as that count. */
  lemma {:induction false} DecimalRoundTrip(n: nat)
    ensures ParseDecimal(DecimalString(n)) == n
  {
    var s := DecimalString(n);
    if n >= 10 {
      var q, d := n / 10, n % 10;
      DecimalRoundTrip(q);
      assert s == DecimalString(q) + [Digit(d)];
      assert s[..|s| - 1] == DecimalString(q);
      assert n == q * 10 + d;
    }
  }

  /** The results summary for a report under the configured values. */
  function ResultsOf(profiles: ProfileSource, values: map<string, string>, report: Report): ResultsReport
  {
    var p := EffectiveProfile(profiles, values, report.metadata.tool.profile);
    var t := TallySpec(profiles.checksOf(p.vendorType, p.version), report.results);
    ResultsReport(DecimalString(t.passed), DecimalString(t.failed), t.messages)
  }

  /** The output GetContent selects: one part for "metadata", "digests",
      "results" or "annotations", every part for any other kind. */
  function Select(kind: string, format: Format, m: Option<MetadataReport>, d: Option<DigestReport>,
                  r: Option<ResultsReport>, a: seq<Annotation>): (out: SummaryOutput)
    ensures out.format == format
    ensures kind == MetadataSummary ==> out == SummaryOutput(format, m, None, None, [])
    ensures kind == DigestsSummary ==> out == SummaryOutput(format, None, d, None, [])
    ensures kind == ResultsSummary ==> out == SummaryOutput(format, None, None, r, [])
    ensures kind == AnnotationsSummary ==> out == SummaryOutput(format, None, None, None, a)
    ensures kind !in {MetadataSummary, DigestsSummary, ResultsSummary, AnnotationsSummary} ==>
              out == SummaryOutput(format, m, d, r, a)
  {
    if kind == MetadataSummary then SummaryOutput(format, m, None, None, [])
    else if kind == DigestsSummary then SummaryOutput(format, None, d, None, [])
    else if kind == ResultsSummary then SummaryOutput(format, None, None, r, [])
    else if kind == AnnotationsSummary then SummaryOutput(format, None, None, None, a)
    else SummaryOutput(format, m, d, r, a)
  }

  // ---------------------------------------------------------------------
  // The summarizer

  class Summarizer {
    const profiles: ProfileSource
    var report: Option<Report>
    var values: map<string, string>
    var annotationsReport: seq<Annotation>   // Go's list is nil exactly when empty; see NeedsSummary
    var digestsReport: Option<DigestReport>
    var metadataReport: Option<MetadataReport>
    var resultsReport: Option<ResultsReport>
    /** The values the cached summaries were computed with. */
    ghost var computedWith: map<string, string>

    /** The cached summaries of `report` under `vals`. */
    ghost predicate Summarised(report: Report, vals: map<string, string>)
      reads this`digestsReport, this`metadataReport, this`resultsReport, this`annotationsReport
    {
      && digestsReport == Some(DigestsOf(report))
      && metadataReport == Some(MetadataOf(report))
      && resultsReport == Some(ResultsOf(profiles, vals, report))
      && annotationsReport == AnnotationsOf(AnnotationPrefix(vals), report.metadata.tool)
    }

    /** The three pointer caches are set together, only from an attached
        report, and then hold its summaries; otherwise nothing is cached. */
    ghost predicate Valid()
      reads this`report, this`computedWith, this`digestsReport, this`metadataReport, this`resultsReport,
            this`annotationsReport
    {
      && digestsReport.Some? == metadataReport.Some?
      && metadataReport.Some? == resultsReport.Some?
      && (digestsReport.None? ==> annotationsReport == [])
      && (digestsReport.Some? ==> report.Some? && Summarised(report.value, computedWith))
    }

    /** GetContent regenerates when any cache is absent (an empty annotation list counts as absent). */
    predicate NeedsSummary()
      reads this`digestsReport, this`metadataReport, this`resultsReport, this`annotationsReport
    {
      metadataReport.None? || resultsReport.None? || annotationsReport == [] || digestsReport.None?
    }

    /** NewReportSummary: no report, no values, nothing cached. */
    constructor (profiles: ProfileSource)
      ensures Valid()
      ensures this.profiles == profiles && report == None && values == map[]
      ensures annotationsReport == [] && digestsReport == None && metadataReport == None && resultsReport == None
    {
      this.profiles := profiles;
      report := None;
      values := map[];
      annotationsReport := [];
      digestsReport := None;
      metadataReport := None;
      resultsReport := None;
      computedWith := map[];
    }

    /** SetReport stores the report (possibly none) and drops every cached summary. */
    method SetReport(r: Option<Report>)
      modifies this`report, this`annotationsReport, this`digestsReport, this`metadataReport, this`resultsReport
      ensures Valid()
      ensures report == r
      ensures annotationsReport == [] && digestsReport == None && metadataReport == None && resultsReport == None
    {
      report := r;
      annotationsReport := [];
      digestsReport := None;
      metadataReport := None;
      resultsReport := None;
    }

    /** SetValues adds the supplied entries, a supplied key replacing the old
        value; the cached summaries are left as they are. */
    method SetValues(supplied: map<string, string>)
      modifies this`values
      ensures values == old(values) + supplied
    {
      var pending := supplied.Keys;
      ghost var done: map<string, string> := map[];
      while pending != {}
        invariant pending <= supplied.Keys
        invariant done.Keys == supplied.Keys - pending
        invariant forall k :: k in done ==> done[k] == supplied[k]
        invariant values == old(values) + done
        decreases pending
      {
        var k :| k in pending;
        values := values[k := supplied[k]];
        done := done[k := supplied[k]];
        pending := pending - {k};
      }
      assert done == supplied;
    }

    /** addAnnotations appends, in order, one "prefix/name" annotation for
        each non-empty value among the five tool-metadata fields. */
    method AddAnnotations()
      requires report.Some?
      modifies this`annotationsReport
      ensures annotationsReport == old(annotationsReport) + AnnotationsOf(AnnotationPrefix(values), report.value.metadata.tool)
    {
      var prefix := DefaultAnnotationsPrefix;
      if AnnotationsPrefixConfigName in values {
        prefix := values[AnnotationsPrefixConfigName];
      }
      AppendFive(prefix, Candidates(report.value.metadata.tool));
    }

    /** The five blocks of addAnnotations, one per candidate, in order. */
    method AppendFive(prefix: string, cs: seq<(string, string)>)
      requires |cs| == 5
      modifies this`annotationsReport
      ensures annotationsReport == old(annotationsReport) + Keep(prefix, cs)
    {
      KeepFive(prefix, cs);
      ghost var start := annotationsReport;
      AppendIfSet(prefix, cs[0]);
      AppendIfSet(prefix, cs[1]);
      AppendIfSet(prefix, cs[2]);
      AppendIfSet(prefix, cs[3]);
      ghost var a4 := annotationsReport;
      AppendIfSet(prefix, cs[4]);
      assert a4 == start + Emit(prefix, cs[0]) + Emit(prefix, cs[1]) + Emit(prefix, cs[2]) + Emit(prefix, cs[3]);
    }

    /** One block of addAnnotations: append "prefix/suffix" with the value
        when the value is non-empty. */
    method AppendIfSet(prefix: string, candidate: (string, string))
      modifies this`annotationsReport
      ensures annotationsReport == old(annotationsReport) + Emit(prefix, candidate)
    {
      var name := prefix + "/" + candidate.0;
      var value := candidate.1;
      if |value| > 0 {
        annotationsReport := annotationsReport + [Annotation(name, value)];
      }
    }

    /** addDigests copies the chart and package digests of the report. */
    method AddDigests()
      requires report.Some?
      modifies this`digestsReport
      ensures digestsReport == Some(DigestsOf(report.value))
    {
      var tool := report.value.metadata.tool;
      digestsReport := Some(DigestReport(tool.digests.chart, tool.digests.package));
    }

    /** addMetadata copies the report's profile, chart URI, chart data and
        provider-delivery flag, with no override from the values. */
    method AddMetadata()
      requires report.Some?
      modifies this`metadataReport
      ensures metadataReport == Some(MetadataOf(report.value))
    {
      var tool := report.value.metadata.tool;
      metadataReport := Some(MetadataReport(tool.profile.vendorType, tool.profile.version, tool.chartUri,
                                            report.value.metadata.chartData, tool.providerDelivery));
    }

    /** addResults tallies the mandatory checks of the effective profile
        against the report's results. */
    method AddResults()
      requires report.Some?
      modifies this`resultsReport
      ensures resultsReport == Some(ResultsOf(profiles, values, report.value))
    {
      var profile := EffectiveProfile(profiles, values, report.value.metadata.tool.profile);
      var t := TallyResults(profiles.checksOf(profile.vendorType, profile.version), report.value.results);
      resultsReport := Some(ResultsReport(DecimalString(t.passed), DecimalString(t.failed), t.messages));
    }

    /** addAll: all four summaries of the attached report under the current values. */
    method AddAll()
      requires report.Some? && annotationsReport == []
      modifies this`annotationsReport, this`digestsReport, this`metadataReport, this`resultsReport, this`computedWith
      ensures Valid()
      ensures Summarised(report.value, values)
    {
      AddAnnotations();
      AddDigests();
      AddResults();
      AddMetadata();
      computedWith := values;
    }

    /** GetContent: with every cache present it reuses them; otherwise it
        fails without a report and recomputes all four from the report and
        the current values. A load failure of the report is returned as is;
        otherwise the selected parts are returned with the format ("json"
        gives JSON, anything else YAML). */
    method GetContent(kind: string, format: string, loadError: Option<Error>) returns (out: Result<SummaryOutput>)
      requires Valid()
      modifies this`annotationsReport, this`digestsReport, this`metadataReport, this`resultsReport, this`computedWith
      ensures Valid()
      ensures old(NeedsSummary()) && report.None? ==> out == Err(NoReport)
      ensures old(NeedsSummary()) && report.Some? ==> Summarised(report.value, values)
      ensures !old(NeedsSummary()) ==>
                && annotationsReport == old(annotationsReport) && digestsReport == old(digestsReport)
                && metadataReport == old(metadataReport) && resultsReport == old(resultsReport)
      ensures !(old(NeedsSummary()) && report.None?) ==>
                out == if loadError.Some? then Err(loadError.value)
                       else Ok(Select(kind, FormatFor(format), metadataReport, digestsReport, resultsReport, annotationsReport))
    {
      var generate := metadataReport.None? || resultsReport.None? || annotationsReport == [] || digestsReport.None?;
      if generate {
        if report.None? {
          return Err(NoReport);
        }
        AddAll();
      }
      if loadError.Some? {
        return Err(loadError.value);
      }
      out := Ok(Select(kind, FormatFor(format), metadataReport, digestsReport, resultsReport, annotationsReport));
    }
  }
}
