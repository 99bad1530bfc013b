/**
 * The report record types (pkg/chartverifier/report/types.go) and the
 * check classification they share with the check catalog.
 */
module ReportTypes {

  import opened Common

  /** Whether a check must pass for certification. */
  datatype CheckType = Mandatory | Optional

  datatype OutcomeType = Unknown | Pass | Fail

  datatype Digests = Digests(chart: string, package: string)

  datatype Profile = Profile(vendorType: string, version: string)

  datatype ToolMetadata = ToolMetadata(
    version: string,
    profile: Profile,
    chartUri: string,
    digests: Digests,
    lastCertifiedTimestamp: string,
    certifiedOpenShiftVersions: string,
    testedOpenShiftVersion: string,
    supportedOpenShiftVersions: string,
    providerDelivery: bool)

  /** Helm's chart metadata, carried through verbatim and never inspected. */
  datatype ChartMetadata = ChartMetadata(fields: map<string, string>)

  datatype ReportMetadata = ReportMetadata(
    tool: ToolMetadata,
    chartData: Option<ChartMetadata>,
    overrides: string)

  /** One check's entry: `check` is "<version>/<name>". */
  datatype CheckReport = CheckReport(
    check: string,
    checkType: CheckType,
    outcome: OutcomeType,
    reason: string)

  datatype Report = Report(
    apiVersion: string,
    kind: string,
    metadata: ReportMetadata,
    results: seq<CheckReport>)

  /** Go's zero values for the metadata records. */
  const EmptyToolMetadata := ToolMetadata("", Profile("", ""), "", Digests("", ""), "", "", "", "", false)
  const EmptyMetadata := ReportMetadata(EmptyToolMetadata, None, "")
}
