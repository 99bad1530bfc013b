# chart-verifier core, modelled in Dafny

This project models the core of chart-verifier, the tool that checks a Helm
chart against a certification profile and produces a verification report.
It covers four parts of the Go code:

- **The verifier** (`pkg/chartverifier/verifier/verifier.go`), module
  `ChartVerifier`. The class `Verifier` holds the four typed flag maps
  (boolean, duration, string list, values), the per-check enabled status and
  the report. It has the setters, check enabling and disabling, whitelist
  validation in a fixed order, and `Run`. `Run` rejects an empty chart URI,
  validates, derives the Helm environment settings (`setHelmEnv`), builds the
  Helm value options, merges them, projects the
  configuration onto the executor's options and stores the report on
  success. `GetReport` is the `report` field itself.
- **The verify command's helpers** (`cmd/verify.go`), module `VerifyCmd`.
  `convertChecks` and `buildChecks` turn the `--enable` and `--disable` lists
  into catalog names. `convertToMap` parses `k=v` settings. The run function
  selects checks on a fresh verifier and picks the report format.
- **The report builder** (`internal/chartverifier/report.go`), module
  `ReportBuilder`. A report owns a sequence of handles. `AddCheck` appends a
  fresh handle and `SetResult` changes that entry in place through it.
- **The report summarizer** (`pkg/chartverifier/reportsummary/reportSummary.go`),
  module `ReportSummary`. The class `Summarizer` caches four sub-summaries:
  metadata, digests, the mandatory-check tally and the annotations. A new
  report drops the caches. `GetContent` recomputes them when one is absent
  and returns one part or all of them.

The record types of `pkg/chartverifier/report/types.go` are datatypes in
module `ReportTypes`. Module `Common` holds `Option`, `Result`, the error
values and the string helpers: ASCII lower-casing, and splitting on a
one-character separator as Go's `strings.Split` does.

The check catalog, the profile source (`profiles.New` and its configuration
key names and defaults), Helm's value merging, the check executor
(`api.Run`) and the report's `Load` are not part of this model. They enter
as parameters: a `seq<string>` catalog, a `ProfileSource` value, two
function parameters of `Run`, and an optional load error given to
`GetContent`.

Go iterates over maps in an unspecified order. The model picks the next key
with `:|`. Where the order shows in the result, the contracts say only what
holds for every order: which checks run (a set), which entries
`mapToStringSlice` lists (each once), and that a validator reports some
invalid key.

The metadata summary applies no override from the values
(`pkg/chartverifier/reportsummary/reportSummary.go:185-194`); only the
results tally reads them. `MetadataOf` copies the report's values.

The cache test in `GetContent` asks whether the annotation list is nil
(`pkg/chartverifier/reportsummary/reportSummary.go:65`). The list is only
ever reset to nil (line 49) and appended to (lines 136-172), so it is nil
exactly when it is empty, and the model tests for the empty sequence. So
when a report has none of the five annotation fields, every `GetContent`
call recomputes all four summaries from the current values.
`Summarizer.NeedsSummary` models this as written.

## Model

| member | source | states |
|---|---|---|
| Common.FormatFor | cmd/verify.go:138-141 | the report format is JSON exactly when the output flag is "json", YAML for every other value |
| Common.Lower | pkg/chartverifier/verifier/verifier.go:194 | lower-casing keeps the length, maps each character through ASCII lower-casing, and leaves no upper-case letter |
| Common.Split | cmd/verify.go:109 | splitting on '=' gives one part more than the number of '=' characters, and no part contains '=' |
| Common.SplitJoin | cmd/verify.go:109 | joining the parts with the separator gives back the input, so splitting loses nothing |
| Common.SplitHasTwoParts | cmd/verify.go:110 | a string containing '=' splits into at least two parts, so the `parts[1]` lookup is in range |
| ChartVerifier.EnableIsAllowList | pkg/chartverifier/verifier/verifier.go:223-237 | with a non-empty list of catalog names over a catalog-only status map, the keys stay exactly the catalog and the enabled checks are exactly the listed ones |
| ChartVerifier.EnableUnknownNameRejected | pkg/chartverifier/verifier/verifier.go:228-230 | a listed name outside the catalog becomes a new enabled entry, and the status map then fails check validation |
| ChartVerifier.EnableEmptyResets | pkg/chartverifier/verifier/verifier.go:231-235 | an empty enable list enables the whole catalog, and doing so twice equals doing it once |
| ChartVerifier.UnEnableIsDenyList | pkg/chartverifier/verifier/verifier.go:242-252 | with a non-empty list of catalog names, the keys stay exactly the catalog and the enabled checks are the catalog minus the listed ones |
| ChartVerifier.MergedCaseDistinct | pkg/chartverifier/verifier/verifier.go:192-195 | after merging into an existing values map, when no two supplied keys differ only in case, each supplied entry is found under its lower-cased key |
| ChartVerifier.ValidateKeys | pkg/chartverifier/verifier/verifier.go:109-125 | (also the duration, string and values validators) an error exactly when the map has a key outside the whitelist; the error names such a key and the flag kind |
| ChartVerifier.ValidateChecks | pkg/chartverifier/verifier/verifier.go:254-271 | an error exactly when the status map names a check outside the catalog; the error names such a check |
| ChartVerifier.MapToStringSlice | pkg/chartverifier/verifier/verifier.go:418-424 | the result is the map's entries as "name=value", in an order that visits every key exactly once, so two entries that print alike still appear once each |
| ChartVerifier.ListsCovers | pkg/chartverifier/verifier/verifier.go:418-424 | such a listing has one element per entry, holds every entry's assignment, and holds nothing else |
| ChartVerifier.SetHelmEnv | pkg/chartverifier/verifier/verifier.go:426-453 | whatever order the map is visited in, each of the ten single-value Helm keys present sets its setting to its first value, kube-as-group sets its list, and every other setting keeps its default |
| ChartVerifier.HelmEnvStep | pkg/chartverifier/verifier/verifier.go:427-452 | one more key's case of the switch, applied to the settings of the keys seen so far, gives the settings of them all |
| ChartVerifier.HelmEnvIgnoresOtherKeys | pkg/chartverifier/verifier/verifier.go:427-452 | with no string flags the settings are the defaults, and a key outside the switch never changes them |
| ChartVerifier.Verifier.constructor | pkg/chartverifier/verifier/verifier.go:376-399 | every catalog check enabled, both boolean flags false, no duration or string flags, the default profile under the "set" values, no report |
| ChartVerifier.Verifier.SetBoolean | pkg/chartverifier/verifier/verifier.go:130-133 | the boolean flag is overwritten; every other key and every other field is unchanged |
| ChartVerifier.Verifier.SetDuration | pkg/chartverifier/verifier/verifier.go:139-142 | the duration flag is overwritten; every other key and every other field is unchanged |
| ChartVerifier.Verifier.SetString | pkg/chartverifier/verifier/verifier.go:165-168 | the string-list flag is overwritten; every other key and every other field is unchanged |
| ChartVerifier.Verifier.SetValues | pkg/chartverifier/verifier/verifier.go:190-200 | a new values key stores the supplied map as it is; an existing one keeps its other entries and receives each supplied entry under its lower-cased key; other values keys are unchanged |
| ChartVerifier.Verifier.EnableChecks | pkg/chartverifier/verifier/verifier.go:223-237 | the status map becomes the allow-list over the catalog (non-empty list) or the whole catalog enabled (empty list); only the status map changes |
| ChartVerifier.Verifier.UnEnableChecks | pkg/chartverifier/verifier/verifier.go:242-252 | the status map becomes the deny-list over the catalog (non-empty list) or is unchanged (empty list) |
| ChartVerifier.Verifier.CheckInputs | pkg/chartverifier/verifier/verifier.go:401-416 | no error exactly when all five validators pass; otherwise an error of the first failing one in the order boolean, checks, duration, values, string |
| ChartVerifier.Verifier.HelmOptions | pkg/chartverifier/verifier/verifier.go:297-317 | the Helm options list the chart-set, chart-set-file and chart-set-string values as assignments when present, and take the chart-values files |
| ChartVerifier.Verifier.ChecksToRun | pkg/chartverifier/verifier/verifier.go:327-331 | the checks handed to the executor are exactly the enabled entries, each once |
| ChartVerifier.Verifier.HandedOptions | pkg/chartverifier/verifier/verifier.go:291-349 | the executor's options carry the URI, the merged values, the "set" overrides, the enabled checks, the first OpenShift version, both booleans, the timeout and API version "1.0.0" |
| ChartVerifier.Verifier.Run | pkg/chartverifier/verifier/verifier.go:276-361 | an empty URI fails and changes nothing; an invalid configuration fails with the first validator's error before any collaborator runs; Helm's merge receives the value options and the settings setHelmEnv derives from the string flags; a merge or executor failure is returned; the report is stored only on success |
| VerifyCmd.FirstUnknown | cmd/verify.go:90-100 | the index of the first requested name outside the catalog: all earlier names are in the catalog and that one is not |
| VerifyCmd.ConvertChecks | cmd/verify.go:88-104 | fails naming the first requested name outside the catalog, returning the names gathered before it; otherwise returns the catalog matches of every requested name |
| VerifyCmd.ConvertedContract | cmd/verify.go:88-103 | convertChecks fails exactly when some requested name is outside the catalog; on success, with a duplicate-free catalog, it returns the requested names in order |
| VerifyCmd.ConvertAllElems | cmd/verify.go:88-103 | with only known names, the converted list holds the same set of names whatever the catalog's duplicates |
| VerifyCmd.BuildChecks | cmd/verify.go:66-86 | both lists given is a conflict with two empty results; one list given fills its own slot from convertChecks and leaves the other empty; no list gives two empty lists and no error |
| VerifyCmd.BuildChecksFailsIff | cmd/verify.go:66-86 | buildChecks fails exactly when both lists are given or the given list names a check outside the catalog |
| VerifyCmd.ConvertToMap | cmd/verify.go:106-113 | the map holds, for each element in turn, the lower-cased text before the first '=' mapped to the segment after it |
| VerifyCmd.ToMapKeys | cmd/verify.go:106-113 | the map's keys are exactly the lower-cased keys of the elements |
| VerifyCmd.ToMapLaterWins | cmd/verify.go:108-111 | an element whose key no later element repeats supplies that key's value, so the later element wins on a collision |
| VerifyCmd.AssignmentRoundTrip | cmd/verify.go:109-110 | parsing a "k=v" assignment as mapToStringSlice writes it gives back the lower-cased k and v when neither holds '=' |
| VerifyCmd.SelectChecks | cmd/verify.go:170-174 | EnableChecks when the enabled list is non-empty, else UnEnableChecks when the disabled list is non-empty, else no change |
| VerifyCmd.ConfigureChecks | cmd/verify.go:152-174 | on success the fresh verifier's statuses cover exactly the catalog and its enabled checks are the --enable list, or the catalog minus the --disable list, or the whole catalog; both lists given is a conflict |
| ReportBuilder.EntryName | internal/chartverifier/report.go:49 | an entry's check name is the version, a '/', then the name |
| ReportBuilder.InternalCheckReport.SetResult | internal/chartverifier/report.go:56-63 | the outcome becomes Pass for true and Fail for false, the reason is set, and the check name and type are unchanged |
| ReportBuilder.InternalReport.constructor | internal/chartverifier/report.go:37-44 | API version "v1", kind "verify-report", empty metadata, no results |
| ReportBuilder.InternalReport.ApiReport | internal/chartverifier/report.go:65-67 | the API report shows every entry as its handle currently holds it |
| ReportBuilder.InternalReport.AddCheck | internal/chartverifier/report.go:46-54 | exactly one fresh entry is appended, named version/name, with the check's type, outcome Unknown and no reason; earlier entries are unchanged and nothing is deduplicated |
| ReportBuilder.SetResultAt | internal/chartverifier/report.go:52-63 | setting a result through the handle of entry i changes entry i of the API report and nothing else |
| ReportBuilder.RecordCheck | internal/chartverifier/report.go:46-63 | adding a check and then setting its result through the returned handle appends exactly that completed entry |
| ReportSummary.KeepSound | pkg/chartverifier/reportsummary/reportSummary.go:122-175 | every annotation emitted comes from a candidate field with a non-empty value, named prefix/field |
| ReportSummary.KeepComplete | pkg/chartverifier/reportsummary/reportSummary.go:122-175 | every candidate field with a non-empty value is emitted as prefix/field |
| ReportSummary.AnnotationsEmptyIff | pkg/chartverifier/reportsummary/reportSummary.go:130-173 | no annotation is emitted exactly when all five tool-metadata fields are empty |
| ReportSummary.EffectiveProfile | pkg/chartverifier/reportsummary/reportSummary.go:198-212 | vendor type and version are each the configured value when present and non-empty, otherwise the report's |
| ReportSummary.FirstMatch | pkg/chartverifier/reportsummary/reportSummary.go:226-239 | no match exactly when no entry has the name; a match is an entry of the report with that name |
| ReportSummary.TrimTrailing | pkg/chartverifier/reportsummary/reportSummary.go:235 | the result is a prefix of the input that does not end in the character, and only that character was dropped |
| ReportSummary.ReplaceChar | pkg/chartverifier/reportsummary/reportSummary.go:235 | the character no longer occurs when the replacement lacks it, and text without it is unchanged; with `ReplaceCharAppend`, `ReplaceCharHit` and `ReplaceCharMiss` this fixes the result: each occurrence becomes the replacement and every other character stays, in order |
| ReportSummary.ReplaceCharAppend | pkg/chartverifier/reportsummary/reportSummary.go:235 | replacing distributes over concatenation, so the text around each occurrence is kept in order |
| ReportSummary.ReplaceCharHit | pkg/chartverifier/reportsummary/reportSummary.go:235 | an occurrence of the character becomes the replacement |
| ReportSummary.ReplaceCharMiss | pkg/chartverifier/reportsummary/reportSummary.go:235 | any other character is kept as it is |
| ReportSummary.FlattenTrailingNewline | pkg/chartverifier/reportsummary/reportSummary.go:235 | a trailing newline makes no difference to the flattened reason |
| ReportSummary.FlattenJoinsLines | pkg/chartverifier/reportsummary/reportSummary.go:234-235 | two lines joined by a newline flatten to the two lines joined by ", " |
| ReportSummary.FlattenTwoLines | pkg/chartverifier/reportsummary/reportSummary.go:234-235 | two lines with a trailing newline flatten to the two lines joined by ", " |
| ReportSummary.FlattenExample | pkg/chartverifier/reportsummary/reportSummary.go:234-235 | the reason "bad\nimage\n" becomes the message "bad, image" |
| ReportSummary.Flatten | pkg/chartverifier/reportsummary/reportSummary.go:234-235 | a failure message never holds a newline, and a single-line reason is kept as it is; `FlattenTwoLines` and `FlattenExample` show the lines joined by ", " |
| ReportSummary.TallyCounts | pkg/chartverifier/reportsummary/reportSummary.go:220-246 | passed plus failed equals the number of mandatory profile checks, and there is one message per failure |
| ReportSummary.TallyNoFailureIff | pkg/chartverifier/reportsummary/reportSummary.go:224-246 | nothing fails exactly when every mandatory check's first report entry exists and passed |
| ReportSummary.TallyMessagesExplained | pkg/chartverifier/reportsummary/reportSummary.go:230-244 | every message is a failed entry's flattened reason or the missing-check message of a mandatory check |
| ReportSummary.TallyIgnoresOptional | pkg/chartverifier/reportsummary/reportSummary.go:225 | an optional check at the end of the profile does not change the tally |
| ReportSummary.TallyIgnoresOptionalAnywhere | pkg/chartverifier/reportsummary/reportSummary.go:224-225 | an optional check at any position of the profile does not change the tally |
| ReportSummary.TallyMessagesGrow | pkg/chartverifier/reportsummary/reportSummary.go:224-246 | messages are only appended: a prefix of the profile yields a prefix of the messages |
| ReportSummary.TallyReportsMissing | pkg/chartverifier/reportsummary/reportSummary.go:241-244 | a mandatory check with no report entry always leaves its missing-check message |
| ReportSummary.TallyReportsFailure | pkg/chartverifier/reportsummary/reportSummary.go:227-238 | a mandatory check whose first report entry did not pass always leaves that entry's flattened reason |
| ReportSummary.TallyResults | pkg/chartverifier/reportsummary/reportSummary.go:220-246 | the loop's counts and messages, in profile order, equal the tally specification |
| ReportSummary.DecimalString | pkg/chartverifier/reportsummary/reportSummary.go:250-251 | a count is rendered as a non-empty string of decimal digits with no leading zero |
| ReportSummary.DecimalRoundTrip | pkg/chartverifier/reportsummary/reportSummary.go:250-251 | the decimal text of a count reads back as that count |
| ReportSummary.Select | pkg/chartverifier/reportsummary/reportSummary.go:81-92 | "metadata", "digests", "results" and "annotations" populate only that part; any other kind populates all four |
| ReportSummary.Summarizer.constructor | pkg/chartverifier/reportsummary/reportSummary.go:40-45 | no report, no values, nothing cached |
| ReportSummary.Summarizer.SetReport | pkg/chartverifier/reportsummary/reportSummary.go:47-54 | the report is stored and all four caches are dropped |
| ReportSummary.Summarizer.SetValues | pkg/chartverifier/reportsummary/reportSummary.go:56-61 | supplied keys overwrite, other keys are kept, and the caches are untouched |
| ReportSummary.Summarizer.AddAnnotations | pkg/chartverifier/reportsummary/reportSummary.go:122-175 | appends, in the fixed order, one prefix/field annotation per non-empty field, with the configured prefix or the default |
| ReportSummary.Summarizer.AppendFive | pkg/chartverifier/reportsummary/reportSummary.go:130-173 | the five blocks together append exactly the kept candidates |
| ReportSummary.Summarizer.AppendIfSet | pkg/chartverifier/reportsummary/reportSummary.go:130-137 | one block appends prefix/field with the value when the value is non-empty and nothing otherwise |
| ReportSummary.Summarizer.AddDigests | pkg/chartverifier/reportsummary/reportSummary.go:177-183 | the digests summary is the report's chart and package digests |
| ReportSummary.Summarizer.AddMetadata | pkg/chartverifier/reportsummary/reportSummary.go:185-194 | the metadata summary copies the report's profile, chart URI, chart data and provider delivery, with no override |
| ReportSummary.Summarizer.AddResults | pkg/chartverifier/reportsummary/reportSummary.go:196-253 | the results summary is the tally of the effective profile's mandatory checks, counts as decimal text |
| ReportSummary.Summarizer.AddAll | pkg/chartverifier/reportsummary/reportSummary.go:113-120 | all four summaries of the attached report under the current values, and the cache invariant holds |
| ReportSummary.Summarizer.GetContent | pkg/chartverifier/reportsummary/reportSummary.go:63-111 | with any cache absent it fails without a report or recomputes all four; with all present it reuses them; a load error is returned; otherwise the selected parts in JSON for "json", else YAML |

## Left out

- Helm, Viper and the check executor: `cli.New`, `viper.New`, `opts.MergeValues(getter.All(...))`, `api.Run` and `report.Init()` are foreign code. The default Helm settings are a parameter of `Run`, and merging and execution are function parameters. `setHelmEnv` is modelled as `SetHelmEnv`; how `SetNamespace` treats its argument inside Helm is not.
- UUID generation in `initialize`: non-deterministic and foreign.
- JSON and YAML encoding, and `report.Load()`: only the chosen format and the selected parts are modelled. A load failure is a parameter of `GetContent`, and encoder failures are not modelled.
- `profiles.New` and `checks.GetChecks`: their source is not part of this model. The profile source and the catalog are parameters.
- `fmt.Sprintf("%v", ...)` on interface values: values are modelled as strings.
- `time.Duration`: modelled as an integer.
- The cobra wiring of the verify command: flag registration, logging, the report file name, the Viper settings merged into the "set" values, writing to stdout, and all of `cmd/report.go`.
- The order in which Go visits map entries: contracts state sets and "some invalid key" instead of a particular order.
- ChartVerifier.Verifier.Run: for a non-empty URI and a configuration that passes validation, requires that the ten keys `setHelmEnv` reads `value[0]` of are non-empty lists when present. These are kube-apiserver, kube-as-user, kube-ca-file, kubeconfig, kube-context, kube-token, namespace, registry-config, repository-config and repository-cache. Go panics there (`pkg/chartverifier/verifier/verifier.go:301`, `430-448`). Under the same condition, `Run` also requires the "openshift-version" list to be non-empty when present. That excludes one case where Go does not panic: a merge failure with an empty "openshift-version" list. Go indexes that list only after a successful merge (`pkg/chartverifier/verifier/verifier.go:319-322`, `333-335`), so there it returns the merge error. The model neither describes the panics nor may be called in that merge-failure case. An empty URI or a validation failure returns its error whatever these lists hold.
- ChartVerifier.Verifier.SetValues: for a new key Go stores the caller's map itself, so later merges into it are visible to the caller. The model stores a value copy and does not capture that aliasing.
- Common.Lower: ASCII lower-casing only; Go's Unicode case mapping is not modelled.
- ReportSummary.Summarizer.SetReport: Go keeps a pointer to the caller's report (`pkg/chartverifier/reportsummary/reportSummary.go:48`), so later changes to that report show through in later summaries. The model stores a value copy and does not capture that aliasing.
- ChartVerifier.Verifier.SetValues: a values key first stored with a nil map makes a later merge into it panic in Go (`pkg/chartverifier/verifier/verifier.go:192-194`). Dafny has no nil map, so the model merges into the empty map instead of failing.
