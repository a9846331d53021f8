# junit-report, modelled in Dafny

This project models the core of junit-report, a Rust library that builds JUnit XML test
reports. A report is a list of test suites. A test suite is a named list of test cases with
its own metadata. A test case has a name, a duration and an outcome, which is one of success,
skipped, error and failure. The library writes a report as a `testsuites` document through a
streaming XML writer.

The model has these modules:

- `Collections` (`collections.dfy`) models `src/collections.rs`.
  - The test outcome and the test case are values (datatypes). The library moves them into
    their containers by value.
  - The test suite and the two builders are classes. Their `&mut self` methods update fields
    in place.
  - A suite's counts and total time are defined over its case list. Lemmas prove that adding
    cases extends them, and that the outcome counts partition the cases.
- `Reports` (`reports.dfy`) models `src/reports.rs`.
  - `Report` and `ReportBuilder` are classes.
  - The document that `write_xml` produces is an element tree (`Document`), flattened into
    writer events (`XmlEvents`).
  - `Report.WriteXml` and its helper methods send those events one by one, as the source's
    loops do. Their contracts prove that what they send is exactly that stream, and that they
    fail exactly when the stream does.
  - Lemmas state the shape of the document: attribute order, decimal counts, the children
    for each outcome, suites numbered from zero, and the error cases.
- `Xml` (`xml.dfy`) holds the writer events, the element tree and its flattening. It proves
  that every flattening is well nested, that an element's events form one rooted element, and
  that a parser reads the tree back from its events.
- `Decimals` (`decimal.dfy`) models `format!("{}", n)` for the `usize` counts and the suite
  index. It proves that the text is a canonical numeral which reads back as `n`.
- `Scenarios` (`scenarios.dfy`) replays the library's `count_tests` unit test: the counts of
  a new suite and after each of three additions.
- `Wrappers` (`wrappers.dfy`) defines `Option` and `Result`.

The clock, the float formatting of seconds, the RFC 3339 formatting of timestamps and the
ANSI escape stripping are parameters, not modelled code. `TestSuite::new` reads the current
time from the clock; the model's constructor takes that time as an argument. The three
formatting and stripping routines are function values in an `Externals` argument.

The model follows the code in these points:

- **The cause is never written.** The cause of an error or failure, set by `set_trace`, is
  never written. The `Error` and `Failure` arms of the writer's match (reports.rs:110-113 and
  129-132) bind only `type_` and `message`. Written without `..`, those patterns are not valid
  Rust, since the variants also have a `cause`; the model follows their evident intent, which is
  that the cause is ignored. Instead, the case's stdout and stderr, with escape codes stripped,
  are written as CDATA inside the `error` or `failure` element.
  `CauseNotWritten` and `TraceNotWritten` prove that changing the cause changes nothing written.
- **Writing can fail on stripping.** Every write to the emitter is `ew.write(..)?`, whose
  `xml::writer::Error` becomes `ReportError::Write` (reports.rs:23). The only source of
  `ReportError::Io` (reports.rs:21) is the `std::io::Error` of stripping escape codes from
  captured output (reports.rs:120, 124, 139, 143).
- **Durations may be negative.** A duration is a signed number of nanoseconds, as
  `time::Duration` is; the code does not require a duration to be non-negative. `TotalTimeNonNegative` proves that non-negative case times give a non-negative
  total.
- **The `testcase` attributes come in code order.** That order is name, time, classname,
  file.

## Model

| member | source | states |
|---|---|---|
| Collections.ExactlyOneOutcome | src/collections.rs:199-269 | exactly one of is_success, is_error, is_failure, is_skipped holds for any case |
| Collections.SuccessCase | src/collections.rs:166-176 | the case has the given name and time, outcome Success, and no classname, file, stdout or stderr |
| Collections.ErrorCase | src/collections.rs:206-220 | the case has the given name and time, outcome Error with the given type and message and no cause, and no optional parts |
| Collections.FailureCase | src/collections.rs:230-244 | the same as ErrorCase, but with outcome Failure |
| Collections.SkippedCase | src/collections.rs:254-264 | the case has the given name, zero duration, outcome Skipped and no optional parts |
| Collections.WithCause | src/collections.rs:313-320 | the outcome kind is kept; Error and Failure keep their type and message and take the trace as cause; Success and Skipped are unchanged |
| Collections.Count | src/collections.rs:66-76 | the count of cases with a property (the `filter().count()` of errors, failures, skipped) is at most the number of cases |
| Collections.CountExtremes | src/collections.rs:66-76 | a count is 0 exactly when no case has the property, and equals the number of cases exactly when all have it |
| Collections.TotalTimeNonNegative | src/collections.rs:78-82 | the time of no cases is zero; cases with non-negative durations have a non-negative total |
| Collections.AppendOne | src/collections.rs:38-40 | adding a case adds one to the number of cases, adds one to the count of its own outcome only, and adds its duration to the total time |
| Collections.CountAppend | src/collections.rs:43-45 | the counts after adding a list of cases are the old counts plus those of the added cases |
| Collections.TotalTimeAppend | src/collections.rs:78-82 | the total time is additive over concatenation, so it is the fold of the durations from zero |
| Collections.OutcomePartition | src/collections.rs:62-76 | successes, errors, failures and skipped add up to the number of cases |
| Collections.TraceKeepsCounts | src/collections.rs:313-320 | attaching a trace to any one case leaves every outcome count of the list as it was |
| Collections.TestSuite.constructor | src/collections.rs:25-35 | a new suite has the given name, package "testsuite/" + name, hostname "localhost", the creation time, no cases and no output |
| Collections.TestSuite.AddTestcase | src/collections.rs:38-40 | the case is appended at the end; nothing else changes |
| Collections.TestSuite.AddTestcases | src/collections.rs:43-45 | the cases are appended in order, the same as adding each in turn; nothing else changes |
| Collections.TestSuite.SetTimestamp | src/collections.rs:50-52 | the timestamp is replaced; every other field is unchanged |
| Collections.TestSuite.SetSystemOut | src/collections.rs:54-56 | stdout becomes the text; every other field is unchanged |
| Collections.TestSuite.SetSystemErr | src/collections.rs:58-60 | stderr becomes the text; every other field is unchanged |
| Collections.TestSuite.Tests | src/collections.rs:62-64 | the number of cases, which equals the successes plus errors plus failures plus skipped |
| Collections.TestSuite.Errors | src/collections.rs:66-68 | the count of error cases, at most the number of cases |
| Collections.TestSuite.Failures | src/collections.rs:70-72 | the count of failure cases, at most the number of cases |
| Collections.TestSuite.Skipped | src/collections.rs:74-76 | the count of skipped cases, at most the number of cases |
| Collections.TestSuite.Clone | src/collections.rs:12-21 | a new suite equal to this one field by field (the derived `Clone`) |
| Collections.TestCaseBuilder.Success | src/collections.rs:280-284 | the builder holds the case `TestCase::success` makes |
| Collections.TestCaseBuilder.Error | src/collections.rs:325-329 | the builder holds the case `TestCase::error` makes |
| Collections.TestCaseBuilder.Failure | src/collections.rs:334-338 | the builder holds the case `TestCase::failure` makes |
| Collections.TestCaseBuilder.Skipped | src/collections.rs:343-347 | the builder holds the case `TestCase::skipped` makes |
| Collections.TestCaseBuilder.SetClassname | src/collections.rs:287-290 | only the classname of the held case changes, to the given text |
| Collections.TestCaseBuilder.SetFilepath | src/collections.rs:293-296 | only the file path of the held case changes |
| Collections.TestCaseBuilder.SetSystemOut | src/collections.rs:299-302 | only the stdout of the held case changes |
| Collections.TestCaseBuilder.SetSystemErr | src/collections.rs:305-308 | only the stderr of the held case changes |
| Collections.TestCaseBuilder.SetTrace | src/collections.rs:313-320 | only the outcome changes, as WithCause says; a Success or Skipped case is left exactly as it was |
| Collections.TestCaseBuilder.Build | src/collections.rs:350-352 | returns the held case |
| Collections.TestSuiteBuilder.constructor | src/collections.rs:92-97 | holds a fresh suite in the state `TestSuite::new` creates |
| Collections.TestSuiteBuilder.AddTestcase | src/collections.rs:100-103 | the case is appended to the held suite; its metadata is unchanged |
| Collections.TestSuiteBuilder.AddTestcases | src/collections.rs:106-109 | the cases are appended in order to the held suite; its metadata is unchanged |
| Collections.TestSuiteBuilder.SetTimestamp | src/collections.rs:114-117 | only the held suite's timestamp changes |
| Collections.TestSuiteBuilder.SetSystemOut | src/collections.rs:119-122 | only the held suite's stdout changes |
| Collections.TestSuiteBuilder.SetSystemErr | src/collections.rs:124-127 | only the held suite's stderr changes |
| Collections.TestSuiteBuilder.Build | src/collections.rs:130-132 | returns a fresh copy equal field by field to the held suite |
| Decimals.Decimal | src/reports.rs:62-67 | `format!("{}", n)`: a single character exactly when n is below ten |
| Decimals.DecimalCanonical | src/reports.rs:62-67 | the text is one or more decimal digits with no leading zero |
| Decimals.DecimalRoundTrip | src/reports.rs:62-67 | reading the text back as a decimal numeral gives n |
| Decimals.DecimalDenotes | src/reports.rs:62-67 | the text is the canonical numeral of n |
| Decimals.DecimalInjective | src/reports.rs:62-67 | different numbers give different texts |
| Xml.Names | src/reports.rs:60-73 | the attribute names, one for one and in order |
| Xml.EventsOfAppend | src/reports.rs:59-170 | the events of consecutive siblings are the events of each run, concatenated |
| Xml.NodeWellNested | src/reports.rs:57-172 | the events of any node are well nested, and an element's events open first, close last and stay open in between |
| Xml.ForestWellNested | src/reports.rs:59-170 | the events of any list of siblings are well nested |
| Xml.ParseEvents | src/reports.rs:57-172 | parsing a node's events gives back the node |
| Xml.EventsInjective | src/reports.rs:57-172 | two nodes with the same events are the same node |
| Reports.CollectOk | src/reports.rs:59-170 | a sequence of writes stopped by `?` succeeds exactly when every write does, and then keeps all outputs in order |
| Reports.CollectFirstError | src/reports.rs:59-170 | when it fails, it fails with the error of the first write that fails, and every earlier write succeeded |
| Reports.CollectError | src/reports.rs:59-170 | when every write that can fail fails with the same error, the whole fails with that error |
| Reports.SuiteAttributeOrder | src/reports.rs:60-73 | the testsuite attributes are id, name, package, tests, errors, failures, hostname, timestamp, time in this order, with the suite's own name, package, hostname, timestamp text and time text |
| Reports.SuiteCountAttributes | src/reports.rs:62-67 | id, tests, errors and failures are canonical decimal numerals denoting the index, tests(), errors() and failures() |
| Reports.CaseAttributesShape | src/reports.rs:81-94 | the testcase attributes are name and time, then classname exactly when set, then file exactly when set, with the case's values |
| Reports.CaseElementFails | src/reports.rs:96-152 | a case is written unless it is an error or failure whose stdout or stderr cannot be stripped, and then the error is Io |
| Reports.CaseElementShape | src/reports.rs:94-154 | a testcase has its attributes; a success holds system-out then system-err when set; a skipped case holds one empty skipped; an error or failure holds one error or failure element with type then message, containing the stripped stdout then the stripped stderr as CDATA |
| Reports.CapturedOutputShape | src/reports.rs:98-108 | a system-out or system-err element is present exactly when the text is, and holds the text as CDATA |
| Reports.CauseNotWritten | src/reports.rs:110-146 | changing the cause of an error or failure does not change its element |
| Reports.TraceNotWritten | src/collections.rs:313-320 | setting a trace with the builder does not change what is written for the case |
| Reports.CaseElementsInOrder | src/reports.rs:80-155 | the testcase elements follow the cases one for one in order; they exist exactly when every case can be written, else the error is Io |
| Reports.SuiteElementFails | src/reports.rs:59-170 | a suite is written exactly when none of its cases fails to strip, and otherwise the error is Io |
| Reports.SuiteElementShape | src/reports.rs:59-170 | a testsuite has its attributes, one testcase per case in order, then system-out and system-err exactly when set (after the cases) |
| Reports.SuiteElementsInOrder | src/reports.rs:59-170 | one testsuite per suite in report order with id equal to its index; produced exactly when every suite can be written, else the error is Io |
| Reports.DocumentShape | src/reports.rs:57-172 | the root is `testsuites` without attributes, and its children are the suites' elements in order |
| Reports.WriteFailsOnlyOnStrip | src/reports.rs:53-175 | writing fails exactly when some error or failure case has output that cannot be stripped, and then the error is Io |
| Reports.StreamShape | src/reports.rs:53-175 | the stream starts with the testsuites start, ends with its end, is well nested with everything inside the root, and parses back to the document |
| Reports.EmptyReportStream | src/reports.rs:57-172 | an empty report is the testsuites start followed directly by its end |
| Reports.SameSuitesWriteSame | src/reports.rs:206-209 | suites equal field by field are written identically, so a built copy writes like the original |
| Reports.CapturedOutputEvents | src/reports.rs:157-167 | the events of captured output are start, CDATA, end when the text is set, and nothing otherwise |
| Reports.StrippedOutputEvents | src/reports.rs:119-126 | the events of stripped output are one CDATA with the stripped text when the text is set |
| Reports.SuiteEvents | src/reports.rs:60-169 | the events of a suite are its start, its cases' events, its stdout, its stderr, its end |
| Reports.Report.constructor | src/reports.rs:34-38 | a new report has no suites |
| Reports.Report.AddTestsuite | src/reports.rs:43-45 | the suite is appended at the end |
| Reports.Report.AddTestsuites | src/reports.rs:48-50 | the suites are appended in order, the same as adding each in turn |
| Reports.Report.WriteXml | src/reports.rs:53-175 | changes nothing; succeeds exactly when the report's event stream exists and then sends exactly that stream; otherwise fails with the same error |
| Reports.WriteTestsuites | src/reports.rs:59-170 | the loop over the suites sends exactly the events of the suite elements, numbered from zero, or stops with Io at the first suite that fails |
| Reports.WriteTestsuite | src/reports.rs:60-169 | sends exactly the events of the suite's element, or fails with Io exactly when that element cannot be written |
| Reports.WriteTestcases | src/reports.rs:80-155 | the loop over the cases sends exactly the events of the case elements in order, or stops with Io at the first case that fails |
| Reports.WriteTestcase | src/reports.rs:81-154 | sends exactly the events of the case's element, or fails with Io exactly when that element cannot be written |
| Reports.WriteProblem | src/reports.rs:114-127 | sends exactly the events of the error or failure element, or fails with Io exactly when stripping fails |
| Reports.WriteCaptured | src/reports.rs:98-108 | sends exactly the events of the system-out or system-err element, when the text is set |
| Reports.WriteStripped | src/reports.rs:119-126 | sends the stripped stdout then stderr as CDATA, and fails with Io exactly when a stripping fails |
| Reports.ReportBuilder.constructor | src/reports.rs:186-190 | holds a fresh empty report |
| Reports.ReportBuilder.AddTestsuite | src/reports.rs:195-198 | the suite is appended to the held report |
| Reports.ReportBuilder.AddTestsuites | src/reports.rs:201-204 | the suites are appended in order to the held report |
| Reports.ReportBuilder.Build | src/reports.rs:207-209 | a fresh report with fresh copies of the suites, equal field by field and in the same order |
| Scenarios.CountTests | src/lib.rs:191-233 | the counts (tests, errors, failures) are 0/0/0 for the new suite, then 1/0/0, 2/1/0 and 3/1/1 after adding a success, an error and a failure |

## Left out

- The seconds text of a duration and the timestamp text are not modelled. The first is
  `as_seconds_f64` formatted as a float; the second is the RFC 3339 formatting. Both are
  opaque functions in `Externals`. The panic of `.expect("failed to format")` on a timestamp
  that cannot be formatted is not modelled either.
- `OffsetDateTime::now_utc()` in `TestSuite::new` is the clock. The constructors take the time
  as a parameter.
- `strip_ansi_escapes::strip` and `String::from_utf8_lossy` are one opaque function in
  `Externals`. When it returns `None`, the stripping's I/O error has occurred.
- The xml-rs emitter is not modelled: no escaping of attribute values or CDATA, no
  indentation, no self-closing of empty elements, and no XML declaration. The model stops at
  the events sent to the emitter.
- Reports.Report.WriteXml: a failure of the emitter or of its sink on an individual write is
  not modelled. Such a failure would be the `Write` error. In the model every write succeeds, so
  `Write` is never produced, and the only failure is the `Io` error of stripping.
- Transfer of ownership is not modelled. `Report::add_testsuite`, `add_testsuites` and the
  `ReportBuilder` counterparts move the suites in (reports.rs:43-50, 195-204), so the caller can
  no longer change a suite once it is added. In the model, `Report.testsuites` holds references,
  and `TestSuiteBuilder.testsuite` is a reference too. A caller that keeps a reference to an
  added suite, or to a builder's suite, can still change it, and so change what is written.
- Partial output on failure: the bytes already written when a write fails are not part of
  the contract. The events sent before the failure are returned but not specified.
- `time::Duration` overflow in `time()` (collections.rs:78-82) is not modelled. The sum is
  unbounded.
- `TestCase::set_classname`, `set_filepath`, `set_system_out` and `set_system_err`
  (collections.rs:179-196) are not modelled as separate members. The test case is a value in
  the model, and each of them does to a case exactly what the matching `TestCaseBuilder`
  setter does to the builder's case.
- The `&mut Self` results that allow chained builder calls are not modelled. The methods
  return nothing, and chaining is sequential calls.
- `TestSuite.Time` has no contract of its own. What the source promises about it, the sum of
  the durations, is stated by TotalTimeAppend and AppendOne.
- `src/error.rs`, the other unit tests in `src/lib.rs` and `tests/integration_test.rs` are
  not part of this model. Their expected XML texts depend on the emitter's formatting.
