/** The report's data model: test outcomes, test cases, test suites, their derived counts
    and total time, and the builders that assemble cases and suites in place. */
module Collections {
  import opened Wrappers

  /** A signed span of time in nanoseconds; the library's `Duration` is signed too. */
  type Duration = int

  /** A moment with its UTC offset. Its RFC 3339 text is produced outside this model. */
  datatype Timestamp = Timestamp(unixNanos: int, offsetSeconds: int)

  /** The outcome of one test. Error and Failure carry the error type, a message and an
      optional cause (a trace). */
  datatype TestResult =
    | Success
    | Skipped
    | Error(kind: string, message: string, cause: Option<string>)
    | Failure(kind: string, message: string, cause: Option<string>)

  /** One executed test: a value, stored by value in its suite. */
  datatype TestCase = TestCase(
    name: string,
    time: Duration,
    result: TestResult,
    classname: Option<string>,
    filepath: Option<string>,
    systemOut: Option<string>,
    systemErr: Option<string>)

  predicate IsSuccess(tc: TestCase) { tc.result.Success? }
  predicate IsError(tc: TestCase) { tc.result.Error? }
  predicate IsFailure(tc: TestCase) { tc.result.Failure? }
  predicate IsSkipped(tc: TestCase) { tc.result.Skipped? }

  function Indicator(b: bool): nat { if b then 1 else 0 }

  /** Every test case has exactly one of the four outcomes. */
  lemma ExactlyOneOutcome(tc: TestCase)
    ensures Indicator(IsSuccess(tc)) + Indicator(IsError(tc))
          + Indicator(IsFailure(tc)) + Indicator(IsSkipped(tc)) == 1
  {
  }

  /** No classname, no file and no captured output: how every named constructor leaves a case. */
  predicate Bare(tc: TestCase) {
    tc.classname == None && tc.filepath == None && tc.systemOut == None && tc.systemErr == None
  }

  /** `TestCase::success`. */
  function SuccessCase(name: string, time: Duration): (tc: TestCase)
    ensures tc.name == name && tc.time == time
    ensures IsSuccess(tc) && Bare(tc)
  {
    TestCase(name, time, Success, None, None, None, None)
  }

  /** `TestCase::error`: an unexpected error condition, with no cause yet. */
  function ErrorCase(name: string, time: Duration, kind: string, message: string): (tc: TestCase)
    ensures tc.name == name && tc.time == time
    ensures IsError(tc) && Bare(tc)
    ensures tc.result.kind == kind && tc.result.message == message && tc.result.cause == None
  {
    TestCase(name, time, Error(kind, message, None), None, None, None, None)
  }

  /** `TestCase::failure`: an explicit assertion failed, with no cause yet. */
  function FailureCase(name: string, time: Duration, kind: string, message: string): (tc: TestCase)
    ensures tc.name == name && tc.time == time
    ensures IsFailure(tc) && Bare(tc)
    ensures tc.result.kind == kind && tc.result.message == message && tc.result.cause == None
  {
    TestCase(name, time, Failure(kind, message, None), None, None, None, None)
  }

  /** `TestCase::skipped`: an ignored test, which takes no time. */
  function SkippedCase(name: string): (tc: TestCase)
    ensures tc.name == name && tc.time == 0
    ensures IsSkipped(tc) && Bare(tc)
  {
    TestCase(name, 0, Skipped, None, None, None, None)
  }

  /** The result after `set_trace(trace)`: Error and Failure keep their type and message and
      take the trace as cause; Success and Skipped are left as they are. */
  function WithCause(r: TestResult, trace: string): (r': TestResult)
    ensures r'.Success? == r.Success? && r'.Skipped? == r.Skipped?
    ensures r'.Error? == r.Error? && r'.Failure? == r.Failure?
    ensures (r.Error? || r.Failure?) ==> r'.kind == r.kind && r'.message == r.message && r'.cause == Some(trace)
    ensures (r.Success? || r.Skipped?) ==> r' == r
  {
    match r
    case Error(kind, message, _) => Error(kind, message, Some(trace))
    case Failure(kind, message, _) => Failure(kind, message, Some(trace))
    case _ => r
  }

  // ---------------------------------------------------------------------------
  // Aggregates over a sequence of cases

  /** How many cases satisfy p, scanning in order: `iter().filter(p).count()`. */
  function Count(cs: seq<TestCase>, p: TestCase -> bool): (n: nat)
    ensures n <= |cs|
  {
    if cs == [] then 0 else Count(cs[..|cs| - 1], p) + Indicator(p(cs[|cs| - 1]))
  }

  /** No case is counted exactly when none satisfies p; all are exactly when all do. */
  lemma {:induction false} CountExtremes(cs: seq<TestCase>, p: TestCase -> bool)
    ensures Count(cs, p) == 0 <==> forall i | 0 <= i < |cs| :: !p(cs[i])
    ensures Count(cs, p) == |cs| <==> forall i | 0 <= i < |cs| :: p(cs[i])
  {
    if cs != [] {
      var init := cs[..|cs| - 1];
      CountExtremes(init, p);
      assert forall i | 0 <= i < |init| :: init[i] == cs[i];
    }
  }

  /** The sum of the case durations, folded from zero in order. */
  function TotalTime(cs: seq<TestCase>): Duration {
    if cs == [] then 0 else TotalTime(cs[..|cs| - 1]) + cs[|cs| - 1].time
  }

  /** Cases that all take non-negative time take non-negative time together; no cases take
      none. */
  lemma {:induction false} TotalTimeNonNegative(cs: seq<TestCase>)
    ensures cs == [] ==> TotalTime(cs) == 0
    ensures (forall i | 0 <= i < |cs| :: cs[i].time >= 0) ==> TotalTime(cs) >= 0
  {
    if cs != [] {
      var init := cs[..|cs| - 1];
      TotalTimeNonNegative(init);
      assert forall i | 0 <= i < |init| :: init[i] == cs[i];
    }
  }

  /** Appending one case adds one to the number of cases, adds one to the count of the
      outcome it has and leaves the other counts, and adds its duration to the total time. */
  lemma AppendOne(cs: seq<TestCase>, tc: TestCase, p: TestCase -> bool)
    ensures |cs + [tc]| == |cs| + 1
    ensures Count(cs + [tc], p) == Count(cs, p) + Indicator(p(tc))
    ensures TotalTime(cs + [tc]) == TotalTime(cs) + tc.time
  {
    assert (cs + [tc])[..|cs|] == cs;
  }

  lemma {:induction false} CountAppend(cs: seq<TestCase>, ds: seq<TestCase>, p: TestCase -> bool)
    ensures Count(cs + ds, p) == Count(cs, p) + Count(ds, p)
  {
    if ds == [] {
      assert cs + ds == cs;
    } else {
      assert (cs + ds)[..|cs + ds| - 1] == cs + ds[..|ds| - 1];
      CountAppend(cs, ds[..|ds| - 1], p);
    }
  }

  lemma {:induction false} TotalTimeAppend(cs: seq<TestCase>, ds: seq<TestCase>)
    ensures TotalTime(cs + ds) == TotalTime(cs) + TotalTime(ds)
  {
    if ds == [] {
      assert cs + ds == cs;
    } else {
      assert (cs + ds)[..|cs + ds| - 1] == cs + ds[..|ds| - 1];
      TotalTimeAppend(cs, ds[..|ds| - 1]);
    }
  }

  /** The four outcome counts partition the cases. */
  lemma {:induction false} OutcomePartition(cs: seq<TestCase>)
    ensures Count(cs, IsSuccess) + Count(cs, IsError) + Count(cs, IsFailure) + Count(cs, IsSkipped) == |cs|
  {
    if cs != [] {
      OutcomePartition(cs[..|cs| - 1]);
      ExactlyOneOutcome(cs[|cs| - 1]);
    }
  }

  /** Replacing a case's result by the one set_trace gives keeps every outcome count. */
  lemma {:induction false} TraceKeepsCounts(cs: seq<TestCase>, i: nat, trace: string, p: TestCase -> bool)
    requires i < |cs|
    requires p == IsSuccess || p == IsError || p == IsFailure || p == IsSkipped
    ensures Count(cs[i := cs[i].(result := WithCause(cs[i].result, trace))], p) == Count(cs, p)
  {
    var cs' := cs[i := cs[i].(result := WithCause(cs[i].result, trace))];
    assert cs == cs[..i] + [cs[i]] + cs[i + 1..];
    assert cs' == cs[..i] + [cs'[i]] + cs[i + 1..];
    CountAppend(cs[..i] + [cs[i]], cs[i + 1..], p);
    CountAppend(cs[..i], [cs[i]], p);
    CountAppend(cs[..i] + [cs'[i]], cs[i + 1..], p);
    CountAppend(cs[..i], [cs'[i]], p);
    assert [cs[i]][..0] == [] && [cs'[i]][..0] == [];
  }

  // ---------------------------------------------------------------------------
  // Test suites

  /** A named group of test cases; the `&mut self` methods update it in place. */
  class TestSuite {
    var name: string
    var package: string
    var timestamp: Timestamp
    var hostname: string
    var testcases: seq<TestCase>
    var systemOut: Option<string>
    var systemErr: Option<string>

    /** The state `TestSuite::new(name)` creates at time now. */
    predicate IsNew(name: string, now: Timestamp)
      reads this
    {
      && this.name == name
      && package == "testsuite/" + name
      && hostname == "localhost"
      && timestamp == now
      && testcases == []
      && systemOut == None
      && systemErr == None
    }

    /** `TestSuite::new`; now is the creation time the library reads from the clock. */
    constructor (name: string, now: Timestamp)
      ensures IsNew(name, now)
    {
      this.name := name;
      package := "testsuite/" + name;
      hostname := "localhost";
      timestamp := now;
      testcases := [];
      systemOut := None;
      systemErr := None;
    }

    /** Everything but the test cases is as it was. */
    twostate predicate MetadataUnchanged()
      reads this
    {
      && name == old(name) && package == old(package)
      && timestamp == old(timestamp) && hostname == old(hostname)
      && systemOut == old(systemOut) && systemErr == old(systemErr)
    }

    /** Appends one case at the end. */
    method AddTestcase(testcase: TestCase)
      modifies this
      ensures testcases == old(testcases) + [testcase]
      ensures MetadataUnchanged()
    {
      testcases := testcases + [testcase];
    }

    /** Appends cases in order; the same as adding each of them in turn. */
    method AddTestcases(cases: seq<TestCase>)
      modifies this
      ensures testcases == old(testcases) + cases
      ensures MetadataUnchanged()
    {
      for i := 0 to |cases|
        invariant testcases == old(testcases) + cases[..i]
        invariant MetadataUnchanged()
      {
        AddTestcase(cases[i]);
        assert cases[..i + 1] == cases[..i] + [cases[i]];
      }
      assert cases[..|cases|] == cases;
    }

    method SetTimestamp(timestamp: Timestamp)
      modifies this
      ensures this.timestamp == timestamp
      ensures name == old(name) && package == old(package) && hostname == old(hostname)
      ensures testcases == old(testcases) && systemOut == old(systemOut) && systemErr == old(systemErr)
    {
      this.timestamp := timestamp;
    }

    method SetSystemOut(systemOut: string)
      modifies this
      ensures this.systemOut == Some(systemOut)
      ensures name == old(name) && package == old(package) && hostname == old(hostname)
      ensures timestamp == old(timestamp) && testcases == old(testcases) && systemErr == old(systemErr)
    {
      this.systemOut := Some(systemOut);
    }

    method SetSystemErr(systemErr: string)
      modifies this
      ensures this.systemErr == Some(systemErr)
      ensures name == old(name) && package == old(package) && hostname == old(hostname)
      ensures timestamp == old(timestamp) && testcases == old(testcases) && systemOut == old(systemOut)
    {
      this.systemErr := Some(systemErr);
    }

    /** The number of cases; it splits into the successes and the three other outcome counts. */
    function Tests(): (n: nat)
      reads this
      ensures n == Count(testcases, IsSuccess) + Errors() + Failures() + Skipped()
    {
      OutcomePartition(testcases);
      |testcases|
    }

    function Errors(): (n: nat)
      reads this
      ensures n <= |testcases|
    {
      Count(testcases, IsError)
    }

    function Failures(): (n: nat)
      reads this
      ensures n <= |testcases|
    {
      Count(testcases, IsFailure)
    }

    function Skipped(): (n: nat)
      reads this
      ensures n <= |testcases|
    {
      Count(testcases, IsSkipped)
    }

    /** The total duration of the cases. */
    function Time(): Duration
      reads this
    {
      TotalTime(testcases)
    }

    /** Equal field by field, as a clone is. */
    predicate SameAs(other: TestSuite)
      reads this, other
    {
      && name == other.name && package == other.package
      && timestamp == other.timestamp && hostname == other.hostname
      && testcases == other.testcases
      && systemOut == other.systemOut && systemErr == other.systemErr
    }

    /** A new suite with the same contents. */
    method Clone() returns (copy: TestSuite)
      ensures fresh(copy) && copy.SameAs(this)
    {
      copy := new TestSuite(name, timestamp);
      copy.package := package;
      copy.hostname := hostname;
      copy.testcases := testcases;
      copy.systemOut := systemOut;
      copy.systemErr := systemErr;
    }
  }

  // ---------------------------------------------------------------------------
  // Builders

  /** Holds a test case and sets its optional parts in place before `build`. */
  class TestCaseBuilder {
    var testcase: TestCase

    constructor Success(name: string, time: Duration)
      ensures testcase == SuccessCase(name, time)
    {
      testcase := SuccessCase(name, time);
    }

    constructor Error(name: string, time: Duration, kind: string, message: string)
      ensures testcase == ErrorCase(name, time, kind, message)
    {
      testcase := ErrorCase(name, time, kind, message);
    }

    constructor Failure(name: string, time: Duration, kind: string, message: string)
      ensures testcase == FailureCase(name, time, kind, message)
    {
      testcase := FailureCase(name, time, kind, message);
    }

    constructor Skipped(name: string)
      ensures testcase == SkippedCase(name)
    {
      testcase := SkippedCase(name);
    }

    method SetClassname(classname: string)
      modifies this
      ensures testcase == old(testcase).(classname := Some(classname))
    {
      testcase := testcase.(classname := Some(classname));
    }

    method SetFilepath(filepath: string)
      modifies this
      ensures testcase == old(testcase).(filepath := Some(filepath))
    {
      testcase := testcase.(filepath := Some(filepath));
    }

    method SetSystemOut(systemOut: string)
      modifies this
      ensures testcase == old(testcase).(systemOut := Some(systemOut))
    {
      testcase := testcase.(systemOut := Some(systemOut));
    }

    method SetSystemErr(systemErr: string)
      modifies this
      ensures testcase == old(testcase).(systemErr := Some(systemErr))
    {
      testcase := testcase.(systemErr := Some(systemErr));
    }

    /** Attaches the trace as cause of an Error or Failure; no effect on other outcomes. */
    method SetTrace(trace: string)
      modifies this
      ensures testcase == old(testcase).(result := WithCause(old(testcase).result, trace))
      ensures (IsSuccess(old(testcase)) || IsSkipped(old(testcase))) ==> testcase == old(testcase)
    {
      match testcase.result {
        case Error(kind, message, _) =>
          testcase := testcase.(result := TestResult.Error(kind, message, Some(trace)));
        case Failure(kind, message, _) =>
          testcase := testcase.(result := TestResult.Failure(kind, message, Some(trace)));
        case _ =>
      }
    }

    method Build() returns (tc: TestCase)
      ensures tc == testcase
    {
      tc := testcase;
    }
  }

  /** Holds a test suite and updates it in place before `build`. */
  class TestSuiteBuilder {
    var testsuite: TestSuite

    constructor (name: string, now: Timestamp)
      ensures fresh(testsuite) && testsuite.IsNew(name, now)
    {
      testsuite := new TestSuite(name, now);
    }

    method AddTestcase(testcase: TestCase)
      modifies testsuite
      ensures testsuite.testcases == old(testsuite.testcases) + [testcase]
      ensures testsuite.MetadataUnchanged()
    {
      testsuite.AddTestcase(testcase);
    }

    method AddTestcases(cases: seq<TestCase>)
      modifies testsuite
      ensures testsuite.testcases == old(testsuite.testcases) + cases
      ensures testsuite.MetadataUnchanged()
    {
      testsuite.AddTestcases(cases);
    }

    method SetTimestamp(timestamp: Timestamp)
      modifies testsuite
      ensures testsuite.timestamp == timestamp
      ensures testsuite.name == old(testsuite.name) && testsuite.package == old(testsuite.package)
      ensures testsuite.hostname == old(testsuite.hostname) && testsuite.testcases == old(testsuite.testcases)
      ensures testsuite.systemOut == old(testsuite.systemOut) && testsuite.systemErr == old(testsuite.systemErr)
    {
      testsuite.SetTimestamp(timestamp);
    }

    method SetSystemOut(systemOut: string)
      modifies testsuite
      ensures testsuite.systemOut == Some(systemOut)
      ensures testsuite.name == old(testsuite.name) && testsuite.package == old(testsuite.package)
      ensures testsuite.hostname == old(testsuite.hostname) && testsuite.testcases == old(testsuite.testcases)
      ensures testsuite.timestamp == old(testsuite.timestamp) && testsuite.systemErr == old(testsuite.systemErr)
    {
      testsuite.SetSystemOut(systemOut);
    }

    method SetSystemErr(systemErr: string)
      modifies testsuite
      ensures testsuite.systemErr == Some(systemErr)
      ensures testsuite.name == old(testsuite.name) && testsuite.package == old(testsuite.package)
      ensures testsuite.hostname == old(testsuite.hostname) && testsuite.testcases == old(testsuite.testcases)
      ensures testsuite.timestamp == old(testsuite.timestamp) && testsuite.systemOut == old(testsuite.systemOut)
    {
      testsuite.SetSystemErr(systemErr);
    }

    /** A copy of the suite built so far. */
    method Build() returns (ts: TestSuite)
      ensures fresh(ts) && ts.SameAs(testsuite)
    {
      ts := testsuite.Clone();
    }
  }
}
