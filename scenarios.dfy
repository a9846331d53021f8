/** Client code that drives the model the way the library's own unit tests drive the library. */
module Scenarios {
  import opened Collections

  /** The tests, errors and failures of a suite at one moment. */
  datatype Counts = Counts(tests: nat, errors: nat, failures: nat)

  /** A suite counts its cases as they are added: the counts of the new suite, then after a
      success, then after an error, then after a failure. */
  method CountTests(now: Timestamp) returns (history: seq<Counts>)
    ensures history == [Counts(0, 0, 0), Counts(1, 0, 0), Counts(2, 1, 0), Counts(3, 1, 1)]
  {
    var ts := new TestSuite("ts", now);
    var success := SuccessCase("mysuccess", 6_001_000_000);
    var error := ErrorCase("myerror", 6_000_000_000, "Some Error", "An Error happened");
    var failure := FailureCase("myerror", 6_000_000_000, "Some failure", "A Failure happened");
    history := [Counts(ts.Tests(), ts.Errors(), ts.Failures())];
    ts.AddTestcase(success);
    AppendOne([], success, IsError);
    AppendOne([], success, IsFailure);
    history := history + [Counts(ts.Tests(), ts.Errors(), ts.Failures())];
    ts.AddTestcase(error);
    AppendOne([success], error, IsError);
    AppendOne([success], error, IsFailure);
    history := history + [Counts(ts.Tests(), ts.Errors(), ts.Failures())];
    ts.AddTestcase(failure);
    AppendOne([success, error], failure, IsError);
    AppendOne([success, error], failure, IsFailure);
    history := history + [Counts(ts.Tests(), ts.Errors(), ts.Failures())];
  }
}
