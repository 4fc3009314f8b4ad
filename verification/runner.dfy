/** The registry and runner of `TestFramework`: an ordered list of named
    tests, the results of the most recent run, and the test the runner last
    started. A test's function is represented by its settled outcome, so an
    asynchronous test that the runner awaits is the outcome it settles to.
    The source calls the function afresh on every run; the model takes each
    call to settle the same way. */
module Runner {
  import opened JsValues
  import opened Assertions

  datatype Status = Passed | Failed

  datatype TestCase = TestCase(name: string, action: Outcome)

  /** `{ name, status, error }`; `error` is `null` (here `None`) for a pass. */
  datatype TestResult = TestResult(name: string, status: Status, error: Option<string>)

  /** What `runAll` returns: `{ passed, failed, total }`. */
  datatype Summary = Summary(passed: nat, failed: nat, total: nat)

  /** The fields of a `TestFramework` instance. */
  datatype Framework = Framework(tests: seq<TestCase>, results: seq<TestResult>, currentTest: Option<TestCase>)

  /** The instance after `runAll`, and what `runAll` returned. */
  datatype Run = Run(after: Framework, summary: Summary)

  /** `new TestFramework()`: nothing registered, no results, no current
      test, so a run of a fresh instance reports nothing. */
  function New(): (f: Framework)
    ensures f.tests == [] && f.results == [] && f.currentTest == None
    ensures RunAll(f).summary == Summary(0, 0, 0)
  {
    Framework([], [], None)
  }

  /** `test(name, testFunction)`: one entry appended at the end; no check on
      the name, so duplicates are kept; nothing else changes. */
  function Register(f: Framework, name: string, action: Outcome): (g: Framework)
    ensures |g.tests| == |f.tests| + 1
    ensures g.tests[..|f.tests|] == f.tests
    ensures g.tests[|f.tests|] == TestCase(name, action)
    ensures g.results == f.results && g.currentTest == f.currentTest
  {
    f.(tests := f.tests + [TestCase(name, action)])
  }

  /** One iteration of the `runAll` loop: the test's outcome is caught and
      recorded; a pass has a null error, a failure carries the error's
      message. */
  function Execute(t: TestCase): (r: TestResult)
    ensures r.name == t.name
    ensures r.status == Passed <==> t.action.Completes?
    ensures r.status == Passed ==> r.error == None
    ensures t.action.Throws? ==> r.error == Some(t.action.error.message)
  {
    match t.action
    case Completes => TestResult(t.name, Passed, None)
    case Throws(e) => TestResult(t.name, Failed, Some(e.message))
  }

  /** The results of running `tests` in order, as a fold from the left: one
      result per test, at the test's own position, each depending on that
      test alone, so no thrown error stops a later test from being run. */
  function RunCases(tests: seq<TestCase>): (rs: seq<TestResult>)
    ensures |rs| == |tests|
    decreases |tests|
  {
    if tests == [] then []
    else RunCases(tests[..|tests| - 1]) + [Execute(tests[|tests| - 1])]
  }

  /** The result at each position is the result of the test at that
      position, whatever the tests before it did. */
  lemma {:induction false} RunCasesPointwise(tests: seq<TestCase>)
    ensures forall i :: 0 <= i < |tests| ==> RunCases(tests)[i] == Execute(tests[i])
    decreases |tests|
  {
    if tests != [] {
      var init := tests[..|tests| - 1];
      RunCasesPointwise(init);
      forall i | 0 <= i < |tests| ensures RunCases(tests)[i] == Execute(tests[i]) {
        if i < |init| { assert RunCases(tests)[i] == RunCases(init)[i]; }
      }
    }
  }

  /** How many results have status `st`. */
  function CountStatus(rs: seq<TestResult>, st: Status): nat
    decreases |rs|
  {
    if rs == [] then 0
    else CountStatus(rs[..|rs| - 1], st) + (if rs[|rs| - 1].status == st then 1 else 0)
  }

  /** Every result is either passed or failed, so the two counts add up to
      the number of results. */
  lemma {:induction false} CountsPartition(rs: seq<TestResult>)
    ensures CountStatus(rs, Passed) + CountStatus(rs, Failed) == |rs|
    decreases |rs|
  {
    if rs != [] {
      CountsPartition(rs[..|rs| - 1]);
    }
  }

  /** `runAll()`: `results` is replaced by one fresh result per registered
      test, in registration order; `passed` and `failed` count the two
      statuses and add up to `total`, the number of tests; the registered
      tests are untouched; `currentTest` is left on the last test. */
  function RunAll(f: Framework): (r: Run)
    ensures r.after.tests == f.tests
    ensures |r.after.results| == |f.tests|
    ensures forall i :: 0 <= i < |f.tests| ==> r.after.results[i] == Execute(f.tests[i])
    ensures r.summary.total == |f.tests|
    ensures r.summary.passed == CountStatus(r.after.results, Passed)
    ensures r.summary.failed == CountStatus(r.after.results, Failed)
    ensures r.summary.passed + r.summary.failed == r.summary.total
    ensures r.after.currentTest == if f.tests == [] then f.currentTest else Some(f.tests[|f.tests| - 1])
  {
    var rs := RunCases(f.tests);
    RunCasesPointwise(f.tests);
    CountsPartition(rs);
    Run(Framework(f.tests, rs, if f.tests == [] then f.currentTest else Some(f.tests[|f.tests| - 1])),
        Summary(CountStatus(rs, Passed), CountStatus(rs, Failed), |f.tests|))
  }

  /** One more result adds one to the count of its own status only. */
  lemma CountStatusSnoc(rs: seq<TestResult>, r: TestResult)
    ensures CountStatus(rs + [r], Passed) == CountStatus(rs, Passed) + (if r.status == Passed then 1 else 0)
    ensures CountStatus(rs + [r], Failed) == CountStatus(rs, Failed) + (if r.status == Failed then 1 else 0)
  {
    assert (rs + [r])[..|rs|] == rs;
  }

  /** Results that agree with the tests position by position are the
      results of running the tests. */
  lemma RunCasesFromPointwise(tests: seq<TestCase>, rs: seq<TestResult>)
    requires |rs| == |tests|
    requires forall i :: 0 <= i < |tests| ==> rs[i] == Execute(tests[i])
    ensures rs == RunCases(tests)
  {
    RunCasesPointwise(tests);
  }

  /** `runAll()` as the loop it is: reset `results`, then for each test push
      one result and bump one of the two counters. */
  method RunAllLoop(f: Framework) returns (g: Framework, s: Summary)
    ensures Run(g, s) == RunAll(f)
  {
    var tests := f.tests;
    var results: seq<TestResult> := [];
    var passed: nat := 0;
    var failed: nat := 0;
    var current := f.currentTest;
    var k := 0;
    while k < |tests|
      invariant 0 <= k <= |tests| && |results| == k
      invariant forall i :: 0 <= i < k ==> results[i] == Execute(tests[i])
      invariant passed == CountStatus(results, Passed)
      invariant failed == CountStatus(results, Failed)
      invariant current == if k == 0 then f.currentTest else Some(tests[k - 1])
    {
      var test := tests[k];
      CountStatusSnoc(results, Execute(test));
      current := Some(test);
      match test.action {
        case Completes =>
          results := results + [TestResult(test.name, Passed, None)];
          passed := passed + 1;
        case Throws(e) =>
          results := results + [TestResult(test.name, Failed, Some(e.message))];
          failed := failed + 1;
      }
      k := k + 1;
    }
    RunCasesFromPointwise(tests, results);
    g := Framework(tests, results, current);
    s := Summary(passed, failed, |tests|);
  }

  /** `getResults()`. */
  function GetResults(f: Framework): seq<TestResult> {
    f.results
  }

  /** `clear()`: both lists emptied; `currentTest` is not reset. */
  function Clear(f: Framework): (g: Framework)
    ensures g.tests == [] && g.results == []
    ensures g.currentTest == f.currentTest
  {
    f.(tests := [], results := [])
  }

  /** The number of tests whose function completes. */
  function CountCompleting(tests: seq<TestCase>): nat
    decreases |tests|
  {
    if tests == [] then 0
    else CountCompleting(tests[..|tests| - 1]) + (if tests[|tests| - 1].action.Completes? then 1 else 0)
  }

  /** `passed` counts exactly the tests whose function completes, wherever
      they stand in the list. */
  lemma {:induction false} PassedCountsCompleting(tests: seq<TestCase>)
    ensures CountStatus(RunCases(tests), Passed) == CountCompleting(tests)
    ensures CountStatus(RunCases(tests), Failed) == |tests| - CountCompleting(tests)
    decreases |tests|
  {
    var rs := RunCases(tests);
    CountsPartition(rs);
    if tests != [] {
      var init := tests[..|tests| - 1];
      PassedCountsCompleting(init);
      assert rs[..|rs| - 1] == RunCases(init);
    }
  }

  /** Running two lists one after the other gives the same results as
      running their concatenation: a test in the first list that throws
      does not affect the second. */
  lemma RunCasesAppend(a: seq<TestCase>, b: seq<TestCase>)
    ensures RunCases(a + b) == RunCases(a) + RunCases(b)
  {
    var l := RunCases(a + b);
    var r := RunCases(a) + RunCases(b);
    RunCasesPointwise(a + b);
    RunCasesPointwise(a);
    RunCasesPointwise(b);
    assert |l| == |r|;
    forall i | 0 <= i < |l| ensures l[i] == r[i] {
      if i < |a| { assert (a + b)[i] == a[i]; } else { assert (a + b)[i] == b[i - |a|]; }
    }
  }

  /** A run replaces the previous results rather than adding to them: what
      a run produces does not depend on what an earlier run left behind. */
  lemma RunReplacesResults(f: Framework, stale: seq<TestResult>)
    ensures RunAll(f.(results := stale)) == RunAll(f)
  {
  }

  /** Running again without registering anything reproduces the same
      results and counts. */
  lemma RunAllTwice(f: Framework)
    ensures RunAll(RunAll(f).after).after == RunAll(f).after
    ensures RunAll(RunAll(f).after).summary == RunAll(f).summary
  {
  }

  /** After a run `getResults()` reports every registered test, in
      registration order, each with the result of its own function. */
  lemma GetResultsAfterRun(f: Framework)
    ensures |GetResults(RunAll(f).after)| == |f.tests|
    ensures forall i :: 0 <= i < |f.tests| ==>
              && GetResults(RunAll(f).after)[i].name == f.tests[i].name
              && (GetResults(RunAll(f).after)[i].status == Passed <==> f.tests[i].action.Completes?)
  {
  }

  /** A test whose body is a sequence of statements, such as several
      assertions in a row, is recorded `PASSED` exactly when every statement
      completes; otherwise it is `FAILED` with the message of the first
      statement that throws. */
  lemma RunBodyResult(name: string, steps: seq<Outcome>)
    ensures Execute(TestCase(name, RunBody(steps))).status == Passed
            <==> forall i :: 0 <= i < |steps| ==> steps[i].Completes?
    ensures Execute(TestCase(name, RunBody(steps))).status == Failed ==>
              exists i :: && 0 <= i < |steps| && steps[i].Throws?
                          && (forall j :: 0 <= j < i ==> steps[j].Completes?)
                          && Execute(TestCase(name, RunBody(steps))).error == Some(steps[i].error.message)
  {
  }

  /** Before any run `getResults()` is empty, even after tests have been
      registered; registering after a run leaves the last run's results in
      place. */
  lemma GetResultsBeforeRun(name: string, action: Outcome, f: Framework)
    ensures GetResults(New()) == []
    ensures GetResults(Register(New(), name, action)) == []
    ensures GetResults(Register(RunAll(f).after, name, action)) == GetResults(RunAll(f).after)
  {
  }

  /** After `clear()` nothing is registered and nothing is reported, and a
      run returns `{ passed: 0, failed: 0, total: 0 }`. */
  lemma ClearThenRun(f: Framework)
    ensures GetResults(Clear(f)) == []
    ensures RunAll(Clear(f)).summary == Summary(0, 0, 0)
    ensures GetResults(RunAll(Clear(f)).after) == []
  {
  }

  /** Two tests under the same name give two results, both under that name. */
  lemma DuplicateNamesKept(name: string, a1: Outcome, a2: Outcome)
    ensures var rs := GetResults(RunAll(Register(Register(New(), name, a1), name, a2)).after);
            |rs| == 2 && rs[0].name == name && rs[1].name == name
  {
  }

  /** Three tests: `2 + 2 === 4`, `2 + 2 === 5`, and an awaited value that
      settles to "ok" checked against "ok". The run reports 2 passed, 1
      failed, 3 in all, and the failure's message names the expected 5 and
      the actual 4. */
  lemma ThreeTestScenario()
    ensures var f := Register(Register(Register(New(),
                       "adds", AssertEqual(Num(2 + 2), Num(4), None)),
                       "adds wrongly", AssertEqual(Num(2 + 2), Num(5), None)),
                       "awaits", AssertEqual(Str("ok"), Str("ok"), None));
            var r := RunAll(f);
            && r.summary == Summary(2, 1, 3)
            && |r.after.results| == 3
            && r.after.results[0] == TestResult("adds", Passed, None)
            && r.after.results[1] == TestResult("adds wrongly", Failed,
                                                Some("Values are not equal. Expected: 5, Actual: 4"))
            && r.after.results[2] == TestResult("awaits", Passed, None)
  {
    AssertEqualMessageExample();
    var f := Register(Register(Register(New(),
               "adds", AssertEqual(Num(2 + 2), Num(4), None)),
               "adds wrongly", AssertEqual(Num(2 + 2), Num(5), None)),
               "awaits", AssertEqual(Str("ok"), Str("ok"), None));
    var rs := RunAll(f).after.results;
    assert rs[..2][..1] == [rs[0]];
    assert rs[..2] == [rs[0], rs[1]];
    assert rs[..1] == [rs[0]];
    assert CountStatus([rs[0]], Passed) == 1;
    assert CountStatus(rs[..2], Passed) == 1;
    assert CountStatus(rs, Passed) == 2;
    CountsPartition(rs);
  }
}
