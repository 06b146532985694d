/**
  ctest_main: the suite filter chosen from the command line, a first pass
  over the registry that counts the selected tests, and a second pass that
  runs each selected test (setup, body, teardown under setjmp) and tallies
  it as ok, failed or skipped. Console output is modelled as one `Line` per
  selected test; the test code itself is an abstract `Behaviour`.
 */
module Driver {
  import opened CTypes
  import opened TestRegistry
  import opened SuiteIndex
  import opened ErrorMessage

  /** The static `filter` of ctest_main: suite_all, or suite_filter with suite_name. */
  datatype Filter = SuiteAll | SuiteFilter(suiteName: CString)

  /** filter(test): suite_filter compares the first strlen(suite_name) bytes with strncmp. */
  function Accepts(f: Filter, t: Test): bool {
    match f
    case SuiteAll => true
    case SuiteFilter(name) => Strncmp(name, t.ssname, |name|) == 0
  }

  /** suite_filter accepts exactly the tests whose suite name starts with the filter. */
  lemma AcceptsIffPrefix(f: Filter, t: Test)
    ensures Accepts(f, t) <==> f.SuiteAll? || f.suiteName <= t.ssname
    ensures Accepts(SuiteFilter([]), t)
  {
    if f.SuiteFilter? {
      StrncmpPrefix(f.suiteName, t.ssname);
    }
    StrncmpPrefix([], t.ssname);
  }

  /** ctest_main installs suite_filter on argv[1] only when argc == 2. */
  function SelectFilter(argv: seq<CString>): (f: Filter)
    ensures f.SuiteFilter? <==> |argv| == 2
    ensures f.SuiteFilter? ==> f.suiteName == argv[1]
  {
    if |argv| == 2 then SuiteFilter(argv[1]) else SuiteAll
  }

  /** A call into test code that ctest_main makes inside its setjmp region. */
  datatype Call =
    | SetupCall(setup: FuncPtr, data: DataPtr)         // suite->setup(test->data)
    | UnaryRun(run: FuncPtr, data: DataPtr)            // test->run.unary(test->data)
    | NullaryRun(run: FuncPtr)                         // test->run.nullary()
    | TeardownCall(teardown: FuncPtr, data: DataPtr)   // suite->teardown(test->data)

  /** A call returns normally, or raises CTEST_ERR, whose longjmp lands on ctest_main's setjmp. */
  datatype Outcome = Returned | Raised

  /**
    What a call does that ctest_main can observe: the lengths vsnprintf
    reports for the CTEST_LOG/CTEST_ERR messages it formats, in order, and
    how it ends.
   */
  datatype Effect = Effect(rets: seq<int32>, outcome: Outcome)

  /**
    The test code: the effect of each call, keyed by the position of the
    test in the registry and the call; calls not listed have the effect
    `otherwise`.
   */
  datatype Behaviour = Behaviour(effects: map<(nat, Call), Effect>, otherwise: Effect) {
    function Of(k: nat, c: Call): Effect {
      if (k, c) in effects then effects[(k, c)] else otherwise
    }
  }

  /** test->run.unary(test->data) when the test has data, test->run.nullary() otherwise. */
  function BodyCall(t: Test): Call {
    if t.data.Some? then UnaryRun(t.run, t.data.value) else NullaryRun(t.run)
  }

  /** The hooks of the suite find returns for `name`, if any, in a table `fixtures` describes. */
  function HooksFor(fixtures: map<CString, SuiteHooks>, name: CString): Option<SuiteHooks> {
    if name in fixtures then Some(fixtures[name]) else None
  }

  /** The hooks of the suite object the driver holds, if any. */
  function HooksOf(suite: Suite?): Option<SuiteHooks>
    reads suite
  {
    if suite == null then None else Some(suite.Hooks())
  }

  /**
    The calls the setjmp region attempts for a test that is not skipped:
    setup and teardown only when the suite, the hook and the data are all
    present, the body always.
   */
  function Planned(t: Test, hooks: Option<SuiteHooks>): (calls: seq<Call>)
    ensures 1 <= |calls| <= 3 && BodyCall(t) in calls
    ensures forall i :: 0 <= i < |calls| && calls[i].SetupCall? ==> i == 0 && t.data.Some?
    ensures forall i :: 0 <= i < |calls| && calls[i].TeardownCall? ==> i == |calls| - 1 && t.data.Some?
  {
    (if hooks.Some? && hooks.value.setup.Some? && t.data.Some?
     then [SetupCall(hooks.value.setup.value, t.data.value)] else [])
    + [BodyCall(t)]
    + (if hooks.Some? && hooks.value.teardown.Some? && t.data.Some?
       then [TeardownCall(hooks.value.teardown.value, t.data.value)] else [])
  }

  /** The calls actually made: the planned ones up to and including the first that raises. */
  function Executed(k: nat, calls: seq<Call>, act: Behaviour): (done: seq<Call>)
    ensures done <= calls
    ensures calls != [] ==> done != []
  {
    if calls == [] then []
    else if act.Of(k, calls[0]).outcome == Raised then [calls[0]]
    else [calls[0]] + Executed(k, calls[1..], act)
  }

  /** Every executed call but the last returned; a run cut short ended on a raise. */
  lemma {:induction false} ExecutedStopsAtRaise(k: nat, calls: seq<Call>, act: Behaviour)
    ensures var done := Executed(k, calls, act);
      (forall i :: 0 <= i < |done| - 1 ==> act.Of(k, done[i]).outcome == Returned) &&
      (|done| < |calls| ==> act.Of(k, done[|done| - 1]).outcome == Raised)
    decreases |calls|
  {
    if calls != [] && act.Of(k, calls[0]).outcome != Raised {
      ExecutedStopsAtRaise(k, calls[1..], act);
      var done := Executed(k, calls, act);
      var rest := Executed(k, calls[1..], act);
      assert done == [calls[0]] + rest;
      forall i | 0 <= i < |done| - 1 ensures act.Of(k, done[i]).outcome == Returned {
        if i > 0 { assert done[i] == rest[i - 1]; }
      }
    }
  }

  /** The message lengths the calls in `done` report, in order. */
  function Rets(k: nat, done: seq<Call>, act: Behaviour): seq<int32> {
    if done == [] then [] else Rets(k, done[..|done| - 1], act) + act.Of(k, done[|done| - 1]).rets
  }

  /** [SKIPPED], [OK] or [FAIL]. */
  datatype Status = Skipped | Ok | Failed

  /** One selected test's run: its status, the calls made and the message lengths they reported. */
  datatype TestRun = TestRun(status: Status, calls: seq<Call>, rets: seq<int32>)

  /**
    The body of ctest_main's second loop for the test at position k: a
    skipped test makes no call; otherwise the planned calls run until one
    raises, and the test fails exactly when one raised.
   */
  function RunTest(k: nat, t: Test, hooks: Option<SuiteHooks>, act: Behaviour): TestRun {
    if t.skip then TestRun(Skipped, [], [])
    else
      var done := Executed(k, Planned(t, hooks), act);
      TestRun(if act.Of(k, done[|done| - 1]).outcome == Raised then Failed else Ok, done, Rets(k, done, act))
  }

  /** A test that runs fails exactly when one of the calls it made raised. */
  lemma FailedIffSomeCallRaised(k: nat, t: Test, hooks: Option<SuiteHooks>, act: Behaviour)
    requires !t.skip
    ensures var r := RunTest(k, t, hooks, act);
      r.status == Failed <==> exists i :: 0 <= i < |r.calls| && act.Of(k, r.calls[i]).outcome == Raised
  {
    var r := RunTest(k, t, hooks, act);
    ExecutedStopsAtRaise(k, Planned(t, hooks), act);
    if r.status != Failed {
      forall i | 0 <= i < |r.calls| ensures act.Of(k, r.calls[i]).outcome != Raised {
      }
    }
  }

  /**
    Teardown runs only for a test with data, as its last call, after its
    body, and only when every call before it returned normally.
   */
  lemma TeardownOnlyAfterReturns(k: nat, t: Test, hooks: Option<SuiteHooks>, act: Behaviour, i: nat)
    requires i < |RunTest(k, t, hooks, act).calls|
    requires RunTest(k, t, hooks, act).calls[i].TeardownCall?
    ensures !t.skip && t.data.Some?
    ensures i == |RunTest(k, t, hooks, act).calls| - 1 && 0 < i
    ensures RunTest(k, t, hooks, act).calls[i - 1] == BodyCall(t)
    ensures forall j :: 0 <= j < i ==> act.Of(k, RunTest(k, t, hooks, act).calls[j]).outcome == Returned
  {
    var planned := Planned(t, hooks);
    var done := RunTest(k, t, hooks, act).calls;
    ExecutedStopsAtRaise(k, planned, act);
    assert done[i] == planned[i];
  }

  /** A setup that raises ends the test as failed: neither body nor teardown runs. */
  lemma SetupRaisesStopsTest(k: nat, t: Test, hooks: Option<SuiteHooks>, act: Behaviour)
    requires !t.skip && hooks.Some? && hooks.value.setup.Some? && t.data.Some?
    requires act.Of(k, SetupCall(hooks.value.setup.value, t.data.value)).outcome == Raised
    ensures RunTest(k, t, hooks, act).status == Failed
    ensures RunTest(k, t, hooks, act).calls == [SetupCall(hooks.value.setup.value, t.data.value)]
  {
  }

  /** When every planned call returns, all of them run and the test is ok. */
  lemma AllReturnedPasses(k: nat, t: Test, hooks: Option<SuiteHooks>, act: Behaviour)
    requires !t.skip
    requires forall c :: c in Planned(t, hooks) ==> act.Of(k, c).outcome == Returned
    ensures RunTest(k, t, hooks, act).status == Ok
    ensures RunTest(k, t, hooks, act).calls == Planned(t, hooks)
  {
    ExecutedAllReturned(k, Planned(t, hooks), act);
  }

  lemma {:induction false} ExecutedAllReturned(k: nat, calls: seq<Call>, act: Behaviour)
    requires forall c :: c in calls ==> act.Of(k, c).outcome == Returned
    ensures Executed(k, calls, act) == calls
    decreases |calls|
  {
    if calls != [] {
      assert calls[0] in calls;
      forall c | c in calls[1..] ensures act.Of(k, c).outcome == Returned {
        assert c in calls;
      }
      ExecutedAllReturned(k, calls[1..], act);
    }
  }

  /** The tests the filter selects, in registry order. */
  function Selected(tests: seq<Test>, f: Filter): (s: seq<Test>)
    ensures |s| <= |tests|
  {
    if tests == [] then []
    else
      var last := tests[|tests| - 1];
      Selected(tests[..|tests| - 1], f) + (if Accepts(f, last) then [last] else [])
  }

  /** A test is selected exactly when it is registered and the filter accepts it. */
  lemma {:induction false} SelectedIff(tests: seq<Test>, f: Filter, t: Test)
    ensures t in Selected(tests, f) <==> t in tests && Accepts(f, t)
    decreases |tests|
  {
    if tests != [] {
      var init, last := tests[..|tests| - 1], tests[|tests| - 1];
      assert tests == init + [last];
      SelectedIff(init, f, t);
    }
  }

  /**
    What ctest_main prints for one selected test: "TEST idx/total
    suite:test", the status, and whether the error buffer is printed after
    it (only for a test that ran, when ctest_errorsize moved).
   */
  datatype Line = Line(idx: nat, total: nat, test: Test, status: Status, printed: bool)

  /** The line for test t, numbered idx of total, given its run. */
  function LineOf(idx: nat, total: nat, t: Test, r: TestRun): Line {
    Line(idx, total, t, r.status, !t.skip && Printed(r.rets))
  }

  /** The run of every registered test, by position, whether the filter selects it or not. */
  function Runs(tests: seq<Test>, fixtures: map<CString, SuiteHooks>, act: Behaviour): (runs: seq<TestRun>)
    ensures |runs| == |tests|
  {
    if tests == [] then []
    else
      var k := |tests| - 1;
      Runs(tests[..k], fixtures, act) + [RunTest(k, tests[k], HooksFor(fixtures, tests[k].ssname), act)]
  }

  /** Entry k of Runs is the run of the test at position k, with the hooks of its suite. */
  lemma {:induction false} RunsAt(tests: seq<Test>, fixtures: map<CString, SuiteHooks>, act: Behaviour, k: nat)
    requires k < |tests|
    ensures Runs(tests, fixtures, act)[k] == RunTest(k, tests[k], HooksFor(fixtures, tests[k].ssname), act)
    decreases |tests|
  {
    var n := |tests| - 1;
    if k < n {
      RunsAt(tests[..n], fixtures, act, k);
    }
  }

  /** The lines of the second pass over `tests`, numbered from 1 in registry order; runs[k] is the run of tests[k]. */
  function Lines(tests: seq<Test>, f: Filter, runs: seq<TestRun>, total: nat): (ls: seq<Line>)
    requires |tests| <= |runs|
    ensures |ls| == |Selected(tests, f)|
  {
    if tests == [] then []
    else
      var init, t := tests[..|tests| - 1], tests[|tests| - 1];
      var prev := Lines(init, f, runs, total);
      assert Selected(tests, f) == Selected(init, f) + (if Accepts(f, t) then [t] else []);
      if Accepts(f, t) then prev + [LineOf(|prev| + 1, total, t, runs[|tests| - 1])] else prev
  }

  /** A skipped test's run is reported as skipped and formats nothing; a test that runs is never reported skipped. */
  lemma SkipIffSkipped(k: nat, t: Test, hooks: Option<SuiteHooks>, act: Behaviour)
    ensures RunTest(k, t, hooks, act).status == Skipped <==> t.skip
    ensures t.skip ==> RunTest(k, t, hooks, act) == TestRun(Skipped, [], [])
  {
  }

  /**
    Line i reports the i-th selected test as test i + 1 of `total`; a test
    is reported skipped exactly when it is marked skip, and then no buffer
    is printed after it.
   */
  lemma {:induction false} LinesNumbered(tests: seq<Test>, f: Filter, fixtures: map<CString, SuiteHooks>, act: Behaviour, total: nat)
    ensures var ls := Lines(tests, f, Runs(tests, fixtures, act), total);
      forall i :: 0 <= i < |ls| ==>
        && ls[i].idx == i + 1 && ls[i].total == total && ls[i].test == Selected(tests, f)[i]
        && (ls[i].status == Skipped <==> ls[i].test.skip)
        && (ls[i].test.skip ==> !ls[i].printed)
  {
    var runs := Runs(tests, fixtures, act);
    forall k | 0 <= k < |tests| ensures runs[k].status == Skipped <==> tests[k].skip {
      RunsAt(tests, fixtures, act, k);
      SkipIffSkipped(k, tests[k], HooksFor(fixtures, tests[k].ssname), act);
    }
    LinesNumberedBy(tests, f, runs, total);
  }

  lemma {:induction false} LinesNumberedBy(tests: seq<Test>, f: Filter, runs: seq<TestRun>, total: nat)
    requires |tests| <= |runs|
    requires forall k :: 0 <= k < |tests| ==> (runs[k].status == Skipped <==> tests[k].skip)
    ensures var ls := Lines(tests, f, runs, total);
      forall i :: 0 <= i < |ls| ==>
        && ls[i].idx == i + 1 && ls[i].total == total && ls[i].test == Selected(tests, f)[i]
        && (ls[i].status == Skipped <==> ls[i].test.skip)
        && (ls[i].test.skip ==> !ls[i].printed)
    decreases |tests|
  {
    if tests != [] {
      var init, t := tests[..|tests| - 1], tests[|tests| - 1];
      LinesNumberedBy(init, f, runs, total);
      var prev, ls := Lines(init, f, runs, total), Lines(tests, f, runs, total);
      var sel := Selected(tests, f);
      assert sel == Selected(init, f) + (if Accepts(f, t) then [t] else []);
      forall i | 0 <= i < |ls|
        ensures ls[i].idx == i + 1 && ls[i].total == total && ls[i].test == sel[i]
        ensures (ls[i].status == Skipped <==> ls[i].test.skip) && (ls[i].test.skip ==> !ls[i].printed)
      {
        if i < |prev| {
          assert ls[i] == prev[i];
          assert Lines(init, f, runs, total)[i].idx == i + 1;
        } else {
          assert ls == prev + [LineOf(|prev| + 1, total, t, runs[|tests| - 1])];
        }
      }
    }
  }

  /** How many lines carry status `s`. */
  function CountStatus(ls: seq<Line>, s: Status): nat {
    if ls == [] then 0
    else CountStatus(ls[..|ls| - 1], s) + (if ls[|ls| - 1].status == s then 1 else 0)
  }

  lemma {:induction false} CountsAddUp(ls: seq<Line>)
    ensures CountStatus(ls, Ok) + CountStatus(ls, Failed) + CountStatus(ls, Skipped) == |ls|
    decreases |ls|
  {
    if ls != [] {
      CountsAddUp(ls[..|ls| - 1]);
    }
  }

  /** The counters and the output of ctest_main: total, num_ok, num_fail, num_skip and the lines printed. */
  datatype Report = Report(total: nat, ok: nat, fail: nat, skip: nat, lines: seq<Line>)

  /** The counters after one more line: the one of its status goes up by one. */
  function Counted(r: Report, line: Line): Report {
    Report(r.total,
           r.ok + (if line.status == Ok then 1 else 0),
           r.fail + (if line.status == Failed then 1 else 0),
           r.skip + (if line.status == Skipped then 1 else 0),
           r.lines + [line])
  }

  /** The counters once the second pass has visited `tests`, one test at a time. */
  function Tally(tests: seq<Test>, f: Filter, runs: seq<TestRun>, total: nat): Report
    requires |tests| <= |runs|
  {
    if tests == [] then Report(total, 0, 0, 0, [])
    else
      var k := |tests| - 1;
      var acc := Tally(tests[..k], f, runs, total);
      if Accepts(f, tests[k]) then Counted(acc, LineOf(|acc.lines| + 1, total, tests[k], runs[k])) else acc
  }

  /** Visiting the test at position k adds its line, numbered after the earlier ones, if the filter accepts it. */
  lemma TallyStep(tests: seq<Test>, k: nat, f: Filter, runs: seq<TestRun>, total: nat)
    requires k < |tests| <= |runs|
    ensures var acc := Tally(tests[..k], f, runs, total);
      Tally(tests[..k + 1], f, runs, total) ==
        if Accepts(f, tests[k]) then Counted(acc, LineOf(|acc.lines| + 1, total, tests[k], runs[k])) else acc
  {
    assert tests[..k + 1][..k] == tests[..k];
  }

  /** The fold prints the lines of Lines, under the given total. */
  lemma {:induction false} TallyLines(tests: seq<Test>, f: Filter, runs: seq<TestRun>, total: nat)
    requires |tests| <= |runs|
    ensures Tally(tests, f, runs, total).total == total
    ensures Tally(tests, f, runs, total).lines == Lines(tests, f, runs, total)
    decreases |tests|
  {
    if tests != [] {
      TallyLines(tests[..|tests| - 1], f, runs, total);
    }
  }

  /** Each counter counts the lines of its status. */
  lemma {:induction false} TallyCounts(tests: seq<Test>, f: Filter, runs: seq<TestRun>, total: nat)
    requires |tests| <= |runs|
    ensures var r := Tally(tests, f, runs, total);
      r.ok == CountStatus(r.lines, Ok) && r.fail == CountStatus(r.lines, Failed) && r.skip == CountStatus(r.lines, Skipped)
    decreases |tests|
  {
    if tests != [] {
      var k := |tests| - 1;
      TallyCounts(tests[..k], f, runs, total);
      var acc := Tally(tests[..k], f, runs, total);
      if Accepts(f, tests[k]) {
        CountedCounts(acc, LineOf(|acc.lines| + 1, total, tests[k], runs[k]));
      }
    }
  }

  /** Counting one more line keeps every counter equal to the number of lines of its status. */
  lemma CountedCounts(r: Report, line: Line)
    requires r.ok == CountStatus(r.lines, Ok) && r.fail == CountStatus(r.lines, Failed) && r.skip == CountStatus(r.lines, Skipped)
    ensures var n := Counted(r, line);
      n.ok == CountStatus(n.lines, Ok) && n.fail == CountStatus(n.lines, Failed) && n.skip == CountStatus(n.lines, Skipped)
  {
    var ls := r.lines + [line];
    assert ls[..|ls| - 1] == r.lines;
  }

  /** One ctest_main invocation over `tests`: every selected test is counted exactly once. */
  function Run(tests: seq<Test>, f: Filter, fixtures: map<CString, SuiteHooks>, act: Behaviour): (r: Report)
    ensures r.total == |Selected(tests, f)| == |r.lines|
    ensures r.total == r.ok + r.fail + r.skip
  {
    var r := Tally(tests, f, Runs(tests, fixtures, act), |Selected(tests, f)|);
    TallyLines(tests, f, Runs(tests, fixtures, act), |Selected(tests, f)|);
    TallyCounts(tests, f, Runs(tests, fixtures, act), |Selected(tests, f)|);
    CountsAddUp(r.lines);
    r
  }

  /** The first pass of ctest_main: count the tests the filter accepts. */
  method CountSelected(list: TestList, ghost tests: seq<Test>, f: Filter) returns (total: nat)
    requires list.Walks(tests)
    ensures total == |Selected(tests, f)|
  {
    total := 0;
    var node := list.head.next;
    var i := 0;
    while node != list.head
      invariant 0 <= i <= |tests| && node == list.Succ(i - 1)
      invariant total == |Selected(tests[..i], f)|
      decreases |tests| - i
    {
      var t := node.entry.value;
      assert tests[..i + 1][..i] == tests[..i];
      if Accepts(f, t) {
        total := total + 1;
      }
      node := node.next;
      i := i + 1;
    }
    assert tests[..i] == tests;
  }

  /** The calls after setup: the body, then teardown when there is one and the body returned. */
  function BodyPhase(k: nat, t: Test, hooks: Option<SuiteHooks>, act: Behaviour): (calls: seq<Call>)
    ensures calls != [] && calls[0] == BodyCall(t)
  {
    if hooks.Some? && hooks.value.teardown.Some? && t.data.Some? && act.Of(k, BodyCall(t)).outcome != Raised
    then [BodyCall(t), TeardownCall(hooks.value.teardown.value, t.data.value)]
    else [BodyCall(t)]
  }

  /**
    The calls of one test in the shape ctest_main's code has: setup when
    the suite, the hook and the data are present; the rest unless setup
    raised.
   */
  function Phased(k: nat, t: Test, hooks: Option<SuiteHooks>, act: Behaviour): (calls: seq<Call>)
    ensures calls != []
  {
    if hooks.Some? && hooks.value.setup.Some? && t.data.Some? then
      var setup := SetupCall(hooks.value.setup.value, t.data.value);
      if act.Of(k, setup).outcome == Raised then [setup] else [setup] + BodyPhase(k, t, hooks, act)
    else BodyPhase(k, t, hooks, act)
  }

  /** The straight-line shape and the run-until-raise definition make the same calls. */
  lemma PhasedIsExecuted(k: nat, t: Test, hooks: Option<SuiteHooks>, act: Behaviour)
    ensures Phased(k, t, hooks, act) == Executed(k, Planned(t, hooks), act)
  {
    var planned := Planned(t, hooks);
    if hooks.Some? && hooks.value.setup.Some? && t.data.Some? {
      // setup, then the body phase
      assert planned[1..][0] == BodyCall(t);
      assert planned[1..][1..] == planned[2..];
    } else {
      // the body phase alone
      assert planned[0] == BodyCall(t);
    }
  }

  /** A test that runs, described by the straight-line shape of its calls. */
  lemma RunTestIsPhased(k: nat, t: Test, hooks: Option<SuiteHooks>, act: Behaviour)
    requires !t.skip
    ensures var calls := Phased(k, t, hooks, act);
      RunTest(k, t, hooks, act) ==
        TestRun(if act.Of(k, calls[|calls| - 1]).outcome == Raised then Failed else Ok, calls, Rets(k, calls, act))
  {
    PhasedIsExecuted(k, t, hooks, act);
  }

  /** The line of a test that runs, in terms of the straight-line shape of its calls. */
  lemma LineOfRun(k: nat, idx: nat, total: nat, t: Test, fixtures: map<CString, SuiteHooks>, act: Behaviour)
    requires !t.skip
    ensures var calls := Phased(k, t, HooksFor(fixtures, t.ssname), act);
      LineOf(idx, total, t, RunTest(k, t, HooksFor(fixtures, t.ssname), act)) ==
        Line(idx, total, t, if act.Of(k, calls[|calls| - 1]).outcome == Raised then Failed else Ok,
             VprintAll(Fresh, Rets(k, calls, act)).remaining != MsgSize - 1)
  {
    RunTestIsPhased(k, t, HooksFor(fixtures, t.ssname), act);
  }

  /** The lengths reported by two runs of calls, one after the other. */
  lemma {:induction false} RetsAppend(k: nat, a: seq<Call>, b: seq<Call>, act: Behaviour)
    ensures Rets(k, a + b, act) == Rets(k, a, act) + Rets(k, b, act)
    decreases |b|
  {
    if b == [] {
      assert a + b == a;
    } else {
      var init := b[..|b| - 1];
      assert (a + b)[..|a + b| - 1] == a + init;
      RetsAppend(k, a, init, act);
    }
  }

  /**
    One call in the setjmp region: the messages the call formats go through
    vprint_errormsg, in order.
   */
  method Perform(k: nat, call: Call, act: Behaviour, buf: MessageBuffer) returns (raised: bool)
    requires buf.Valid()
    modifies buf
    ensures buf.Valid()
    ensures raised <==> act.Of(k, call).outcome == Raised
    ensures buf.Current() == VprintAll(old(buf.Current()), Rets(k, [call], act))
  {
    var e := act.Of(k, call);
    buf.VprintEach(e.rets);
    raised := e.outcome == Raised;
    assert Rets(k, [call], act) == e.rets;
  }

  /** The body, then teardown if the suite, its teardown hook and the data are present; a raise skips teardown. */
  method RunBody(k: nat, t: Test, hooks: Option<SuiteHooks>, act: Behaviour, buf: MessageBuffer) returns (raised: bool)
    requires buf.Valid()
    modifies buf
    ensures buf.Valid()
    ensures var calls := BodyPhase(k, t, hooks, act);
      (raised <==> act.Of(k, calls[|calls| - 1]).outcome == Raised) &&
      buf.Current() == VprintAll(old(buf.Current()), Rets(k, calls, act))
  {
    ghost var start := buf.Current();
    var body := BodyCall(t);
    raised := Perform(k, body, act, buf);
    if !raised && hooks.Some? && hooks.value.teardown.Some? && t.data.Some? {
      var teardown := TeardownCall(hooks.value.teardown.value, t.data.value);
      raised := Perform(k, teardown, act, buf);
      VprintAllAppend(start, Rets(k, [body], act), Rets(k, [teardown], act));
      RetsAppend(k, [body], [teardown], act);
      assert [body] + [teardown] == [body, teardown];
    }
  }

  /**
    The setjmp region of ctest_main for one test that is not skipped:
    setup if the suite, its setup hook and the data are present, then the
    body and teardown; a raise skips the rest.
   */
  method RunOne(k: nat, t: Test, suite: Suite?, act: Behaviour, buf: MessageBuffer) returns (status: Status)
    requires !t.skip && buf.Valid()
    modifies buf
    ensures buf.Valid()
    ensures var calls := Phased(k, t, old(HooksOf(suite)), act);
      (status == Failed <==> act.Of(k, calls[|calls| - 1]).outcome == Raised) && status != Skipped &&
      buf.Current() == VprintAll(old(buf.Current()), Rets(k, calls, act))
  {
    ghost var start := buf.Current();
    var hooks := HooksOf(suite);
    var raised := false;
    if hooks.Some? && hooks.value.setup.Some? && t.data.Some? {
      var setup := SetupCall(hooks.value.setup.value, t.data.value);
      raised := Perform(k, setup, act, buf);
      if !raised {
        raised := RunBody(k, t, hooks, act, buf);
        var rest := BodyPhase(k, t, hooks, act);
        VprintAllAppend(start, Rets(k, [setup], act), Rets(k, rest, act));
        RetsAppend(k, [setup], rest, act);
      }
    } else {
      raised := RunBody(k, t, hooks, act, buf);
    }
    status := if raised then Failed else Ok;
  }

  /** The suite index is set up and answers find as `fixtures` says. */
  ghost predicate Ready(table: SuiteTable, fixtures: map<CString, SuiteHooks>)
    reads table, table.heads, table.Links, table.Repr
  {
    table.Valid() && table.Initialized() && table.Holds(fixtures)
  }

  /**
    A test that is not skipped, from the setjmp region on: run it with the
    hooks of the suite found for it, and print the buffer when
    ctest_errorsize moved.
   */
  method RunFound(k: nat, idx: nat, total: nat, t: Test, suite: Suite?,
                  ghost fixtures: map<CString, SuiteHooks>, act: Behaviour, buf: MessageBuffer)
    returns (line: Line)
    requires !t.skip && buf.Valid() && buf.Current() == Fresh
    requires HooksOf(suite) == HooksFor(fixtures, t.ssname)
    modifies buf
    ensures line == LineOf(idx, total, t, RunTest(k, t, HooksFor(fixtures, t.ssname), act))
  {
    var status := RunOne(k, t, suite, act, buf);
    LineOfRun(k, idx, total, t, fixtures, act);
    line := Line(idx, total, t, status, buf.errorsize != MsgSize - 1);
  }

  /**
    The body of ctest_main's second loop for a test the filter accepted:
    reset the error buffer, then either report the test as skipped or look
    its suite up and run it.
   */
  method RunSelected(k: nat, idx: nat, total: nat, t: Test, table: SuiteTable,
                     ghost fixtures: map<CString, SuiteHooks>, act: Behaviour, buf: MessageBuffer)
    returns (line: Line)
    requires Ready(table, fixtures)
    modifies buf
    ensures line == LineOf(idx, total, t, RunTest(k, t, HooksFor(fixtures, t.ssname), act))
  {
    table.HoldsAt(fixtures, t.ssname);
    buf.Reset();
    if t.skip {
      return Line(idx, total, t, Skipped, false);
    }
    var suite := table.FindSuite(t.ssname);
    line := RunFound(k, idx, total, t, suite, fixtures, act, buf);
  }

  /** The summary counters of ctest_main: the line's status picks the counter that goes up. */
  method Record(acc: Report, line: Line) returns (next: Report)
    ensures next == Counted(acc, line)
  {
    next := acc;
    match line.status {
      case Ok => next := next.(ok := next.ok + 1);
      case Failed => next := next.(fail := next.fail + 1);
      case Skipped => next := next.(skip := next.skip + 1);
    }
    next := next.(lines := acc.lines + [line]);
  }

  /**
    One iteration of ctest_main's second loop, on the test at position k:
    a test the filter accepts is run and counted under its status.
   */
  method Visit(k: nat, t: Test, ghost tests: seq<Test>, f: Filter, table: SuiteTable,
               ghost fixtures: map<CString, SuiteHooks>, act: Behaviour, buf: MessageBuffer,
               ghost runs: seq<TestRun>, total: nat, acc: Report, idx: nat)
    returns (next: Report, nextIdx: nat)
    requires k < |tests| && tests[k] == t && runs == Runs(tests, fixtures, act)
    requires acc == Tally(tests[..k], f, runs, total) && idx == |acc.lines| + 1
    requires Ready(table, fixtures)
    modifies buf
    ensures next == Tally(tests[..k + 1], f, runs, total) && nextIdx == |next.lines| + 1
  {
    RunsAt(tests, fixtures, act, k);
    TallyStep(tests, k, f, runs, total);
    next, nextIdx := acc, idx;
    if Accepts(f, t) {
      var line := RunSelected(k, idx, total, t, table, fixtures, act, buf);
      next := Record(acc, line);
      nextIdx := idx + 1;
    }
  }

  /** ctest_main's second loop: visit the registry in order, running and counting the selected tests. */
  method SecondPass(list: TestList, ghost tests: seq<Test>, f: Filter, total: nat, table: SuiteTable,
                    ghost fixtures: map<CString, SuiteHooks>, act: Behaviour, buf: MessageBuffer)
    returns (report: Report)
    requires list.Walks(tests) && Ready(table, fixtures)
    modifies buf
    ensures report == Tally(tests, f, Runs(tests, fixtures, act), total)
  {
    ghost var runs := Runs(tests, fixtures, act);
    assert tests[..0] == [];
    report := Report(total, 0, 0, 0, []);
    var idx := 1;
    var node := list.head.next;
    var i := 0;
    while node != list.head
      invariant 0 <= i <= |tests| && node == old(list.Succ(i - 1))
      invariant report == Tally(tests[..i], f, runs, total) && idx == |report.lines| + 1
      decreases |tests| - i
    {
      report, idx := Visit(i, node.entry.value, tests, f, table, fixtures, act, buf, runs, total, report, idx);
      node := node.next;
      i := i + 1;
    }
    assert tests[..i] == tests;
  }

  /**
    ctest_main(argc, argv): choose the filter, count the selected tests,
    run them in registry order and return the number that failed.
   */
  method CtestMain(argv: seq<CString>, list: TestList, table: SuiteTable,
                   ghost fixtures: map<CString, SuiteHooks>, act: Behaviour, buf: MessageBuffer)
    returns (ret: int, report: Report)
    requires list.Valid() && Ready(table, fixtures)
    modifies buf
    ensures report == Run(old(list.Tests()), SelectFilter(argv), fixtures, act)
    ensures ret == report.fail
  {
    ghost var tests := list.Tests();
    var filter := SelectFilter(argv);
    list.ValidWalks();
    var total := CountSelected(list, tests, filter);
    report := SecondPass(list, tests, filter, total, table, fixtures, act, buf);
    ret := report.fail;
  }
}
