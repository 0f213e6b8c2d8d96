/**
 * The Flutter test debug session: the bridge between the test runner's
 * notification stream and the output events shown by the debugging host.
 *
 * The session keeps three id-indexed registries (suites, groups, tests) and
 * the log of output events it has sent. Registration notifications write into
 * the registries; completion notifications append one output line each.
 * `SessionState`, `Handle` and `Run` give the same behaviour as values, so that
 * what a whole stream of notifications produces can be stated and proved.
 */
module FlutterTestDebug {
  import opened Wrappers
  import opened TestProtocol

  /** Marker shown before the name of a test that passed. */
  const Tick: char := '✓'
  /** Marker shown before the name of a test that did not pass. */
  const Cross: char := '✖'

  const PreviewFlag: string := "--preview-dart-2"
  const NoPreviewFlag: string := "--no-preview-dart-2"

  const AllPassed: string := "All tests passed!\n"
  const SomeFailed: string := "Some tests failed.\n"

  /** The output category an event is tagged with. */
  datatype Channel = Stdout | Stderr

  /** One output event sent to the debugging host. */
  datatype OutputEvent = OutputEvent(output: string, category: Channel)

  /**
   * The part of the launch configuration that the argument list depends on,
   * plus `noDebug`, which the session reads but which does not reach the list.
   */
  datatype LaunchArgs = LaunchArgs(noDebug: bool, previewDart2: Option<bool>, args: Option<seq<string>>)

  /** The user's extra arguments; an absent list contributes nothing. */
  function ExtraArgs(a: LaunchArgs): seq<string>
  {
    if a.args.Some? then a.args.value else []
  }

  /** The marker for a test result: a tick exactly for "success". */
  function Symbol(result: string): (c: char)
    ensures c == Tick <==> result == "success"
    ensures c == Tick || c == Cross
  {
    if result == "success" then Tick else Cross
  }

  /** The line written for a completed test: marker, space, test name, newline. */
  function TestLine(result: string, name: string): (line: string)
    ensures |line| == |name| + 3
    ensures line[0] == Symbol(result) && line[1] == ' '
    ensures line[2..|line| - 1] == name && line[|line| - 1] == '\n'
  {
    [Symbol(result)] + " " + name + "\n"
  }

  /** A result line gives back both the test's name and whether it passed. */
  lemma TestLineDeterminesOutcome(r1: string, n1: string, r2: string, n2: string)
    ensures TestLine(r1, n1) == TestLine(r2, n2) <==> n1 == n2 && (r1 == "success" <==> r2 == "success")
  {
    var l1, l2 := TestLine(r1, n1), TestLine(r2, n2);
    if l1 == l2 {
      assert n1 == l1[2..|l1| - 1] == l2[2..|l2| - 1] == n2;
      assert Symbol(r1) == l1[0] == l2[0] == Symbol(r2);
    }
  }

  /** The summary event: the passed message on stdout exactly when the run succeeded. */
  function SummaryEvent(success: bool): (e: OutputEvent)
    ensures e.category == Stdout <==> success
    ensures e.output == if success then AllPassed else SomeFailed
  {
    if success then OutputEvent(AllPassed, Stdout) else OutputEvent(SomeFailed, Stderr)
  }

  /** The session's state as a value: the three registries and the output sent so far. */
  datatype SessionState = SessionState(
    suites: map<int, Suite>,
    groups: map<int, Group>,
    tests: map<int, Test>,
    output: seq<OutputEvent>)

  /** The state of a freshly constructed session. */
  const Initial: SessionState := SessionState(map[], map[], map[], [])

  /** A notification the session can handle: a test-done only for a registered test. */
  predicate Enabled(s: SessionState, n: Notification)
  {
    n.TestDone? ==> n.testDone.testID in s.tests
  }

  /** The one output event a completion notification produces in state `s`. */
  function CompletionEvent(s: SessionState, n: Notification): OutputEvent
    requires IsCompletion(n) && Enabled(s, n)
  {
    match n
    case TestDone(d) => OutputEvent(TestLine(d.result, s.tests[d.testID].name), Stdout)
    case Done(d) => SummaryEvent(d.success)
  }

  /**
   * The effect of one notification. A registration writes its entity at its
   * id in one table and sends nothing; a completion leaves the tables alone
   * and appends exactly one event.
   */
  function Handle(s: SessionState, n: Notification): (s': SessionState)
    requires Enabled(s, n)
    ensures s'.output == s.output + (if IsCompletion(n) then [CompletionEvent(s, n)] else [])
    ensures IsCompletion(n) ==> s'.suites == s.suites && s'.groups == s.groups && s'.tests == s.tests
    ensures n.SuiteRegistered? ==>
      s'.suites.Keys == s.suites.Keys + {n.suite.id} && s'.suites[n.suite.id] == n.suite
      && (forall id :: id in s.suites && id != n.suite.id ==> s'.suites[id] == s.suites[id])
      && s'.groups == s.groups && s'.tests == s.tests
    ensures n.TestStarted? ==>
      s'.tests.Keys == s.tests.Keys + {n.test.id} && s'.tests[n.test.id] == n.test
      && (forall id :: id in s.tests && id != n.test.id ==> s'.tests[id] == s.tests[id])
      && s'.suites == s.suites && s'.groups == s.groups
    ensures n.GroupRegistered? ==>
      s'.groups.Keys == s.groups.Keys + {n.group.id} && s'.groups[n.group.id] == n.group
      && (forall id :: id in s.groups && id != n.group.id ==> s'.groups[id] == s.groups[id])
      && s'.suites == s.suites && s'.tests == s.tests
  {
    match n
    case SuiteRegistered(suite) => s.(suites := s.suites[suite.id := suite])
    case TestStarted(test) => s.(tests := s.tests[test.id := test])
    case GroupRegistered(group) => s.(groups := s.groups[group.id := group])
    case TestDone(_) => s.(output := s.output + [CompletionEvent(s, n)])
    case Done(_) => s.(output := s.output + [CompletionEvent(s, n)])
  }

  /** A stream the session can process in order: every test-done finds its test registered. */
  predicate Admissible(s: SessionState, ns: seq<Notification>)
    decreases |ns|
  {
    ns == [] || (Enabled(s, ns[0]) && Admissible(Handle(s, ns[0]), ns[1..]))
  }

  /**
   * Processing a stream in arrival order. Output is only ever appended to,
   * one event per completion notification.
   */
  function Run(s: SessionState, ns: seq<Notification>): (s': SessionState)
    requires Admissible(s, ns)
    ensures |s'.output| == |s.output| + CountCompletions(ns)
    ensures s'.output[..|s.output|] == s.output
    decreases |ns|
  {
    if ns == [] then s else Run(Handle(s, ns[0]), ns[1..])
  }

  /**
   * The debug session object. Its registries are written in place by the
   * registration handlers and its output log grows with every completion.
   */
  class FlutterTestDebugSession {
    var suites: map<int, Suite>
    var groups: map<int, Group>
    var tests: map<int, Test>
    /** The output events sent to the host, oldest first. */
    var events: seq<OutputEvent>

    constructor ()
      ensures State() == Initial
    {
      suites, groups, tests, events := map[], map[], map[], [];
    }

    /** The session's fields as a `SessionState` value. */
    function State(): SessionState
      reads this
    {
      SessionState(suites, groups, tests, events)
    }

    /**
     * The argument list for the test runner: the preview flag first, if the
     * configuration sets one, then the user's extra arguments unchanged and
     * in order. `noDebug` has no effect on it.
     */
    method BuildAppArgs(a: LaunchArgs) returns (appArgs: seq<string>)
      ensures |appArgs| == (if a.previewDart2.Some? then 1 else 0) + |ExtraArgs(a)|
      ensures a.previewDart2 == Some(true) ==> appArgs[0] == PreviewFlag
      ensures a.previewDart2 == Some(false) ==> appArgs[0] == NoPreviewFlag
      ensures appArgs[|appArgs| - |ExtraArgs(a)|..] == ExtraArgs(a)
    {
      appArgs := [];
      match a.previewDart2 {
        case Some(true) => appArgs := appArgs + [PreviewFlag];
        case Some(false) => appArgs := appArgs + [NoPreviewFlag];
        case None =>
      }
      if a.args.Some? {
        appArgs := appArgs + a.args.value;
      }
    }

    /** Suite notification: store the suite at its id. */
    method RegisterSuite(suite: Suite)
      modifies this
      ensures suites == old(suites)[suite.id := suite]
      ensures groups == old(groups) && tests == old(tests) && events == old(events)
      ensures State() == Handle(old(State()), SuiteRegistered(suite))
    {
      suites := suites[suite.id := suite];
    }

    /** Test-start notification: store the test at its id. */
    method RegisterTest(test: Test)
      modifies this
      ensures tests == old(tests)[test.id := test]
      ensures suites == old(suites) && groups == old(groups) && events == old(events)
      ensures State() == Handle(old(State()), TestStarted(test))
    {
      tests := tests[test.id := test];
    }

    /** Group notification: store the group at its id. */
    method RegisterGroup(group: Group)
      modifies this
      ensures groups == old(groups)[group.id := group]
      ensures suites == old(suites) && tests == old(tests) && events == old(events)
      ensures State() == Handle(old(State()), GroupRegistered(group))
    {
      groups := groups[group.id := group];
    }

    /**
     * Test-done notification: one stdout line naming the registered test,
     * marked by whether its result is "success". The test must have been
     * registered: its record is read without a check.
     */
    method WriteTestResult(testDone: TestDoneNotification)
      requires testDone.testID in tests
      modifies this
      ensures events == old(events) + [OutputEvent(TestLine(testDone.result, old(tests)[testDone.testID].name), Stdout)]
      ensures suites == old(suites) && groups == old(groups) && tests == old(tests)
      ensures State() == Handle(old(State()), TestDone(testDone))
    {
      var test := tests[testDone.testID];
      events := events + [OutputEvent(TestLine(testDone.result, test.name), Stdout)];
    }

    /** Done notification: the summary line, on stdout if the run passed and on stderr otherwise. */
    method WriteResult(done: DoneNotification)
      modifies this
      ensures done.success ==> events == old(events) + [OutputEvent(AllPassed, Stdout)]
      ensures !done.success ==> events == old(events) + [OutputEvent(SomeFailed, Stderr)]
      ensures suites == old(suites) && groups == old(groups) && tests == old(tests)
      ensures State() == Handle(old(State()), Done(done))
    {
      if done.success {
        events := events + [OutputEvent(AllPassed, Stdout)];
      } else {
        events := events + [OutputEvent(SomeFailed, Stderr)];
      }
    }

    /** The subscriptions: each notification kind goes to its handler. */
    method Dispatch(n: Notification)
      requires Enabled(State(), n)
      modifies this
      ensures State() == Handle(old(State()), n)
    {
      match n
      case SuiteRegistered(suite) => RegisterSuite(suite);
      case TestStarted(test) => RegisterTest(test);
      case TestDone(testDone) => WriteTestResult(testDone);
      case GroupRegistered(group) => RegisterGroup(group);
      case Done(done) => WriteResult(done);
    }
  }
}
