/**
 * What a whole stream of notifications does to the session: output is one
 * event per completion, in arrival order; registrations only fill the
 * registries, where the last write for an id wins; a test's result line
 * carries the name registered for its id.
 */
module SessionProperties {
  import opened TestProtocol
  import opened FlutterTestDebug

  /** Processing `a + b` is processing `a`, then `b` from where `a` left off. */
  lemma {:induction false} RunAppend(s: SessionState, a: seq<Notification>, b: seq<Notification>)
    requires Admissible(s, a + b)
    ensures Admissible(s, a) && Admissible(Run(s, a), b)
    ensures Run(s, a + b) == Run(Run(s, a), b)
    decreases |a|
  {
    if a == [] {
      assert a + b == b;
    } else {
      assert (a + b)[0] == a[0] && (a + b)[1..] == a[1..] + b;
      RunAppend(Handle(s, a[0]), a[1..], b);
    }
  }

  /** A stream of registrations sends nothing to the host. */
  lemma {:induction false} RegistrationsEmitNothing(s: SessionState, ns: seq<Notification>)
    requires Admissible(s, ns)
    requires forall j :: 0 <= j < |ns| ==> IsRegistration(ns[j])
    ensures Run(s, ns).output == s.output
    decreases |ns|
  {
    if ns != [] {
      RegistrationsEmitNothing(Handle(s, ns[0]), ns[1..]);
    }
  }

  /** A stream of completions leaves all three registries as they were. */
  lemma {:induction false} CompletionsKeepRegistries(s: SessionState, ns: seq<Notification>)
    requires Admissible(s, ns)
    requires forall j :: 0 <= j < |ns| ==> IsCompletion(ns[j])
    ensures Run(s, ns).suites == s.suites && Run(s, ns).groups == s.groups && Run(s, ns).tests == s.tests
    decreases |ns|
  {
    if ns != [] {
      CompletionsKeepRegistries(Handle(s, ns[0]), ns[1..]);
    }
  }

  /**
   * The completion at position `i` of the stream produces the output event
   * at position (events before the stream) + (completions before `i`): one
   * event per completion, in arrival order; the events after it are exactly
   * those of the later completions.
   */
  lemma OutputFollowsCompletionOrder(s: SessionState, ns: seq<Notification>, i: nat)
    requires Admissible(s, ns) && i < |ns| && IsCompletion(ns[i])
    ensures Admissible(s, ns[..i]) && Enabled(Run(s, ns[..i]), ns[i])
    ensures |Run(s, ns).output| == |s.output| + CountCompletions(ns[..i]) + 1 + CountCompletions(ns[i + 1..])
    ensures Run(s, ns).output[|s.output| + CountCompletions(ns[..i])] == CompletionEvent(Run(s, ns[..i]), ns[i])
  {
    assert ns == ns[..i] + ns[i..];
    RunAppend(s, ns[..i], ns[i..]);
    var m := Run(s, ns[..i]);
    var rest := ns[i..];
    assert rest[0] == ns[i] && rest[1..] == ns[i + 1..];
    var h := Handle(m, ns[i]);
    assert Run(m, rest) == Run(h, ns[i + 1..]);
    var k := |s.output| + CountCompletions(ns[..i]);
    assert |m.output| == k;
    assert h.output[k] == CompletionEvent(m, ns[i]);
    assert Run(h, ns[i + 1..]).output[..|h.output|] == h.output;
  }

  /** A test keeps its registered record while no later test-start reuses its id. */
  lemma {:induction false} TestKeptWithoutRestart(s: SessionState, ns: seq<Notification>, id: int)
    requires Admissible(s, ns) && id in s.tests
    requires forall j :: 0 <= j < |ns| && ns[j].TestStarted? ==> ns[j].test.id != id
    ensures id in Run(s, ns).tests && Run(s, ns).tests[id] == s.tests[id]
    decreases |ns|
  {
    if ns != [] {
      TestKeptWithoutRestart(Handle(s, ns[0]), ns[1..], id);
    }
  }

  /** Last write wins: the final record at an id is the one its last test-start carried. */
  lemma LastRegistrationWins(s: SessionState, ns: seq<Notification>, i: nat)
    requires Admissible(s, ns) && i < |ns| && ns[i].TestStarted?
    requires forall j :: i < j < |ns| && ns[j].TestStarted? ==> ns[j].test.id != ns[i].test.id
    ensures ns[i].test.id in Run(s, ns).tests && Run(s, ns).tests[ns[i].test.id] == ns[i].test
  {
    assert ns == ns[..i + 1] + ns[i + 1..];
    RunAppend(s, ns[..i + 1], ns[i + 1..]);
    assert ns[..i + 1] == ns[..i] + [ns[i]];
    RunAppend(s, ns[..i], [ns[i]]);
    var m := Run(s, ns[..i]);
    assert Run(s, ns[..i + 1]) == Handle(m, ns[i]);
    TestKeptWithoutRestart(Handle(m, ns[i]), ns[i + 1..], ns[i].test.id);
  }

  /** The registered test ids after a stream: those before it and those it started. */
  lemma {:induction false} RegisteredTestIds(s: SessionState, ns: seq<Notification>)
    requires Admissible(s, ns)
    ensures Run(s, ns).tests.Keys == s.tests.Keys + StartedIds(ns)
    decreases |ns|
  {
    if ns != [] {
      var h := Handle(s, ns[0]);
      RegisteredTestIds(h, ns[1..]);
      StartedIdsCons(ns);
    }
  }

  /** The ids a non-empty stream starts: its head's, if it is a test-start, and its tail's. */
  lemma StartedIdsCons(ns: seq<Notification>)
    requires ns != []
    ensures StartedIds(ns) == (if ns[0].TestStarted? then {ns[0].test.id} else {}) + StartedIds(ns[1..])
  {
    forall id | id in StartedIds(ns)
      ensures id in (if ns[0].TestStarted? then {ns[0].test.id} else {}) + StartedIds(ns[1..])
    {
      var j :| 0 <= j < |ns| && ns[j].TestStarted? && ns[j].test.id == id;
      if j > 0 { assert ns[1..][j - 1] == ns[j]; }
    }
    forall id | id in StartedIds(ns[1..]) ensures id in StartedIds(ns) {
      var j :| 0 <= j < |ns[1..]| && ns[1..][j].TestStarted? && ns[1..][j].test.id == id;
      assert ns[j + 1] == ns[1..][j];
    }
  }

  /** Every test-done of the stream names a test registered before the stream or started earlier in it. */
  ghost predicate DonesFollowRegistrations(s: SessionState, ns: seq<Notification>)
  {
    forall i :: 0 <= i < |ns| && ns[i].TestDone? ==> ns[i].testDone.testID in s.tests.Keys + StartedIds(ns[..i])
  }

  /**
   * A stream in which every test-done follows a registration of its id can be
   * processed: the lookup of the test record never fails.
   */
  lemma {:induction false} AdmissibleWhenRegistered(s: SessionState, ns: seq<Notification>)
    requires DonesFollowRegistrations(s, ns)
    ensures Admissible(s, ns)
    decreases |ns|
  {
    if ns != [] {
      assert ns[..0] == [];
      assert Enabled(s, ns[0]);
      var h := Handle(s, ns[0]);
      var tail := ns[1..];
      forall i | 0 <= i < |tail| && tail[i].TestDone?
        ensures tail[i].testDone.testID in h.tests.Keys + StartedIds(tail[..i])
      {
        assert tail[i] == ns[i + 1];
        assert ns[..i + 1] != [] && ns[..i + 1][1..] == tail[..i] && ns[..i + 1][0] == ns[0];
        StartedIdsCons(ns[..i + 1]);
      }
      AdmissibleWhenRegistered(h, tail);
    }
  }

  /** A stream can be processed exactly when every test-done follows a registration of its id. */
  lemma AdmissibleIffRegistered(s: SessionState, ns: seq<Notification>)
    ensures Admissible(s, ns) <==> DonesFollowRegistrations(s, ns)
  {
    if Admissible(s, ns) {
      forall i | 0 <= i < |ns| && ns[i].TestDone?
        ensures ns[i].testDone.testID in s.tests.Keys + StartedIds(ns[..i])
      {
        TestDoneFollowsRegistration(s, ns, i);
      }
    } else if DonesFollowRegistrations(s, ns) {
      AdmissibleWhenRegistered(s, ns);
    }
  }

  /** A test-done in an admissible stream refers to a test registered before the stream or started earlier in it. */
  lemma TestDoneFollowsRegistration(s: SessionState, ns: seq<Notification>, i: nat)
    requires Admissible(s, ns) && i < |ns| && ns[i].TestDone?
    ensures ns[i].testDone.testID in s.tests.Keys + StartedIds(ns[..i])
  {
    OutputFollowsCompletionOrder(s, ns, i);
    RegisteredTestIds(s, ns[..i]);
  }

  /**
   * The result line for a test-done names the test registered by the latest
   * matching test-start before it, marked by the test-done's result.
   */
  lemma ResultLineNamesRegisteredTest(s: SessionState, ns: seq<Notification>, i: nat, j: nat)
    requires Admissible(s, ns) && i < j < |ns|
    requires ns[i].TestStarted? && ns[j].TestDone? && ns[j].testDone.testID == ns[i].test.id
    requires forall k :: i < k < j && ns[k].TestStarted? ==> ns[k].test.id != ns[i].test.id
    ensures |s.output| + CountCompletions(ns[..j]) < |Run(s, ns).output|
    ensures Run(s, ns).output[|s.output| + CountCompletions(ns[..j])]
         == OutputEvent(TestLine(ns[j].testDone.result, ns[i].test.name), Stdout)
  {
    OutputFollowsCompletionOrder(s, ns, j);
    var prefix := ns[..j];
    assert prefix[i] == ns[i];
    forall k | i < k < |prefix| && prefix[k].TestStarted? ensures prefix[k].test.id != prefix[i].test.id {
      assert prefix[k] == ns[k];
    }
    LastRegistrationWins(s, prefix, i);
  }

  /**
   * The done notification may follow any admissible stream, and a stream that
   * ends with it ends its output with the summary event.
   */
  lemma {:induction false} SummaryIsLast(s: SessionState, ns: seq<Notification>, done: DoneNotification)
    requires Admissible(s, ns)
    ensures Admissible(s, ns + [Done(done)])
    ensures Run(s, ns + [Done(done)]).output == Run(s, ns).output + [SummaryEvent(done.success)]
    decreases |ns|
  {
    if ns == [] {
      assert ns + [Done(done)] == [Done(done)];
      assert [Done(done)][1..] == [];
    } else {
      assert (ns + [Done(done)])[0] == ns[0] && (ns + [Done(done)])[1..] == ns[1..] + [Done(done)];
      SummaryIsLast(Handle(s, ns[0]), ns[1..], done);
    }
  }

  /** A passing and a failing run of one registered test, reported by a fresh session. */
  lemma ExampleRun()
    ensures
      var ns := [TestStarted(Test(1, "adds numbers")), TestDone(TestDoneNotification(1, "success")),
                 TestDone(TestDoneNotification(1, "failure")), Done(DoneNotification(false))];
      Admissible(Initial, ns)
      && Run(Initial, ns).output
         == [OutputEvent("✓ adds numbers\n", Stdout), OutputEvent("✖ adds numbers\n", Stdout),
             OutputEvent("Some tests failed.\n", Stderr)]
  {
    var n0, n1, n2, n3 := TestStarted(Test(1, "adds numbers")), TestDone(TestDoneNotification(1, "success")),
                          TestDone(TestDoneNotification(1, "failure")), Done(DoneNotification(false));
    var s1 := Handle(Initial, n0);
    var s2 := Handle(s1, n1);
    var s3 := Handle(s2, n2);
    var s4 := Handle(s3, n3);
    assert [n3][1..] == [];
    assert Admissible(s3, [n3]) && Run(s3, [n3]) == s4;
    assert [n2, n3][1..] == [n3];
    assert Admissible(s2, [n2, n3]) && Run(s2, [n2, n3]) == s4;
    assert [n1, n2, n3][1..] == [n2, n3];
    assert Admissible(s1, [n1, n2, n3]) && Run(s1, [n1, n2, n3]) == s4;
    assert [n0, n1, n2, n3][1..] == [n1, n2, n3];
    assert Admissible(Initial, [n0, n1, n2, n3]) && Run(Initial, [n0, n1, n2, n3]) == s4;
    assert s4.output == [OutputEvent(TestLine("success", "adds numbers"), Stdout),
                         OutputEvent(TestLine("failure", "adds numbers"), Stdout), SummaryEvent(false)];
    assert "failure"[0] != "success"[0];
    assert Symbol("success") == '✓' && Symbol("failure") == '✖';
    assert TestLine("success", "adds numbers") == "✓ adds numbers\n";
    assert TestLine("failure", "adds numbers") == "✖ adds numbers\n";
  }
}
