# Flutter test debug session, modelled in Dafny

This project models the bridge in `FlutterTestDebugSession`. The bridge sits
between the `flutter test` runner's machine-readable notification stream and
the output events that the debugging host shows. It covers three parts:

- **Argument builder.** `spawnProcess` builds the runner's argument list from
  the launch configuration. The preview-Dart-2 flag comes first when it is set
  (`--preview-dart-2` for true, `--no-preview-dart-2` for false). The user's
  extra arguments follow unchanged. `noDebug` is read but has no effect on the
  list.
- **Entity registry.** The session has three sparse id-indexed tables: suites,
  groups and tests. The suite, test-start and group notifications write an
  entity at its id, and a later write to the same id wins. Each table is a
  `map<int, _>` field of the session class.
- **Result translator.** A test-done notification looks up its test and sends
  `"✓ name\n"` for a `"success"` result or `"✖ name\n"` for any other result,
  on stdout. The done notification sends `"All tests passed!\n"` on stdout or
  `"Some tests failed.\n"` on stderr. The events sent are a `seq<OutputEvent>`
  field.

Files:

- `test_protocol.dfy`: the entities and notification kinds of the runner's
  protocol.
- `flutter_test_debug_impl.dfy`: the session class, whose methods update its
  fields. It also holds the pure string formatting and the value-level state
  machine `SessionState` / `Handle` / `Run`. The five notification handlers
  (`RegisterSuite`, `RegisterTest`, `RegisterGroup`, `WriteTestResult` and
  `WriteResult`) each state their new fields outright and also state
  `State() == Handle(old(State()), n)`. `Dispatch` states only that equation;
  `BuildAppArgs` changes no state.
- `session_properties.dfy`: lemmas about whole notification streams.
- `wrappers.dfy`: `Option`.

A test-done whose id was never registered makes the source dereference an
undefined entry. So `WriteTestResult` requires a registered id, and a stream is
`Admissible` only when each of its test-done notifications has a registered id.
The model does not adopt a skip-and-continue fallback for unknown ids, because
the code has none.

## Model

| member | source | states |
|---|---|---|
| FlutterTestDebug.Symbol | src/debug/flutter_test_debug_impl.ts:10-11 | the marker is the tick exactly when the result is "success", and the cross otherwise |
| FlutterTestDebug.TestLine | src/debug/flutter_test_debug_impl.ts:63-64 | a result line is the marker, a space, the test name unchanged and a newline, so its length is the name's length plus 3 |
| FlutterTestDebug.TestLineDeterminesOutcome | src/debug/flutter_test_debug_impl.ts:63-64 | two result lines are equal if and only if they have the same test name and the same pass/fail outcome |
| FlutterTestDebug.SummaryEvent | src/debug/flutter_test_debug_impl.ts:67-72 | the summary goes on stdout exactly when the run succeeded; it reads "All tests passed!\n" on success and "Some tests failed.\n" otherwise |
| FlutterTestDebug.Handle | src/debug/flutter_test_debug_impl.ts:52-56 | one notification either writes its entity at exactly its id in one table (other ids, other tables and output unchanged) or leaves the tables unchanged and appends exactly one event |
| FlutterTestDebug.Run | src/debug/flutter_test_debug_impl.ts:52-56 | processing a stream only appends output, one event per completion notification |
| FlutterTestDebug.FlutterTestDebugSession.constructor | src/debug/flutter_test_debug_impl.ts:17-19 | a new session has empty suite, group and test tables and has sent nothing |
| FlutterTestDebug.FlutterTestDebugSession.BuildAppArgs | src/debug/flutter_test_debug_impl.ts:27-44 | the first argument is `--preview-dart-2` when preview is true and `--no-preview-dart-2` when it is false; the extra arguments end the list unchanged and in order; the length is (preview set ? 1 : 0) + number of extras, so an unset preview adds no flag and absent extras add nothing |
| FlutterTestDebug.FlutterTestDebugSession.RegisterSuite | src/debug/flutter_test_debug_impl.ts:52 | the suite table gets the suite at its id, overwriting any earlier one; the other tables and the output are unchanged |
| FlutterTestDebug.FlutterTestDebugSession.RegisterTest | src/debug/flutter_test_debug_impl.ts:53 | the test table gets the test at its id, overwriting any earlier one; the other tables and the output are unchanged |
| FlutterTestDebug.FlutterTestDebugSession.RegisterGroup | src/debug/flutter_test_debug_impl.ts:55 | the group table gets the group at its id, overwriting any earlier one; the other tables and the output are unchanged |
| FlutterTestDebug.FlutterTestDebugSession.WriteTestResult | src/debug/flutter_test_debug_impl.ts:61-65 | for a registered test id, exactly one stdout event is appended: the result line built from the registered test's name; the registries are unchanged |
| FlutterTestDebug.FlutterTestDebugSession.WriteResult | src/debug/flutter_test_debug_impl.ts:67-72 | exactly one event is appended: "All tests passed!\n" on stdout on success, "Some tests failed.\n" on stderr otherwise; the registries are unchanged |
| FlutterTestDebug.FlutterTestDebugSession.Dispatch | src/debug/flutter_test_debug_impl.ts:52-56 | each notification kind is routed to its handler, and the session's new state is `Handle` of its old state |
| SessionProperties.RunAppend | src/debug/flutter_test_debug_impl.ts:52-56 | processing a + b is the same as processing a and then b, and both parts are processable |
| SessionProperties.RegistrationsEmitNothing | src/debug/flutter_test_debug_impl.ts:52-55 | a stream of registration notifications leaves the output unchanged |
| SessionProperties.CompletionsKeepRegistries | src/debug/flutter_test_debug_impl.ts:61-72 | a stream of completion notifications leaves all three tables unchanged |
| SessionProperties.OutputFollowsCompletionOrder | src/debug/flutter_test_debug_impl.ts:54-72 | the completion at stream position i produces the event at output position (earlier output + completions before i), and exactly one event per later completion follows it, so output order is the arrival order of completions |
| SessionProperties.TestKeptWithoutRestart | src/debug/flutter_test_debug_impl.ts:53 | a registered test keeps its record while no later test-start uses its id |
| SessionProperties.LastRegistrationWins | src/debug/flutter_test_debug_impl.ts:53 | after a stream, the record at an id is the one carried by that id's last test-start |
| SessionProperties.RegisteredTestIds | src/debug/flutter_test_debug_impl.ts:53 | the registered test ids after a stream are the ids before it plus those the stream started |
| SessionProperties.TestDoneFollowsRegistration | src/debug/flutter_test_debug_impl.ts:62-64 | in a processable stream, every test-done id was registered beforehand or started earlier in the stream |
| SessionProperties.AdmissibleWhenRegistered | src/debug/flutter_test_debug_impl.ts:53-64 | a stream in which every test-done names a test registered before it or started earlier in it is processable, so the record lookup never fails |
| SessionProperties.AdmissibleIffRegistered | src/debug/flutter_test_debug_impl.ts:53-64 | a stream is processable if and only if every test-done names a test registered before it or started earlier in it |
| SessionProperties.ResultLineNamesRegisteredTest | src/debug/flutter_test_debug_impl.ts:53-64 | the line for a test-done carries the name from the latest matching test-start before it and the marker for its result, at the output position given by its arrival order |
| SessionProperties.SummaryIsLast | src/debug/flutter_test_debug_impl.ts:67-72 | the done notification can follow any processable stream, and its summary event becomes the last output |
| SessionProperties.ExampleRun | src/debug/flutter_test_debug_impl.ts:61-72 | for test 1 "adds numbers" completing with "success", then "failure", then a failed run, the output is exactly "✓ adds numbers\n", "✖ adds numbers\n" (stdout) and "Some tests failed.\n" (stderr) |

## Left out

- Launching the runner (`new FlutterTest(...)`, `this.flutter.process`). The model builds the argument list but starts no process. The executable path, working directory and log file are not modelled.
- The JSON-stream parsing and the subscription/dispatch mechanism of `./flutter_test`. That file is not part of this model. `Dispatch` stands in for the five subscriptions, and `Run` for in-order synchronous delivery.
- The unhandled-message subscription and its logging. Logging has no modelled effect, so notification kinds other than the five handled ones are not modelled.
- `sendEvent`, `OutputEvent` and the `DartDebugSession` base class. Sending an event is modelled as appending to `events`.
- `observatoryUri`, `sendStdOutToConsole`, the unused `debug` value, and the commented-out start-paused and `registerForStart`/`registerForAllSuites` lines.
- Suite and group contents other than `id`, and test fields other than `id` and `name`. The session never reads them. Ids are integers; JavaScript's non-integer property keys are not modelled.
- JavaScript truthiness for `previewDart2` and `args`. `Option<bool>` and `Option<seq<string>>` stand for them: a null or undefined value is `None`, and a present array, including an empty one, is `Some`.
- FlutterTestDebug.FlutterTestDebugSession.WriteTestResult: an unregistered test id is excluded by a precondition. The source would throw at `test.name` for such an id. A skip-and-continue policy for unknown ids was suggested for this bridge, but the code has no such fallback, so the model follows the code.
