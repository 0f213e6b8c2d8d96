/**
 * The entities and notifications that the test runner's machine-readable
 * protocol delivers to the debug session (the records the session imports
 * from ./flutter_test). Only the fields the session reads are kept: the `id`
 * of every entity and the `name` of a test; the rest of a suite's or group's
 * record is opaque here.
 */
module TestProtocol {

  /** One test file / run context, keyed by the runner-assigned `id`. */
  datatype Suite = Suite(id: int)

  /** A named collection of tests, keyed by the runner-assigned `id`. */
  datatype Group = Group(id: int)

  /** One test case; `name` is what the result line shows. */
  datatype Test = Test(id: int, name: string)

  /** Completion of one test: the test's id and the runner's result value. */
  datatype TestDoneNotification = TestDoneNotification(testID: int, result: string)

  /** Completion of the whole run. */
  datatype DoneNotification = DoneNotification(success: bool)

  /** The notification kinds the session subscribes to, one constructor per kind. */
  datatype Notification =
    | SuiteRegistered(suite: Suite)
    | TestStarted(test: Test)
    | TestDone(testDone: TestDoneNotification)
    | GroupRegistered(group: Group)
    | Done(done: DoneNotification)

  /** Suite, test-start and group notifications only fill the registry. */
  predicate IsRegistration(n: Notification)
  {
    n.SuiteRegistered? || n.TestStarted? || n.GroupRegistered?
  }

  /** Test-done and done notifications are the ones that produce output. */
  predicate IsCompletion(n: Notification)
  {
    n.TestDone? || n.Done?
  }

  /** The number of completion notifications in a stream. */
  function CountCompletions(ns: seq<Notification>): nat
  {
    if ns == [] then 0
    else (if IsCompletion(ns[0]) then 1 else 0) + CountCompletions(ns[1..])
  }

  /** The ids of all tests started in a stream. */
  function StartedIds(ns: seq<Notification>): set<int>
  {
    set j | 0 <= j < |ns| && ns[j].TestStarted? :: ns[j].test.id
  }
}
