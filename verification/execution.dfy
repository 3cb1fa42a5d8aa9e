/**
 * Running the executed tests: one child process per test, in list order, each
 * started with the command "<executable> <directory><test>" and judged by
 * its exit code. Starting or waiting for a process may raise an exception;
 * one exception ends the whole batch.
 */
module Execution {

  /** How one process launch ends: an exit code, or an I/O or interrupt exception. */
  datatype Exit = Exited(code: int) | Thrown

  /** The command string the run handler builds for test `name`. */
  function Command(exe: string, dir: string, name: string): (cmd: string)
    ensures |cmd| == |exe| + 1 + |dir| + |name|
    ensures cmd[..|exe|] == exe && cmd[|exe|] == ' ' && cmd[|exe| + 1..] == dir + name
  {
    exe + " " + dir + name
  }

  /** The result recorded for a launch: success exactly when the process exited with code 0. */
  predicate Passed(e: Exit): (ok: bool)
    ensures ok <==> e == Exited(0)
  {
    e.Exited? && e.code == 0
  }

  /**
   * The outcome of a batch: the result map afterwards, the commands launched
   * in order, and whether the loop finished without an exception.
   */
  datatype Batch = Batch(results: map<string, bool>, launched: seq<string>, completed: bool)

  /** The batch with `cmds` launched before the rest of it. */
  function After(cmds: seq<string>, b: Batch): Batch {
    Batch(b.results, cmds + b.launched, b.completed)
  }

  /**
   * The run handler's loop over `tests`, starting from result map `results`,
   * with `exec` answering each launch.
   */
  function RunAll(results: map<string, bool>, tests: seq<string>, exe: string, dir: string,
                  exec: string -> Exit): (b: Batch)
    ensures |b.launched| <= |tests|
    ensures b.completed ==> |b.launched| == |tests|
    ensures results.Keys <= b.results.Keys
    ensures forall s :: s in b.results ==> s in results || s in tests
    decreases |tests|
  {
    if tests == [] then Batch(results, [], true)
    else
      var cmd := Command(exe, dir, tests[0]);
      var e := exec(cmd);
      if e.Thrown? then Batch(results, [cmd], false)
      else After([cmd], RunAll(results[tests[0] := e.code == 0], tests[1..], exe, dir, exec))
  }

  /** Launching `cmds` and then `more` before a batch is launching `cmds + more` before it. */
  lemma AfterAfter(cmds: seq<string>, more: seq<string>, b: Batch)
    ensures After(cmds, After(more, b)) == After(cmds + more, b)
  {
    assert cmds + (more + b.launched) == (cmds + more) + b.launched;
  }

  /** The position of the first test whose launch throws, or the number of tests if none does. */
  function FirstThrow(tests: seq<string>, exe: string, dir: string, exec: string -> Exit): (k: nat)
    ensures k <= |tests|
    ensures forall i :: 0 <= i < k ==> exec(Command(exe, dir, tests[i])).Exited?
    ensures k < |tests| ==> exec(Command(exe, dir, tests[k])).Thrown?
    decreases |tests|
  {
    if tests == [] then 0
    else if exec(Command(exe, dir, tests[0])).Thrown? then 0
    else 1 + FirstThrow(tests[1..], exe, dir, exec)
  }

  /**
   * A batch launches its tests in list order with the command built from each
   * name, up to and including the first launch that throws; it completes
   * exactly when no launch throws, and then it has launched every test.
   */
  lemma RunAllLaunches(results: map<string, bool>, tests: seq<string>,
                       exe: string, dir: string, exec: string -> Exit)
    ensures var b := RunAll(results, tests, exe, dir, exec);
            var k := FirstThrow(tests, exe, dir, exec);
            && (b.completed <==> k == |tests|)
            && |b.launched| == (if k < |tests| then k + 1 else k)
            && forall i :: 0 <= i < |b.launched| ==> b.launched[i] == Command(exe, dir, tests[i])
  {
    RunAllStops(results, tests, exe, dir, exec);
    RunAllCommands(results, tests, exe, dir, exec);
  }

  /** A batch stops right after the first launch that throws, and completes when none does. */
  lemma {:induction false} RunAllStops(results: map<string, bool>, tests: seq<string>,
                                       exe: string, dir: string, exec: string -> Exit)
    ensures var b := RunAll(results, tests, exe, dir, exec);
            var k := FirstThrow(tests, exe, dir, exec);
            && (b.completed <==> k == |tests|)
            && |b.launched| == (if k < |tests| then k + 1 else k)
    decreases |tests|
  {
    if tests != [] && exec(Command(exe, dir, tests[0])).Exited? {
      var e := exec(Command(exe, dir, tests[0]));
      RunAllStops(results[tests[0] := e.code == 0], tests[1..], exe, dir, exec);
    }
  }

  /** The `i`-th command a batch launches is the command for the `i`-th test. */
  lemma {:induction false} RunAllCommands(results: map<string, bool>, tests: seq<string>,
                                          exe: string, dir: string, exec: string -> Exit)
    ensures var b := RunAll(results, tests, exe, dir, exec);
            forall i :: 0 <= i < |b.launched| ==> b.launched[i] == Command(exe, dir, tests[i])
    decreases |tests|
  {
    if tests != [] && exec(Command(exe, dir, tests[0])).Exited? {
      var e := exec(Command(exe, dir, tests[0]));
      var rest := tests[1..];
      var b' := RunAll(results[tests[0] := e.code == 0], rest, exe, dir, exec);
      RunAllCommands(results[tests[0] := e.code == 0], rest, exe, dir, exec);
      var b := RunAll(results, tests, exe, dir, exec);
      assert b == After([Command(exe, dir, tests[0])], b');
      forall i | 1 <= i < |b.launched|
        ensures b.launched[i] == Command(exe, dir, tests[i])
      {
        assert b.launched[i] == b'.launched[i - 1] && rest[i - 1] == tests[i];
      }
    }
  }

  /**
   * A batch records, for every test it ran to the end (those before the first
   * throw), whether that test's process exited with 0, and leaves every other
   * entry of the result map as it was.
   */
  lemma {:induction false} RunAllRecords(results: map<string, bool>, tests: seq<string>,
                                         exe: string, dir: string, exec: string -> Exit)
    ensures var b := RunAll(results, tests, exe, dir, exec);
            var done := tests[..FirstThrow(tests, exe, dir, exec)];
            && (forall s :: s in b.results <==> s in results || s in done)
            && (forall s :: s in done ==> b.results[s] == Passed(exec(Command(exe, dir, s))))
            && (forall s :: s in results && s !in done ==> b.results[s] == results[s])
    decreases |tests|
  {
    if tests != [] && exec(Command(exe, dir, tests[0])).Exited? {
      var t := tests[0];
      var e := exec(Command(exe, dir, t));
      var rest := tests[1..];
      RunAllRecords(results[t := e.code == 0], rest, exe, dir, exec);
      var k := FirstThrow(rest, exe, dir, exec);
      assert FirstThrow(tests, exe, dir, exec) == 1 + k;
      assert tests[..1 + k] == [t] + rest[..k];
      assert RunAll(results, tests, exe, dir, exec).results
          == RunAll(results[t := e.code == 0], rest, exe, dir, exec).results;
    }
  }

  /**
   * Three tests whose processes exit with 0, 2 and 0: all three are launched,
   * the failure of the second does not stop the third, and the results are
   * pass, fail, pass.
   */
  lemma RunAllExample(exe: string, dir: string)
    ensures var exec := (c: string) => if c == Command(exe, dir, "t2") then Exited(2) else Exited(0);
            var b := RunAll(map[], ["t1", "t2", "t3"], exe, dir, exec);
            && b.completed
            && b.launched == [Command(exe, dir, "t1"), Command(exe, dir, "t2"), Command(exe, dir, "t3")]
            && b.results == map["t1" := true, "t2" := false, "t3" := true]
  {
    var c1, c2, c3 := Command(exe, dir, "t1"), Command(exe, dir, "t2"), Command(exe, dir, "t3");
    assert c1[|c1| - 1] == '1' && c2[|c2| - 1] == '2' && c3[|c3| - 1] == '3';
    var tests := ["t1", "t2", "t3"];
    assert tests[1..] == ["t2", "t3"] && tests[1..][1..] == ["t3"] && tests[1..][1..][1..] == [];
  }
}
