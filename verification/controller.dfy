/**
 * The test suite's controller, without its widgets: the two displayed lists
 * (the items of the available and executed list views), the map from test
 * name to its last result, and whether the run button is disabled. Each
 * event handler and listener is a method; a listener is called by the
 * controller right after the change that fires it.
 */
module Controller {
  import opened Sequences
  import opened ObservableLists
  import opened FileManager
  import opened DirectoryListing
  import opened TestSuiteModel
  import opened Execution

  /** The colour of a cell of the executed list: no style (an empty cell), white, green or red. */
  datatype Colour = NoStyle | White | Green | Red

  /**
   * The colour a cell of the executed list takes: an empty cell none, a test
   * with no recorded result white, a passed test green and a failed one red.
   */
  function CellColour(item: string, empty: bool, results: map<string, bool>): (c: Colour)
    ensures c == NoStyle <==> empty
    ensures c == White <==> !empty && item !in results
    ensures c == Green <==> !empty && item in results && results[item]
    ensures c == Red <==> !empty && item in results && !results[item]
  {
    if empty then NoStyle
    else if item !in results then White
    else if results[item] then Green
    else Red
  }

  /** The run gate: running is disabled unless both paths are valid. */
  function RunDisabled(dirValid: bool, exeValid: bool): (disabled: bool)
    ensures !disabled <==> dirValid && exeValid
  {
    !(dirValid && exeValid)
  }

  /**
   * The tests a directory change offers: the ".java" entries of a valid
   * directory in listing order, none when its listing fails, none for an
   * invalid directory.
   */
  function TestsFound(fs: FileSystem, dir: string): (r: seq<string>)
    ensures forall x :: x in r <==>
      DirectoryExists(fs, dir) && dir in fs.listings && x in fs.listings[dir] && EndsWith(x, JavaSuffix)
  {
    if DirectoryExists(fs, dir) then ListJavaFiles(fs, dir).GetOr([]) else []
  }

  /** The listener's loop over an added sub-list: each name is appended to the view in turn. */
  method AppendEach(view: seq<string>, added: seq<string>) returns (r: seq<string>)
    ensures r == view + added
  {
    r := view;
    for j := 0 to |added|
      invariant r == view + added[..j]
    {
      assert added[..j + 1] == added[..j] + [added[j]];
      r := r + [added[j]];
    }
    assert added[..|added|] == added;
  }

  /** The listener's loop over a removed sub-list: each name is deleted from the view by value in turn. */
  method DeleteEach(view: seq<string>, removed: seq<string>) returns (r: seq<string>)
    ensures r == RemoveEach(view, removed)
  {
    r := view;
    for j := 0 to |removed|
      invariant RemoveEach(r, removed[j..]) == RemoveEach(view, removed)
    {
      RemoveEachFirst(r, removed, j);
      r := RemoveFirst(r, removed[j]);
    }
    assert removed[|removed|..] == [];
  }

  /**
   * The mirroring listener's loop: for each sub-change, append every added
   * name, or else delete every removed name by value.
   */
  method Mirror(view: seq<string>, change: ListChange) returns (r: seq<string>)
    ensures r == Replay(view, change)
  {
    r := view;
    var i := 0;
    while i < |change|
      invariant 0 <= i <= |change|
      invariant Replay(r, change[i..]) == Replay(view, change)
    {
      var c := change[i];
      assert change[i..][0] == c && change[i..][1..] == change[i + 1..];
      if |c.added| > 0 {
        r := AppendEach(r, c.added);
      } else if |c.removed| > 0 {
        r := DeleteEach(r, c.removed);
      }
      i := i + 1;
    }
  }

  class TestSuiteController {
    const model: Model
    /** The items shown by the available list view. */
    var availableItems: seq<string>
    /** The items shown by the executed list view. */
    var executedItems: seq<string>
    /** The last result of each test run, keyed by test name. */
    var cellMap: map<string, bool>
    var runDisabled: bool

    /**
     * Each list view shows exactly its model list, and no test name is in
     * both model lists.
     */
    ghost predicate Valid()
      reads this, model.availableTests, model.executedTests
    {
      && model.Valid()
      && availableItems == model.availableTests.items
      && executedItems == model.executedTests.items
      && Disjoint(model.availableTests.items, model.executedTests.items)
    }

    /**
     * The state a directory change leaves: no executed tests, the tests found
     * in the directory offered, the directory flag set from the directory
     * check, and the run gate recomputed.
     */
    ghost predicate Scanned(dir: string, fs: FileSystem)
      reads this, model, model.availableTests, model.executedTests
    {
      && model.executedTests.items == []
      && model.availableTests.items == TestsFound(fs, dir)
      && model.dirValid == DirectoryExists(fs, dir)
      && runDisabled == RunDisabled(model.dirValid, model.exeValid)
    }

    /** A controller over a new model, with empty list views and no results. */
    constructor ()
      ensures Valid() && fresh(model) && fresh(model.availableTests) && fresh(model.executedTests)
      ensures model.availableTests.items == [] && model.executedTests.items == []
      ensures model.directory == "" && model.executable == ""
      ensures !model.dirValid && !model.exeValid
      ensures cellMap == map[] && !runDisabled
    {
      model := new Model();
      availableItems := [];
      executedItems := [];
      cellMap := map[];
      runDisabled := false;
    }

    /** The listener on the model's available list: replays the change onto the view. */
    method OnAvailableTestsChanged(change: ListChange)
      modifies this`availableItems
      ensures availableItems == Replay(old(availableItems), change)
    {
      availableItems := Mirror(availableItems, change);
    }

    /** The listener on the model's executed list: replays the change onto the view. */
    method OnExecutedTestsChanged(change: ListChange)
      modifies this`executedItems
      ensures executedItems == Replay(old(executedItems), change)
    {
      executedItems := Mirror(executedItems, change);
    }

    /** Recomputes the run gate from the two flags. */
    method UpdateRunButtonEnabled()
      modifies this`runDisabled
      ensures runDisabled == RunDisabled(model.dirValid, model.exeValid)
    {
      runDisabled := !(model.IsDirValid() && model.IsExeValid());
    }

    /**
     * A drop onto the executed list: the selected names leave the available
     * list (every occurrence) and are appended to the executed list in
     * selection order.
     */
    method DropOnExecuted(selection: seq<string>)
      requires Valid()
      modifies this`availableItems, this`executedItems, model.availableTests, model.executedTests
      ensures Valid()
      ensures model.availableTests.items == Without(old(model.availableTests.items), selection)
      ensures model.executedTests.items == old(model.executedTests.items) + selection
    {
      var tmpList := selection;
      var removed := model.GetAvailableTests().RemoveAll(tmpList);
      OnAvailableTestsChanged(removed);
      ReplayRemoval(old(availableItems), tmpList);
      var added := model.GetExecutedTests().AddAll(tmpList);
      OnExecutedTestsChanged(added);
      ReplayAddition(old(executedItems), tmpList);
    }

    /**
     * The last step of a drop onto the available list: the results of the
     * moved names are removed, so their cells show white again; every other
     * result is kept.
     */
    method ForgetResults(names: seq<string>)
      modifies this`cellMap
      ensures forall s :: s in cellMap <==> s in old(cellMap) && s !in names
      ensures forall s :: s in cellMap ==> cellMap[s] == old(cellMap)[s]
      ensures forall s :: s in names ==> CellColour(s, false, cellMap) == White
    {
      for i := 0 to |names|
        invariant forall s :: s in cellMap <==> s in old(cellMap) && s !in names[..i]
        invariant forall s :: s in cellMap ==> cellMap[s] == old(cellMap)[s]
      {
        assert names[..i + 1] == names[..i] + [names[i]];
        cellMap := cellMap - {names[i]};
      }
      assert names[..|names|] == names;
    }

    /**
     * A drop onto the available list: the selected names leave the executed
     * list (every occurrence), are appended to the available list in
     * selection order, and lose their recorded results.
     */
    method DropOnAvailable(selection: seq<string>)
      requires Valid()
      modifies this`availableItems, this`executedItems, this`cellMap, model.availableTests, model.executedTests
      ensures Valid()
      ensures model.executedTests.items == Without(old(model.executedTests.items), selection)
      ensures model.availableTests.items == old(model.availableTests.items) + selection
      ensures forall s :: s in cellMap <==> s in old(cellMap) && s !in selection
      ensures forall s :: s in cellMap ==> cellMap[s] == old(cellMap)[s]
      ensures forall s :: s in selection ==> CellColour(s, false, cellMap) == White
    {
      var tmpList := selection;
      var removed := model.GetExecutedTests().RemoveAll(tmpList);
      OnExecutedTestsChanged(removed);
      ReplayRemoval(old(executedItems), tmpList);
      var added := model.GetAvailableTests().AddAll(tmpList);
      OnAvailableTestsChanged(added);
      ReplayAddition(old(availableItems), tmpList);
      ForgetResults(tmpList);
    }

    /** The first part of the directory listener: empties both model lists that are not empty. */
    method ClearLists()
      requires Valid()
      modifies this`availableItems, this`executedItems, model.availableTests, model.executedTests
      ensures Valid()
      ensures model.availableTests.items == [] && model.executedTests.items == []
    {
      if !model.GetAvailableTests().IsEmpty() {
        var change := model.GetAvailableTests().Clear();
        OnAvailableTestsChanged(change);
        ReplayClear(old(availableItems));
      }
      if !model.GetExecutedTests().IsEmpty() {
        var change := model.GetExecutedTests().Clear();
        OnExecutedTestsChanged(change);
        ReplayClear(old(executedItems));
      }
    }

    /**
     * The listener on the directory path: both lists are emptied; a valid
     * directory refills the available list from its ".java" entries and sets
     * the directory flag, an invalid one clears the flag; the run gate is
     * recomputed.
     */
    method OnDirectoryChanged(newValue: string, fs: FileSystem)
      requires Valid()
      modifies this`availableItems, this`executedItems, this`runDisabled,
               model, model.availableTests, model.executedTests
      ensures Valid()
      ensures Scanned(newValue, fs)
      ensures model.directory == old(model.directory) && model.executable == old(model.executable)
      ensures model.exeValid == old(model.exeValid)
    {
      ClearLists();
      if DirectoryExists(fs, newValue) {
        var list := ListJavaFiles(fs, newValue);
        if list.Some? {
          ghost var before := availableItems;
          var change := model.GetAvailableTests().AddAll(list.value);
          OnAvailableTestsChanged(change);
          ReplayAddition(before, list.value);
        }
        model.SetDirValid(true);
        UpdateRunButtonEnabled();
      } else {
        model.SetDirValid(false);
        UpdateRunButtonEnabled();
      }
    }

    /** The listener on the executable path: sets the executable flag and recomputes the run gate. */
    method OnExecutableChanged(newValue: string, fs: FileSystem)
      requires Valid()
      modifies this`runDisabled, model
      ensures Valid()
      ensures model.exeValid == FileExists(fs, newValue)
      ensures runDisabled == RunDisabled(model.dirValid, model.exeValid)
      ensures model.directory == old(model.directory) && model.executable == old(model.executable)
      ensures model.dirValid == old(model.dirValid)
    {
      if FileExists(fs, newValue) {
        model.SetExeValid(true);
        UpdateRunButtonEnabled();
      } else {
        model.SetExeValid(false);
        UpdateRunButtonEnabled();
      }
    }

    /**
     * An edit of the directory field: the model's directory is set, and when
     * it changed the directory listener runs; an unchanged path changes
     * nothing else.
     */
    method SetDirectory(text: string, fs: FileSystem)
      requires Valid()
      modifies this`availableItems, this`executedItems, this`runDisabled,
               model, model.availableTests, model.executedTests
      ensures Valid()
      ensures model.directory == text
      ensures text != old(model.directory) ==> Scanned(text, fs)
      ensures text == old(model.directory) ==>
        && model.availableTests.items == old(model.availableTests.items)
        && model.executedTests.items == old(model.executedTests.items)
        && model.dirValid == old(model.dirValid)
        && runDisabled == old(runDisabled)
      ensures model.executable == old(model.executable) && model.exeValid == old(model.exeValid)
    {
      var previous := model.GetDirectory();
      model.SetDirectory(text);
      if text != previous {
        OnDirectoryChanged(text, fs);
      }
    }

    /**
     * An edit of the executable field: the model's executable is set, and
     * when it changed the executable listener runs.
     */
    method SetExecutable(text: string, fs: FileSystem)
      requires Valid()
      modifies this`runDisabled, model
      ensures Valid()
      ensures model.executable == text
      ensures text != old(model.executable) ==>
        model.exeValid == FileExists(fs, text) && runDisabled == RunDisabled(model.dirValid, model.exeValid)
      ensures text == old(model.executable) ==>
        model.exeValid == old(model.exeValid) && runDisabled == old(runDisabled)
      ensures model.directory == old(model.directory) && model.dirValid == old(model.dirValid)
    {
      var previous := model.GetExecutable();
      model.SetExecutable(text);
      if text != previous {
        OnExecutableChanged(text, fs);
      }
    }

    /**
     * The run button: each executed test in order is launched with
     * "<executable> <directory><test>" and its result recorded as "exit code
     * is 0"; an exception ends the batch. Returns the commands launched and
     * whether the loop finished. Neither list changes.
     */
    method RunTests(exec: string -> Exit) returns (launched: seq<string>, completed: bool)
      requires Valid()
      modifies this`cellMap
      ensures Valid()
      ensures var b := RunAll(old(cellMap), model.executedTests.items, model.executable, model.directory, exec);
              cellMap == b.results && launched == b.launched && completed == b.completed
    {
      var tests := model.GetExecutedTests().items;
      var exe, dir := model.GetExecutable(), model.GetDirectory();
      cellMap, launched, completed := LaunchAll(cellMap, tests, exe, dir, exec);
    }
  }

  /**
   * The run handler's loop: each test in order is launched with
   * "<executable> <directory><test>"; a launch that exits records whether the
   * exit code is 0 and the loop goes on, one that throws ends the loop.
   */
  method LaunchAll(results: map<string, bool>, tests: seq<string>, exe: string, dir: string,
                   exec: string -> Exit)
    returns (cells: map<string, bool>, launched: seq<string>, completed: bool)
    ensures Batch(cells, launched, completed) == RunAll(results, tests, exe, dir, exec)
  {
    ghost var batch := RunAll(results, tests, exe, dir, exec);
    cells, launched, completed := results, [], true;
    var i := 0;
    while i < |tests| && completed
      invariant 0 <= i <= |tests|
      invariant completed ==> batch == After(launched, RunAll(cells, tests[i..], exe, dir, exec))
      invariant !completed ==> batch == Batch(cells, launched, false)
      decreases |tests| - i, if completed then 1 else 0
    {
      var s := tests[i];
      var prcName := exe + " " + dir + s;
      var e := exec(prcName);
      assert prcName == Command(exe, dir, s);
      assert tests[i..][0] == s && tests[i..][1..] == tests[i + 1..];
      if e.Thrown? {
        completed := false;
      } else {
        AfterAfter(launched, [prcName], RunAll(cells[s := e.code == 0], tests[i + 1..], exe, dir, exec));
        cells := cells[s := e.code == 0];
        i := i + 1;
      }
      launched := launched + [prcName];
    }
  }

  /**
   * Moving a selection taken from one list to the other keeps both lists
   * duplicate-free and keeps every name in at most one of them.
   */
  lemma MoveKeepsPartition(from: seq<string>, to: seq<string>, selection: seq<string>)
    requires Distinct(from) && Distinct(to) && Disjoint(from, to)
    requires Distinct(selection) && forall x :: x in selection ==> x in from
    ensures Distinct(Without(from, selection))
    ensures Distinct(to + selection)
    ensures Disjoint(Without(from, selection), to + selection)
  {
    WithoutDistinct(from, selection);
    var r := to + selection;
    forall i, j | 0 <= i < j < |r| ensures r[i] != r[j] {
      if j < |to| {
      } else if i >= |to| {
        assert r[i] == selection[i - |to|] && r[j] == selection[j - |to|];
      } else {
        assert r[i] in to && r[j] in selection;
      }
    }
  }

  /**
   * After a batch that completes, every executed test shows green when its
   * process exited with 0 and red otherwise.
   */
  lemma CompletedRunColours(results: map<string, bool>, tests: seq<string>, exe: string, dir: string,
                            exec: string -> Exit)
    ensures var b := RunAll(results, tests, exe, dir, exec);
            b.completed ==> forall s :: s in tests ==>
              CellColour(s, false, b.results) == (if Passed(exec(Command(exe, dir, s))) then Green else Red)
  {
    RunAllLaunches(results, tests, exe, dir, exec);
    RunAllRecords(results, tests, exe, dir, exec);
    assert tests[..|tests|] == tests;
  }
}
