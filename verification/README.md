# TestSuite controller model

TestSuite is a small desktop application for running a directory of test
programs. The user types a directory and an executable (an interpreter). The
".java" entries of the directory appear in the "available" list. The user
drags tests into the "executed" list and presses "run". Each executed test is
launched as `<executable> <directory><test>`, and its cell turns green when
the process exits with 0 and red otherwise.

This project models the state logic behind that window, with no widgets:

- `TestSuiteModel.Model` is the bean. It holds the two test lists, the
  directory and executable paths, and one validity flag for each path.
- `ObservableLists.ObservableList` is an observable list of names. Each of
  its mutators returns the change notification it sends: a sequence of
  sub-changes, each listing the names it removed and the names it added.
- `Controller.TestSuiteController` holds the items each list view shows, the
  result map (`cellMap`, test name to last result) and whether the run button
  is disabled. Each event handler and listener is a method. A listener is
  called by the controller right after the change that fires it. The class
  invariant `Valid()` says two things: each list view shows exactly its model
  list, and no test name is in both model lists. Every handler preserves it.
- `Execution.RunAll` is the run handler's loop as a function. `exec`, a
  function from command string to `Exit`, answers each launch: an exit code,
  or `Thrown` for an I/O or interrupt exception.
- `FileManager` answers the two path checks from a `FileSystem` snapshot
  passed in by the caller. `DirectoryListing` filters that snapshot's
  listing of a directory down to its ".java" entries.

What the code does, and the model with it:

- A launch that throws ends the whole batch. The `try` encloses the loop,
  so the later tests are not launched and get no result. A test that exits
  with a non-zero code is only recorded as failed, and the batch goes on.
- A drop appends the whole selection to the target list. It does not check
  which names were actually removed from the source list. Because the
  selection comes from the source list's view, and `Valid()` says that view
  equals the source list, this does not duplicate names in practice
  (`MoveKeepsPartition`).
- A directory change empties both lists but leaves `cellMap` as it is
  (`OnDirectoryChanged` does not modify it). Only a drop back onto the
  available list removes results.
- The run button starts enabled (the JavaFX default). It reflects the two
  flags only after the first change to either path.
- A path listener runs only when the path actually changes
  (`SetDirectory`, `SetExecutable`). Setting the same directory again does
  not rescan it.

## Model

| member | source | states |
|---|---|---|
| `Sequences.Without` | src/testsuite/TestSuiteController.java:175 | `removeAll`: a name is in the result exactly when it was in the list and not in the selection |
| `Sequences.WithoutIsSubsequence` | src/testsuite/TestSuiteController.java:172-177 | the names a drop leaves in the source list keep their relative order |
| `Sequences.WithoutKeepsCounts` | src/testsuite/TestSuiteController.java:175 | every occurrence of an unselected name stays in the source list |
| `Sequences.WithoutDistinct` | src/testsuite/TestSuiteController.java:194 | `removeAll` of a duplicate-free list leaves it duplicate-free |
| `Sequences.OnlyIn` | src/testsuite/TestSuiteController.java:175 | the occurrences `removeAll` takes out are exactly the listed names that are selected |
| `Sequences.FirstIndex` | src/testsuite/TestSuiteController.java:102 | the position `remove(s)` acts on: it holds `s` and no earlier position does |
| `Sequences.RemoveFirst` | src/testsuite/TestSuiteController.java:102 | `remove(s)`: the list loses exactly one `s` (multiset difference) and shrinks by one when `s` is present; otherwise it is unchanged |
| `Sequences.RemoveFirstAt` | src/testsuite/TestSuiteController.java:102 | `remove(s)` of a present name keeps the elements before its first occurrence in place, drops that occurrence, and moves the rest up by one, in order |
| `Sequences.RemoveEach` | src/testsuite/TestSuiteController.java:101-102 | removing each name by value takes out exactly one occurrence per removed name that is present (multiset difference) |
| `Sequences.EndsWith` | src/testsuite/TestSuiteController.java:122 | `endsWith`: the name is some prefix followed by the suffix |
| `Sequences.EndsWithConcat` | src/testsuite/TestSuiteController.java:122 | any prefix followed by the suffix ends with the suffix |
| `Sequences.RemoveEachOnlyIn` | src/testsuite/TestSuiteController.java:100-102 | deleting by value, one at a time, the names a `removeAll` took out leaves exactly what `removeAll` left |
| `Sequences.RemoveEachSelf` | src/testsuite/TestSuiteController.java:116-117 | deleting by value every name of a list empties it |
| `ObservableLists.ApplySub` | src/testsuite/TestSuiteController.java:97-102 | one sub-change with additions appends exactly the added names after the unchanged view; one without additions takes the removed names out of the view (multiset difference) |
| `ObservableLists.ApplySubKeepsNames` | src/testsuite/TestSuiteController.java:96-103 | one sub-change never gives the view a name that was neither in it nor added |
| `ObservableLists.Replay` | src/testsuite/TestSuiteController.java:96-103 | the listener's whole effect: the view never gains a name that was neither in it nor reported as added |
| `ObservableLists.ReplayRemoval` | src/testsuite/TestSuiteController.java:95-104 | replaying a `removeAll` notification onto a copy of the list gives the list `removeAll` left |
| `ObservableLists.ReplayAddition` | src/testsuite/TestSuiteController.java:97-99 | replaying an `addAll` notification appends the added names |
| `ObservableLists.ReplayClear` | src/testsuite/TestSuiteController.java:116-119 | replaying a `clear` notification onto a copy of the list empties the copy |
| `ObservableLists.ObservableList.RemoveAll` | src/testsuite/TestSuiteController.java:175 | the list becomes `Without(old, c)`; the notification lists the removed occurrences in order |
| `ObservableLists.ObservableList.AddAll` | src/testsuite/TestSuiteController.java:176 | the list becomes old followed by `c`; the notification lists `c` as added |
| `ObservableLists.ObservableList.Clear` | src/testsuite/TestSuiteController.java:117 | the list becomes empty; the notification lists everything it held as removed |
| `DirectoryListing.JavaSources` | src/testsuite/TestSuiteController.java:122 | a name is kept exactly when it was listed and ends with ".java" |
| `DirectoryListing.ListJavaFiles` | src/testsuite/TestSuiteController.java:121-124 | the filtered listing is null (None) exactly when listing the directory fails; otherwise it holds exactly the listed ".java" names |
| `DirectoryListing.JavaSourcesInOrder` | src/testsuite/TestSuiteController.java:122-124 | the filtered names keep the listing order |
| `DirectoryListing.JavaSourcesExample` | src/testsuite/TestSuiteController.java:122 | a directory holding A.java, notes.txt and B.java offers exactly A.java and B.java |
| `TestSuiteModel.Model.constructor` | src/testsuite/Model.java:15-22 | a new model has empty lists, directory "" and executable "", and both flags false |
| `TestSuiteModel.Model.GetAvailableTests` | src/testsuite/Model.java:24-26 | returns the stored list object itself, so a change made through it changes the model (used by the drop handlers) |
| `TestSuiteModel.Model.GetExecutedTests` | src/testsuite/Model.java:32-34 | returns the stored list object itself, so a change made through it changes the model |
| `TestSuiteModel.Model.SetDirectory` | src/testsuite/Model.java:40-50 | `GetDirectory()` returns the new path afterwards; no other field changes |
| `TestSuiteModel.Model.SetExecutable` | src/testsuite/Model.java:52-62 | `GetExecutable()` returns the new path afterwards; no other field changes |
| `TestSuiteModel.Model.SetExeValid` | src/testsuite/Model.java:64-70 | `IsExeValid()` returns the new flag afterwards; no other field changes |
| `TestSuiteModel.Model.SetDirValid` | src/testsuite/Model.java:72-78 | `IsDirValid()` returns the new flag afterwards; no other field changes |
| `Execution.Command` | src/testsuite/TestSuiteController.java:69-71 | the command is the executable, one space, then the single argument directory + test name |
| `Execution.Passed` | src/testsuite/TestSuiteController.java:79 | a test passes exactly when its process exited with code 0 |
| `Execution.RunAll` | src/testsuite/TestSuiteController.java:66-85 | the run loop: it launches at most one command per test, all of them when it completes; it keeps every existing result key and adds keys only for executed tests |
| `Execution.FirstThrow` | src/testsuite/TestSuiteController.java:67-84 | the position of the first test whose launch throws: every earlier launch exits, and the launch at that position throws (or there is none) |
| `Execution.RunAllLaunches` | src/testsuite/TestSuiteController.java:66-85 | tests are launched in list order with command `exe + " " + dir + name`, up to and including the first launch that throws; the batch completes exactly when no launch throws, and then every test was launched |
| `Execution.RunAllStops` | src/testsuite/TestSuiteController.java:67-84 | the batch stops right after the first launch that throws, and completes exactly when none throws |
| `Execution.RunAllCommands` | src/testsuite/TestSuiteController.java:68-71 | the i-th launched command is `exe + " " + dir` followed by the i-th executed test |
| `Execution.RunAllRecords` | src/testsuite/TestSuiteController.java:67-84 | each test that ran before the first exception gets result `exitCode == 0`; no other test gets a result; every other entry of the map is kept |
| `Execution.RunAllExample` | src/testsuite/TestSuiteController.java:67-81 | tests exiting with 0, 2 and 0 are all launched and give results true, false, true |
| `Controller.CellColour` | src/testsuite/TestSuiteController.java:212-227 | an empty cell gets no style; a test with no result is white, a passed test green, a failed test red |
| `Controller.RunDisabled` | src/testsuite/TestSuiteController.java:153-155 | running is enabled exactly when both the directory and the executable are valid |
| `Controller.TestsFound` | src/testsuite/TestSuiteController.java:120-124 | a directory change offers exactly the listed ".java" entries of a valid directory whose listing succeeds, and nothing otherwise |
| `Controller.AppendEach` | src/testsuite/TestSuiteController.java:98-99 | the inner loop over an added sub-list appends every added name, in order, after the view |
| `Controller.DeleteEach` | src/testsuite/TestSuiteController.java:101-102 | the inner loop over a removed list deletes each removed name by value, one occurrence each |
| `Controller.Mirror` | src/testsuite/TestSuiteController.java:95-104 | the listener loop's result is the notification replayed onto the view: added names are appended, removed names deleted by value |
| `Controller.TestSuiteController.constructor` | src/testsuite/TestSuiteController.java:42-48 | a new controller owns a new model and starts with empty views and an empty result map |
| `Controller.TestSuiteController.OnAvailableTestsChanged` | src/testsuite/TestSuiteController.java:95-104 | the available view receives the replayed notification |
| `Controller.TestSuiteController.OnExecutedTestsChanged` | src/testsuite/TestSuiteController.java:105-114 | the executed view receives the replayed notification |
| `Controller.TestSuiteController.UpdateRunButtonEnabled` | src/testsuite/TestSuiteController.java:153-155 | the run button is disabled exactly when not both flags are set |
| `Controller.TestSuiteController.DropOnExecuted` | src/testsuite/TestSuiteController.java:172-177 | the available list loses every occurrence of the selected names; the executed list gains the selection at its end, in selection order; the views still equal the lists and no name is in both |
| `Controller.TestSuiteController.ForgetResults` | src/testsuite/TestSuiteController.java:196 | the given names lose their results and their cells show white; every other result is kept |
| `Controller.TestSuiteController.DropOnAvailable` | src/testsuite/TestSuiteController.java:192-197 | the executed list loses every occurrence of the selected names; the available list gains the selection at its end; the moved names lose their results and show white; every other result is kept; the views still equal the lists and no name is in both |
| `Controller.TestSuiteController.ClearLists` | src/testsuite/TestSuiteController.java:116-119 | both model lists and both views end empty |
| `Controller.TestSuiteController.OnDirectoryChanged` | src/testsuite/TestSuiteController.java:115-133 | executed becomes empty; available becomes the tests found in the directory (empty for an invalid directory or a failed listing); `dirValid` equals the directory check; the run gate is recomputed |
| `Controller.TestSuiteController.OnExecutableChanged` | src/testsuite/TestSuiteController.java:134-144 | `exeValid` equals the executable check; the run gate is recomputed; nothing else in the model changes; the invariant is kept |
| `Controller.TestSuiteController.SetDirectory` | src/testsuite/TestSuiteController.java:145-147 | the model's directory is set; a changed path triggers the directory listener; an unchanged path leaves lists, flag and gate as they were |
| `Controller.TestSuiteController.SetExecutable` | src/testsuite/TestSuiteController.java:148-150 | the model's executable is set; a changed path triggers the executable listener |
| `Controller.TestSuiteController.RunTests` | src/testsuite/TestSuiteController.java:65-86 | the result map, the commands launched and whether the loop finished are those of `RunAll` over the executed list, the stored executable and directory; neither list changes |
| `Controller.LaunchAll` | src/testsuite/TestSuiteController.java:67-84 | the run loop launches, records and stops exactly as `RunAll` says: the returned map, launched commands and completion flag are its batch |
| `Controller.MoveKeepsPartition` | src/testsuite/TestSuiteController.java:172-177 | moving a duplicate-free selection taken from one list keeps both lists duplicate-free and no name in both |
| `Controller.CompletedRunColours` | src/testsuite/TestSuiteController.java:79 | after a batch that completes, every executed test's cell is green when its process exited with 0 and red otherwise |

## Left out

- The widgets, the CSS strings that colour the two path fields, the drag gestures and drag-board tokens (src/testsuite/TestSuiteController.java:158-191), the `setItems(null)` repaint, and the `initialize` wiring. They are presentation only. The model starts where a drop, an edit or a click reaches the controller.
- Process I/O: `Runtime.exec`, `waitFor` and the console lines are replaced by the `exec` function argument. It returns the exit code or `Thrown`, and the same command always gives the same answer. How `Runtime.exec` splits the command string into arguments is not modelled. The command is kept as the one string the handler builds.
- The file system: `FileManager`'s two checks and `File.list` read a `FileSystem` snapshot (existing paths, directories, executable files, and a listing per directory). How `java.nio.file.Files` decides those facts is not part of this model, and neither is `Paths.get` rejecting a malformed path.
- src/testsuite/Launcher.java is not part of this model. It only loads the window.
- Notification shape: JavaFX reports a `removeAll` as one sub-change per contiguous run of removed elements. The model sends one sub-change with all removed elements in list order. The mirroring listener deletes each removed name by value, so both give the same view. Replacement sub-changes (both added and removed) are never produced by this code. The listener model follows the code for them anyway: it applies only the additions.
- The order of a multiple selection is taken as given: `selection` is the list of selected names in the order the list view reports them.
- The run button's state before the first path change comes from the layout file, which is not part of this model. The model starts it enabled, the JavaFX default.
- `Model.GetDirectory`, `GetExecutable`, `IsDirValid`, `IsExeValid`: plain field reads with no contract of their own. The setters' contracts state what they return.
