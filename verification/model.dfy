/**
 * The test suite's model: a plain bean holding the two test lists, the
 * directory and executable paths, and whether each path is valid.
 */
module TestSuiteModel {
  import opened ObservableLists

  class Model {
    const availableTests: ObservableList
    const executedTests: ObservableList
    var directory: string
    var executable: string
    var dirValid: bool
    var exeValid: bool

    /** The two lists are distinct objects. */
    ghost predicate Valid() {
      availableTests != executedTests
    }

    /** A new model: empty lists, empty paths, both flags false (the Java field default). */
    constructor ()
      ensures Valid() && fresh(availableTests) && fresh(executedTests)
      ensures availableTests.items == [] && executedTests.items == []
      ensures directory == "" && executable == ""
      ensures !dirValid && !exeValid
    {
      availableTests := new ObservableList();
      executedTests := new ObservableList();
      directory := "";
      executable := "";
      dirValid := false;
      exeValid := false;
    }

    /** The stored list itself: a change made through it is a change to the model. */
    function GetAvailableTests(): (l: ObservableList)
      ensures l == availableTests
    {
      availableTests
    }

    /** The stored list itself: a change made through it is a change to the model. */
    function GetExecutedTests(): (l: ObservableList)
      ensures l == executedTests
    {
      executedTests
    }

    function GetDirectory(): string
      reads this
    {
      directory
    }

    function GetExecutable(): string
      reads this
    {
      executable
    }

    function IsDirValid(): bool
      reads this
    {
      dirValid
    }

    function IsExeValid(): bool
      reads this
    {
      exeValid
    }

    method SetDirectory(d: string)
      modifies this
      ensures GetDirectory() == d
      ensures executable == old(executable) && dirValid == old(dirValid) && exeValid == old(exeValid)
    {
      directory := d;
    }

    method SetExecutable(e: string)
      modifies this
      ensures GetExecutable() == e
      ensures directory == old(directory) && dirValid == old(dirValid) && exeValid == old(exeValid)
    {
      executable := e;
    }

    method SetExeValid(b: bool)
      modifies this
      ensures IsExeValid() == b
      ensures directory == old(directory) && executable == old(executable) && dirValid == old(dirValid)
    {
      exeValid := b;
    }

    method SetDirValid(b: bool)
      modifies this
      ensures IsDirValid() == b
      ensures directory == old(directory) && executable == old(executable) && exeValid == old(exeValid)
    {
      dirValid := b;
    }
  }
}
