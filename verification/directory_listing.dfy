/**
 * Listing a directory with the controller's name filter: the entries whose
 * names end in ".java", in the order the file system enumerates them.
 */
module DirectoryListing {
  import opened Wrappers
  import opened Sequences
  import opened FileManager

  /** The suffix a directory entry needs to be offered as a test. */
  const JavaSuffix: string := ".java"

  /** The entry names that end in ".java", in the order given. */
  function JavaSources(names: seq<string>): (r: seq<string>)
    ensures forall x :: x in r <==> x in names && EndsWith(x, JavaSuffix)
  {
    if names == [] then []
    else if EndsWith(names[0], JavaSuffix) then [names[0]] + JavaSources(names[1..])
    else JavaSources(names[1..])
  }

  /** Listing a directory with the ".java" name filter: null (None) when the listing fails. */
  function ListJavaFiles(fs: FileSystem, path: string): (r: Option<seq<string>>)
    ensures r.Some? <==> path in fs.listings
    ensures r.Some? ==> forall x :: x in r.value <==> x in fs.listings[path] && EndsWith(x, JavaSuffix)
  {
    if path in fs.listings then Some(JavaSources(fs.listings[path])) else None
  }

  /** The filter keeps the listing order of the names it keeps. */
  lemma {:induction false} JavaSourcesInOrder(names: seq<string>)
    ensures Subsequence(JavaSources(names), names)
  {
    if names != [] {
      JavaSourcesInOrder(names[1..]);
      var rest := JavaSources(names[1..]);
      if EndsWith(names[0], JavaSuffix) {
        assert ([names[0]] + rest)[1..] == rest;
      } else if rest != [] {
        assert rest[0] in rest;
        assert rest[0] != names[0];
      }
    }
  }

  /** A listing of "A.java", "notes.txt" and "B.java" yields exactly the two Java sources. */
  lemma JavaSourcesExample()
    ensures JavaSources(["A.java", "notes.txt", "B.java"]) == ["A.java", "B.java"]
  {
    assert EndsWith("A.java", JavaSuffix);
    assert !EndsWith("notes.txt", JavaSuffix);
    assert EndsWith("B.java", JavaSuffix);
  }
}
