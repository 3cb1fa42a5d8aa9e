/**
 * The observable string lists of the test suite: a list whose structural
 * changes are reported to a listener as a change made of sub-changes, each
 * listing the elements it removed and the elements it added.
 */
module ObservableLists {
  import opened Sequences

  /** One sub-change of a list-change notification. */
  datatype SubChange = SubChange(removed: seq<string>, added: seq<string>)

  /** The sub-changes one notification delivers, in order. */
  type ListChange = seq<SubChange>

  /** The notification that `xs.removeAll(sel)` sends: the removed occurrences in list order, or nothing. */
  function RemovalChange(xs: seq<string>, sel: seq<string>): ListChange {
    var removed := OnlyIn(xs, sel);
    if removed == [] then [] else [SubChange(removed, [])]
  }

  /** The notification that `addAll(ys)` sends. */
  function AdditionChange(ys: seq<string>): ListChange {
    if ys == [] then [] else [SubChange([], ys)]
  }

  /** The notification that `clear()` sends for a list holding `xs`. */
  function ClearChange(xs: seq<string>): ListChange {
    if xs == [] then [] else [SubChange(xs, [])]
  }

  /**
   * What a mirroring listener does with one sub-change: when it added
   * elements, they are appended; otherwise, when it removed elements, each
   * is deleted by value (first occurrence).
   */
  function ApplySub(view: seq<string>, c: SubChange): (r: seq<string>)
    ensures |c.added| > 0 ==> |r| == |view| + |c.added| && r[..|view|] == view && r[|view|..] == c.added
    ensures |c.added| == 0 ==> multiset(r) == multiset(view) - multiset(c.removed)
  {
    if |c.added| > 0 then view + c.added
    else if |c.removed| > 0 then RemoveEach(view, c.removed)
    else view
  }

  /** One sub-change gives the view no name that was neither in it nor added. */
  lemma ApplySubKeepsNames(view: seq<string>, c: SubChange)
    ensures forall x :: x in ApplySub(view, c) ==> x in view || x in c.added
  {
    var r := ApplySub(view, c);
    forall x | x in r ensures x in view || x in c.added {
      if |c.added| == 0 {
        assert multiset(r)[x] > 0;
      } else {
        assert r == view + c.added;
      }
    }
  }

  /** Every name a notification reports as added, in order. */
  function Added(change: ListChange): seq<string>
    decreases |change|
  {
    if change == [] then [] else change[0].added + Added(change[1..])
  }

  /**
   * What a mirroring listener does with a whole notification: the view never
   * gains a name that was neither in it nor reported as added.
   */
  function Replay(view: seq<string>, change: ListChange): (r: seq<string>)
    ensures forall x :: x in r ==> x in view || x in Added(change)
    decreases |change|
  {
    if change == [] then view
    else
      ApplySubKeepsNames(view, change[0]);
      Replay(ApplySub(view, change[0]), change[1..])
  }

  /** Replaying a removeAll notification onto a copy of the list gives what removeAll left. */
  lemma ReplayRemoval(xs: seq<string>, sel: seq<string>)
    ensures Replay(xs, RemovalChange(xs, sel)) == Without(xs, sel)
  {
    RemoveEachOnlyIn(xs, sel);
  }

  /** Replaying an addAll notification appends the added elements. */
  lemma ReplayAddition(xs: seq<string>, ys: seq<string>)
    ensures Replay(xs, AdditionChange(ys)) == xs + ys
  {
    if ys != [] {
      assert Replay(xs, AdditionChange(ys)) == Replay(xs + ys, []);
    }
  }

  /** Replaying a clear notification onto a copy of the list empties the copy. */
  lemma ReplayClear(xs: seq<string>)
    ensures Replay(xs, ClearChange(xs)) == []
  {
    RemoveEachSelf(xs);
  }

  /** A list of strings that tells its listener about each structural change. */
  class ObservableList {
    var items: seq<string>

    constructor ()
      ensures items == []
    {
      items := [];
    }

    function IsEmpty(): bool
      reads this
    {
      items == []
    }

    /** Removes every occurrence of every element of `c`; returns the notification sent. */
    method RemoveAll(c: seq<string>) returns (change: ListChange)
      modifies this
      ensures items == Without(old(items), c)
      ensures change == RemovalChange(old(items), c)
    {
      change := RemovalChange(items, c);
      items := Without(items, c);
    }

    /** Appends `c` in order; returns the notification sent. */
    method AddAll(c: seq<string>) returns (change: ListChange)
      modifies this
      ensures items == old(items) + c
      ensures change == AdditionChange(c)
    {
      change := AdditionChange(c);
      items := items + c;
    }

    /** Removes everything; returns the notification sent. */
    method Clear() returns (change: ListChange)
      modifies this
      ensures items == []
      ensures change == ClearChange(old(items))
    {
      change := ClearChange(items);
      items := [];
    }
  }
}
