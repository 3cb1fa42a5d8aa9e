/**
 * The operations of java.util.List and java.lang.String that the test suite
 * relies on, as functions on sequences, with the facts the rest of the model
 * needs about them.
 */
module Sequences {

  /** Every element of `a` is absent from `b`: no name sits in both lists. */
  ghost predicate Disjoint(a: seq<string>, b: seq<string>) {
    forall x :: x in a ==> x !in b
  }

  /** No element occurs twice. */
  ghost predicate Distinct(s: seq<string>) {
    forall i, j :: 0 <= i < j < |s| ==> s[i] != s[j]
  }

  /** `s` can be obtained from `t` by deleting elements: `s` keeps the relative order of `t`. */
  predicate Subsequence(s: seq<string>, t: seq<string>)
    decreases |t|
  {
    if s == [] then true
    else if t == [] then false
    else if s[0] == t[0] then Subsequence(s[1..], t[1..])
    else Subsequence(s, t[1..])
  }

  /** `xs.removeAll(sel)`: every occurrence of every element of `sel` is taken out. */
  function Without(xs: seq<string>, sel: seq<string>): (r: seq<string>)
    ensures forall x :: x in r <==> x in xs && x !in sel
  {
    if xs == [] then []
    else if xs[0] in sel then Without(xs[1..], sel)
    else [xs[0]] + Without(xs[1..], sel)
  }

  /** The occurrences that `xs.removeAll(sel)` takes out, in list order. */
  function OnlyIn(xs: seq<string>, sel: seq<string>): (r: seq<string>)
    ensures forall x :: x in r <==> x in xs && x in sel
  {
    if xs == [] then []
    else if xs[0] in sel then [xs[0]] + OnlyIn(xs[1..], sel)
    else OnlyIn(xs[1..], sel)
  }

  /** The position of the first occurrence of `x` in `xs` (`indexOf`). */
  function FirstIndex(xs: seq<string>, x: string): (k: nat)
    requires x in xs
    ensures k < |xs| && xs[k] == x && x !in xs[..k]
  {
    if xs[0] == x then 0
    else
      var k := 1 + FirstIndex(xs[1..], x);
      assert xs[..k] == [xs[0]] + xs[1..][..k - 1];
      k
  }

  /**
   * `xs.remove(x)` of java.util.List: the first occurrence of `x`, if any, is
   * taken out (`RemoveFirstAt` says where).
   */
  function RemoveFirst(xs: seq<string>, x: string): (r: seq<string>)
    ensures multiset(r) == multiset(xs) - multiset{x}
    ensures x in xs ==> |r| == |xs| - 1
    ensures x !in xs ==> r == xs
  {
    if xs == [] then []
    else if xs[0] == x then
      assert xs == [xs[0]] + xs[1..];
      xs[1..]
    else
      assert xs == [xs[0]] + xs[1..];
      [xs[0]] + RemoveFirst(xs[1..], x)
  }

  /**
   * `remove(x)` takes out exactly the occurrence at `FirstIndex`: the elements
   * before it stay in place and the ones after it move up by one, in order.
   */
  lemma {:induction false} RemoveFirstAt(xs: seq<string>, x: string)
    requires x in xs
    ensures var k := FirstIndex(xs, x);
            RemoveFirst(xs, x) == xs[..k] + xs[k + 1..]
  {
    if xs[0] != x {
      var t := xs[1..];
      assert xs == [xs[0]] + t;
      RemoveFirstAt(t, x);
      FirstIndexPastHead(xs[0], t, x);
      ConsSlices(xs[0], t, FirstIndex(t, x));
    }
  }

  /** Past a leading element other than `y`, the first `y` sits one place further on. */
  lemma FirstIndexPastHead(h: string, t: seq<string>, y: string)
    requires h != y && y in t
    ensures FirstIndex([h] + t, y) == 1 + FirstIndex(t, y)
  {
    assert ([h] + t)[1..] == t;
  }

  /** Cutting `[h] + t` around position `k + 1` cuts `t` around position `k`. */
  lemma ConsSlices(h: string, t: seq<string>, k: nat)
    requires k < |t|
    ensures ([h] + t)[..k + 1] + ([h] + t)[k + 2..] == [h] + (t[..k] + t[k + 1..])
  {
    assert ([h] + t)[..k + 1] == [h] + t[..k];
    assert ([h] + t)[k + 2..] == t[k + 1..];
  }

  /** `xs.remove(r)` for each `r` of `rs` in turn: one occurrence of each `r` goes, when there is one. */
  function RemoveEach(xs: seq<string>, rs: seq<string>): (r: seq<string>)
    ensures multiset(r) == multiset(xs) - multiset(rs)
    decreases |rs|
  {
    if rs == [] then xs
    else
      assert rs == [rs[0]] + rs[1..];
      RemoveEach(RemoveFirst(xs, rs[0]), rs[1..])
  }

  /** Deleting a list of values one by one starts by deleting the first of them. */
  lemma RemoveEachFirst(xs: seq<string>, rs: seq<string>, j: nat)
    requires j < |rs|
    ensures RemoveEach(xs, rs[j..]) == RemoveEach(RemoveFirst(xs, rs[j]), rs[j + 1..])
  {
    assert rs[j..][0] == rs[j] && rs[j..][1..] == rs[j + 1..];
  }

  /** `s.endsWith(suffix)` of java.lang.String: `s` is some prefix followed by `suffix`. */
  predicate EndsWith(s: string, suffix: string): (b: bool)
    ensures b <==> |suffix| <= |s| && s == s[..|s| - |suffix|] + suffix
  {
    |suffix| <= |s| && s[|s| - |suffix|..] == suffix
  }

  /** Any string made of a prefix and `suffix` ends with `suffix`. */
  lemma EndsWithConcat(p: string, suffix: string)
    ensures EndsWith(p + suffix, suffix)
  {
    assert (p + suffix)[|p|..] == suffix;
  }

  /** removeAll keeps the relative order of the elements it does not remove. */
  lemma {:induction false} WithoutIsSubsequence(xs: seq<string>, sel: seq<string>)
    ensures Subsequence(Without(xs, sel), xs)
  {
    if xs != [] {
      WithoutIsSubsequence(xs[1..], sel);
      var rest := Without(xs[1..], sel);
      if xs[0] in sel {
        if rest != [] {
          assert rest[0] in rest;
          assert rest[0] != xs[0];
        }
      } else {
        assert ([xs[0]] + rest)[1..] == rest;
      }
    }
  }

  /** removeAll keeps every occurrence of every element it does not remove. */
  lemma {:induction false} WithoutKeepsCounts(xs: seq<string>, sel: seq<string>, x: string)
    requires x !in sel
    ensures multiset(Without(xs, sel))[x] == multiset(xs)[x]
  {
    if xs != [] {
      WithoutKeepsCounts(xs[1..], sel, x);
      assert xs == [xs[0]] + xs[1..];
    }
  }

  /** removeAll of a duplicate-free list is duplicate-free. */
  lemma {:induction false} WithoutDistinct(xs: seq<string>, sel: seq<string>)
    requires Distinct(xs)
    ensures Distinct(Without(xs, sel))
  {
    if xs != [] {
      assert Distinct(xs[1..]) by {
        forall i, j | 0 <= i < j < |xs[1..]| ensures xs[1..][i] != xs[1..][j] {
          assert xs[1..][i] == xs[i + 1] && xs[1..][j] == xs[j + 1];
        }
      }
      WithoutDistinct(xs[1..], sel);
      var rest := Without(xs[1..], sel);
      if xs[0] !in sel {
        assert xs[0] !in xs[1..];
        assert xs[0] !in rest;
        var r := [xs[0]] + rest;
        forall i, j | 0 <= i < j < |r| ensures r[i] != r[j] {
          if i == 0 {
            assert r[j] == rest[j - 1] && r[j] in rest;
          } else {
            assert r[i] == rest[i - 1] && r[j] == rest[j - 1];
          }
        }
      }
    }
  }

  /** Deleting `x`'s first occurrences never touches a leading element other than `x`. */
  lemma {:induction false} RemoveEachSkips(x: string, t: seq<string>, rs: seq<string>)
    requires x !in rs
    ensures RemoveEach([x] + t, rs) == [x] + RemoveEach(t, rs)
    decreases |rs|
  {
    if rs != [] {
      assert ([x] + t)[0] == x && ([x] + t)[1..] == t;
      assert RemoveFirst([x] + t, rs[0]) == [x] + RemoveFirst(t, rs[0]);
      RemoveEachSkips(x, RemoveFirst(t, rs[0]), rs[1..]);
    }
  }

  /**
   * Deleting, one at a time and by value, the occurrences that removeAll takes
   * out leaves exactly what removeAll leaves.
   */
  lemma {:induction false} RemoveEachOnlyIn(xs: seq<string>, sel: seq<string>)
    ensures RemoveEach(xs, OnlyIn(xs, sel)) == Without(xs, sel)
  {
    if xs != [] {
      RemoveEachOnlyIn(xs[1..], sel);
      var removed := OnlyIn(xs[1..], sel);
      assert xs == [xs[0]] + xs[1..];
      if xs[0] in sel {
        var rs := [xs[0]] + removed;
        assert rs[0] == xs[0] && rs[1..] == removed;
        assert RemoveFirst(xs, xs[0]) == xs[1..];
      } else {
        assert xs[0] !in removed;
        RemoveEachSkips(xs[0], xs[1..], removed);
      }
    }
  }

  /** Deleting every element of a list, one at a time and by value, empties it. */
  lemma {:induction false} RemoveEachSelf(xs: seq<string>)
    ensures RemoveEach(xs, xs) == []
  {
    if xs != [] {
      assert RemoveFirst(xs, xs[0]) == xs[1..];
      RemoveEachSelf(xs[1..]);
    }
  }
}
