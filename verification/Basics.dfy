/** Small datatypes and constants shared by every part of the model. */
module Basics {

  datatype Option<+T> = None | Some(value: T)

  /** Time is an integer number of nanoseconds, as in Go's time.Duration. */
  const SECOND: int := 1_000_000_000
  const MINUTE: int := 60 * SECOND

  /** Go's time.Time.After on an optional instant: an absent instant is never after anything. */
  predicate After(instant: Option<int>, now: int) {
    instant.Some? && instant.value > now
  }

  /** The first occurrence of every element, in order (samber/lo's Uniq). */
  function Uniq<T(==, !new)>(s: seq<T>): (r: seq<T>)
    ensures forall x :: x in r <==> x in s
    ensures forall i, j :: 0 <= i < j < |r| ==> r[i] != r[j]
  {
    if s == [] then []
    else
      var front := Uniq(s[..|s| - 1]);
      var last := s[|s| - 1];
      assert s == s[..|s| - 1] + [last];
      if last in front then front else front + [last]
  }

  /** A strictly smaller set of the same elements has a smaller size, so equal sizes mean equal sets. */
  lemma SubsetSameSize<T>(small: set<T>, big: set<T>)
    requires small <= big
    ensures |small| <= |big|
    ensures |small| == |big| <==> small == big
  {
    assert big == small + (big - small);
  }

  /** A count of chosen entries equals the length of the list exactly when nothing is repeated and all are chosen. */
  lemma {:induction false} CountTest<T>(s: seq<T>, chosen: set<T>)
    requires forall x :: x in chosen ==> x in s
    ensures |chosen| <= |s|
    ensures |chosen| == |s| <==>
      && (forall x :: x in s ==> x in chosen)
      && (forall i, j :: 0 <= i < j < |s| ==> s[i] != s[j])
  {
    if s != [] {
      var front, last := s[..|s| - 1], s[|s| - 1];
      assert forall x :: x in s <==> x in front || x == last;
      if last in front {
        var i :| 0 <= i < |front| && front[i] == last;
        assert s[i] == s[|s| - 1];
        CountTest(front, chosen);
      } else {
        CountTest(front, chosen - {last});
        assert forall i :: 0 <= i < |front| ==> s[i] == front[i] && front[i] in front;
        assert last in chosen ==> |chosen - {last}| == |chosen| - 1;
        assert last !in chosen ==> chosen - {last} == chosen;
      }
    }
  }

  /** A number outside a finite set, as a new uuid is. */
  lemma Unused(s: set<nat>) returns (n: nat)
    ensures n > 0 && forall x :: x in s ==> x < n
  {
    if s == {} {
      n := 1;
    } else {
      var x :| x in s;
      var m := Unused(s - {x});
      assert s == (s - {x}) + {x};
      n := if m > x then m else x + 1;
    }
  }
}
