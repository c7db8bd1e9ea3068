/** Small facts about sets and sequences that several modules share. */
module Basics {

  type Byte = x: int | 0 <= x < 256

  datatype Option<+T> = None | Some(value: T)

  /** A set that a function covers from `xs` is no larger than `xs`. */
  lemma {:induction false} CoverBound<A, B>(ys: set<B>, xs: set<A>, f: A -> B)
    requires forall y :: y in ys ==> exists x :: x in xs && f(x) == y
    ensures |ys| <= |xs|
    decreases |ys|
  {
    if ys != {} {
      var y :| y in ys;
      var x :| x in xs && f(x) == y;
      forall z | z in ys - {y} ensures exists w :: w in xs - {x} && f(w) == z {
        var w :| w in xs && f(w) == z;
        assert w in xs - {x};
      }
      CoverBound(ys - {y}, xs - {x}, f);
    }
  }

  /** A number above all of a set. */
  lemma {:induction false} Above(s: set<nat>) returns (n: nat)
    ensures forall x: nat :: x in s ==> x < n
  {
    if s == {} {
      n := 0;
      assert forall x: nat :: x !in s;
    } else {
      var x :| x in s;
      var m := Above(s - {x});
      n := if x < m then m else x + 1;
      forall y: nat | y in s ensures y < n {
        assert y == x || y in s - {x};
      }
    }
  }

  function Reverse<T>(s: seq<T>): (r: seq<T>)
    ensures |r| == |s|
    ensures forall i :: 0 <= i < |s| ==> r[i] == s[|s| - 1 - i]
  {
    if s == [] then [] else [s[|s| - 1]] + Reverse(s[..|s| - 1])
  }

  predicate NoDuplicates<T(==)>(s: seq<T>) {
    forall i, j :: 0 <= i < j < |s| ==> s[i] != s[j]
  }

  /** Some element of a set, as a walk over a map in an unspecified order takes them. */
  method AnyOf<T>(s: set<T>) returns (x: T)
    requires s != {}
    ensures x in s
  {
    x :| x in s;
  }

  /** The position of the first `x`, or the length if there is none. */
  function IndexOf<T(==)>(s: seq<T>, x: T): (i: nat)
    ensures i <= |s| && x !in s[..i]
    ensures i < |s| ==> s[i] == x
  {
    if s == [] || s[0] == x then 0
    else
      var i := 1 + IndexOf(s[1..], x);
      assert s[..i] == [s[0]] + s[1..][..i - 1];
      i
  }
}
