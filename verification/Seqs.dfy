/** Sequences taken from the end, and ascending enumerations. */
module Seqs {

  function Butlast<T>(s: seq<T>): seq<T>
    requires s != []
  { s[..|s| - 1] }

  function Last<T>(s: seq<T>): T
    requires s != []
  { s[|s| - 1] }

  /** What f makes of the elements, in order. */
  function FlatMap<S, T>(s: seq<S>, f: S -> seq<T>): seq<T> {
    if s == [] then [] else FlatMap(Butlast(s), f) + f(Last(s))
  }

  lemma FlatMapSmall<S, T>(s: seq<S>, f: S -> seq<T>)
    requires |s| <= 1
    ensures FlatMap(s, f) == if s == [] then [] else f(s[0])
  {
    if s != [] { assert Butlast(s) == []; }
  }

  lemma {:induction false} FlatMapConcat<S, T>(a: seq<S>, b: seq<S>, f: S -> seq<T>)
    ensures FlatMap(a + b, f) == FlatMap(a, f) + FlatMap(b, f)
  {
    if b == [] {
      assert a + b == a;
    } else {
      FlatMapConcat(a, Butlast(b), f);
      assert Butlast(a + b) == a + Butlast(b) && Last(a + b) == Last(b);
    }
  }

  lemma Regroup<T>(a: seq<T>, b: seq<T>, c: seq<T>)
    ensures a + b + c == a + (b + c)
  {}

  ghost predicate NoRepeats<T>(s: seq<T>) { forall i, j :: 0 <= i < j < |s| ==> s[i] != s[j] }

  /** Strictly ascending by key. */
  ghost predicate AscendingBy<T>(s: seq<T>, key: T -> int) {
    forall i, j :: 0 <= i < j < |s| ==> key(s[i]) < key(s[j])
  }

  lemma SplitLast<T>(s: seq<T>, key: T -> int, x: T)
    requires s != [] && AscendingBy(s, key)
    ensures x in s <==> x in Butlast(s) || x == Last(s)
    ensures x in Butlast(s) ==> key(x) < key(Last(s))
  {
    assert s == Butlast(s) + [Last(s)];
  }

  lemma HasElement<T>(s: seq<T>)
    ensures s != [] ==> exists x :: x in s
  {
    if s != [] { assert s[0] in s; }
  }

  /** An ascending enumeration is determined by its elements. */
  lemma {:induction false} AscendingUnique<T>(a: seq<T>, b: seq<T>, key: T -> int)
    requires AscendingBy(a, key) && AscendingBy(b, key)
    requires forall x :: x in a <==> x in b
    ensures a == b
  {
    if a == [] {
      HasElement(b);
    } else {
      assert Last(a) in b && Last(b) in a;
      SplitLast(a, key, Last(b));
      SplitLast(b, key, Last(a));
      forall x ensures x in Butlast(a) <==> x in Butlast(b) {
        SplitLast(a, key, x);
        SplitLast(b, key, x);
      }
      AscendingUnique(Butlast(a), Butlast(b), key);
      assert a == Butlast(a) + [Last(a)] && b == Butlast(b) + [Last(b)];
    }
  }

  ghost function AnyOf<T>(s: set<T>): (x: T)
    requires s != {}
    ensures x in s
  {
    var x :| x in s;
    x
  }

  ghost function Greatest(s: set<int>): (m: int)
    requires s != {}
    ensures m in s && forall x :: x in s ==> x <= m
  {
    var x := AnyOf(s);
    if s == {x} then x
    else
      var m := Greatest(s - {x});
      assert forall y :: y in s ==> y == x || y in s - {x};
      if x > m then x else m
  }

  function Max(s: set<int>): (m: int)
    requires s != {}
    ensures m in s && forall x :: x in s ==> x <= m
  {
    assert Greatest(s) in s;
    var m :| m in s && forall x :: x in s ==> x <= m;
    m
  }

  lemma AppendGreatest(s: set<int>, r: seq<int>, m: int)
    requires m in s && forall x :: x in s ==> x <= m
    requires |r| == |s - {m}| && forall x :: x in r <==> x in s - {m}
    requires forall i, j :: 0 <= i < j < |r| ==> r[i] < r[j]
    ensures |r + [m]| == |s|
    ensures forall x :: x in r + [m] <==> x in s
    ensures forall i, j :: 0 <= i < j < |r + [m]| ==> (r + [m])[i] < (r + [m])[j]
  {
    assert s == (s - {m}) + {m};
    forall i | 0 <= i < |r| ensures r[i] < m { assert r[i] in r; }
  }

  /** The elements of a set of integers in ascending order. */
  function Ascending(s: set<int>): (r: seq<int>)
    ensures |r| == |s|
    ensures forall x :: x in r <==> x in s
    ensures forall i, j :: 0 <= i < j < |r| ==> r[i] < r[j]
  {
    if s == {} then []
    else
      var m := Max(s);
      var r := Ascending(s - {m});
      AppendGreatest(s, r, m);
      r + [m]
  }
}
