/** The insertion sort written out twice in the dashboard (series by time, ranks by value):
    neighbours are swapped only while they are strictly out of order. */
module StableSort {
  import opened Seqs

  ghost predicate SortedBy<T>(s: seq<T>, key: T -> real) {
    forall i, j :: 0 <= i < j < |s| ==> key(s[i]) <= key(s[j])
  }

  /** The elements with key v, in order. */
  ghost function WithKey<T>(s: seq<T>, key: T -> real, v: real): seq<T> {
    if s == [] then [] else WithKey(Butlast(s), key, v) + if key(Last(s)) == v then [Last(s)] else []
  }

  /** Same elements, and those of equal key in the same order. */
  ghost predicate StablePermutation<T>(s: seq<T>, t: seq<T>, key: T -> real) {
    forall v :: WithKey(s, key, v) == WithKey(t, key, v)
  }

  lemma {:induction false} WithKeyConcat<T>(s: seq<T>, t: seq<T>, key: T -> real, v: real)
    ensures WithKey(s + t, key, v) == WithKey(s, key, v) + WithKey(t, key, v)
  {
    if t == [] {
      assert s + t == s;
    } else {
      WithKeyConcat(s, Butlast(t), key, v);
      assert Butlast(s + t) == s + Butlast(t) && Last(s + t) == Last(t);
    }
  }

  lemma PairWithKey<T>(x: T, y: T, key: T -> real, v: real)
    ensures WithKey([x, y], key, v) == (if key(x) == v then [x] else []) + (if key(y) == v then [y] else [])
  {
    assert Butlast([x, y]) == [x] && Butlast([x]) == [];
    assert WithKey([x], key, v) == if key(x) == v then [x] else [];
  }

  function Swapped<T>(s: seq<T>, j: nat): seq<T>
    requires 0 < j < |s|
  {
    s[j - 1 := s[j]][j := s[j - 1]]
  }

  lemma SwapIsStable<T>(s: seq<T>, j: nat, key: T -> real)
    requires 0 < j < |s| && key(s[j]) != key(s[j - 1])
    ensures StablePermutation(s, Swapped(s, j), key)
  {
    var p, x, y, q := s[..j - 1], s[j - 1], s[j], s[j + 1..];
    forall v ensures WithKey(s, key, v) == WithKey(Swapped(s, j), key, v) {
      assert s == p + ([x, y] + q) && Swapped(s, j) == p + ([y, x] + q);
      WithKeyConcat(p, [x, y] + q, key, v);
      WithKeyConcat([x, y], q, key, v);
      WithKeyConcat(p, [y, x] + q, key, v);
      WithKeyConcat([y, x], q, key, v);
      PairWithKey(x, y, key, v);
      PairWithKey(y, x, key, v);
    }
  }

  /** t rearranges s and keeps elements of equal key in order. */
  ghost predicate Rearranges<T>(s: seq<T>, t: seq<T>, key: T -> real) {
    StablePermutation(s, t, key) && multiset(s) == multiset(t)
  }

  lemma SwapMultiset<T>(t: seq<T>, j: nat)
    requires 0 < j < |t|
    ensures multiset(Swapped(t, j)) == multiset(t)
  {
    var p, x, y, q := t[..j - 1], t[j - 1], t[j], t[j + 1..];
    assert t == p + [x, y] + q;
    assert Swapped(t, j) == p + [y, x] + q;
    assert multiset([x, y]) == multiset([y, x]);
  }

  lemma SwapRearranges<T>(s: seq<T>, t: seq<T>, j: nat, key: T -> real)
    requires Rearranges(s, t, key) && 0 < j < |t| && key(t[j]) != key(t[j - 1])
    ensures Rearranges(s, Swapped(t, j), key)
  {
    SwapIsStable(t, j, key);
    SwapMultiset(t, j);
    hide WithKey, Swapped;
    forall v ensures WithKey(s, key, v) == WithKey(Swapped(t, j), key, v) {
      assert WithKey(s, key, v) == WithKey(t, key, v);
    }
  }

  /** Of s[..i + 1] all but the element at j, which has only been passed by greater ones, is in order. */
  ghost predicate SortedBut<T>(s: seq<T>, i: nat, j: nat, key: T -> real) {
    j <= i < |s| && forall p, q :: 0 <= p < q <= i && q != j ==> key(s[p]) <= key(s[q])
  }

  lemma SwapKeepsSortedBut<T>(s: seq<T>, i: nat, j: nat, key: T -> real)
    requires SortedBut(s, i, j, key) && j > 0 && key(s[j]) < key(s[j - 1])
    ensures SortedBut(Swapped(s, j), i, j - 1, key)
  {}

  /** The inner loop: a[i] moves left past every strictly greater key. */
  method Sift<T>(a: array<T>, i: nat, key: T -> real)
    requires i < a.Length && SortedBy(a[..i], key)
    modifies a
    ensures SortedBy(a[..i + 1], key)
    ensures Rearranges(old(a[..]), a[..], key)
  {
    var j := i;
    assert forall p :: 0 <= p < i ==> a[p] == a[..i][p];
    assert SortedBut(a[..], i, j, key);
    assert Rearranges(a[..], a[..], key);
    hide Rearranges, WithKey, SortedBut;
    while j > 0 && key(a[j]) < key(a[j - 1])
      invariant 0 <= j <= i
      invariant SortedBut(a[..], i, j, key)
      invariant Rearranges(old(a[..]), a[..], key)
    {
      ghost var s := a[..];
      SwapRearranges(old(a[..]), s, j, key);
      SwapKeepsSortedBut(s, i, j, key);
      a[j], a[j - 1] := a[j - 1], a[j];
      assert a[..] == Swapped(s, j);
      j := j - 1;
    }
    SortedButIsSorted(a[..], i, j, key);
  }

  lemma SortedButIsSorted<T>(s: seq<T>, i: nat, j: nat, key: T -> real)
    requires SortedBut(s, i, j, key) && (j == 0 || key(s[j - 1]) <= key(s[j]))
    ensures SortedBy(s[..i + 1], key)
  {
    forall p, q | 0 <= p < q <= i ensures key(s[p]) <= key(s[q]) {
      if q == j && p < j - 1 { assert key(s[p]) <= key(s[j - 1]); }
    }
  }

  method InsertionSort<T>(a: array<T>, key: T -> real)
    modifies a
    ensures SortedBy(a[..], key)
    ensures Rearranges(old(a[..]), a[..], key)
  {
    var i := 1;
    while i < a.Length
      invariant 1 <= i && (i <= a.Length || a.Length == 0)
      invariant SortedBy(if i <= a.Length then a[..i] else [], key)
      invariant Rearranges(old(a[..]), a[..], key)
    {
      ghost var before := a[..];
      Sift(a, i, key);
      RearrangesTransitive(old(a[..]), before, a[..], key);
      i := i + 1;
    }
    assert a.Length > 0 ==> a[..] == a[..i];
  }

  lemma RearrangesTransitive<T>(s: seq<T>, t: seq<T>, u: seq<T>, key: T -> real)
    requires Rearranges(s, t, key) && Rearranges(t, u, key)
    ensures Rearranges(s, u, key)
  {
    hide WithKey;
    forall v ensures WithKey(s, key, v) == WithKey(u, key, v) {
      assert WithKey(s, key, v) == WithKey(t, key, v);
    }
  }

  // ---- What sorted and stable pin down ----

  lemma {:induction false} WithKeyMembers<T>(s: seq<T>, key: T -> real, v: real, x: T)
    ensures x in WithKey(s, key, v) <==> x in s && key(x) == v
  {
    if s == [] {
    } else {
      WithKeyMembers(Butlast(s), key, v, x);
      assert s == Butlast(s) + [Last(s)];
    }
  }

  lemma StableMembers<T>(s: seq<T>, t: seq<T>, key: T -> real, x: T)
    requires StablePermutation(s, t, key)
    ensures x in s <==> x in t
  {
    WithKeyMembers(s, key, key(x), x);
    WithKeyMembers(t, key, key(x), x);
  }

  lemma LastIsGreatest<T>(s: seq<T>, key: T -> real, x: T)
    requires SortedBy(s, key) && x in s
    ensures key(x) <= key(Last(s))
  {}

  lemma ButlastWithKey<T>(s: seq<T>, key: T -> real, v: real)
    requires s != []
    ensures key(Last(s)) != v ==> WithKey(Butlast(s), key, v) == WithKey(s, key, v)
    ensures key(Last(s)) == v ==>
              WithKey(s, key, v) != [] && Last(WithKey(s, key, v)) == Last(s)
              && WithKey(Butlast(s), key, v) == Butlast(WithKey(s, key, v))
  {
    assert WithKey(Butlast(s), key, v) + [] == WithKey(Butlast(s), key, v);
  }

  lemma LastsAgree<T>(s: seq<T>, t: seq<T>, key: T -> real)
    requires SortedBy(s, key) && SortedBy(t, key) && StablePermutation(s, t, key) && s != []
    ensures t != [] && Last(s) == Last(t)
  {
    StableMembers(s, t, key, Last(s));
    StableMembers(s, t, key, Last(t));
    LastIsGreatest(t, key, Last(s));
    LastIsGreatest(s, key, Last(t));
    hide WithKey, SortedBy;
    ButlastWithKey(s, key, key(Last(s)));
    ButlastWithKey(t, key, key(Last(t)));
  }

  lemma ButlastsStable<T>(s: seq<T>, t: seq<T>, key: T -> real)
    requires StablePermutation(s, t, key) && s != [] && t != [] && key(Last(s)) == key(Last(t))
    ensures StablePermutation(Butlast(s), Butlast(t), key)
  {
    hide WithKey;
    forall w ensures WithKey(Butlast(s), key, w) == WithKey(Butlast(t), key, w) {
      ButlastWithKey(s, key, w);
      ButlastWithKey(t, key, w);
    }
  }

  /** There is only one sorted stable permutation of a sequence. */
  lemma {:induction false} SortedStableUnique<T>(s: seq<T>, t: seq<T>, key: T -> real)
    requires SortedBy(s, key) && SortedBy(t, key) && StablePermutation(s, t, key)
    ensures s == t
  {
    if s == [] {
      HasElement(t);
      if x :| x in t { StableMembers(s, t, key, x); }
    } else {
      LastsAgree(s, t, key);
      hide WithKey;
      ButlastsStable(s, t, key);
      SortedStableUnique(Butlast(s), Butlast(t), key);
      assert s == Butlast(s) + [Last(s)] && t == Butlast(t) + [Last(t)];
    }
  }

  // ---- No element twice ----

  lemma {:induction false} NoRepeatsCounts<T>(s: seq<T>, x: T)
    requires NoRepeats(s)
    ensures multiset(s)[x] <= 1
  {
    if s == [] {
    } else {
      assert s == Butlast(s) + [Last(s)];
      NoRepeatsCounts(Butlast(s), x);
      if x == Last(s) { assert x !in Butlast(s); }
    }
  }

  lemma RepeatCounts<T>(s: seq<T>, i: nat, j: nat)
    requires i < j < |s| && s[i] == s[j]
    ensures multiset(s)[s[i]] >= 2
  {
    assert s == s[..j] + s[j..];
    assert s[..j][i] == s[i] && s[j..][0] == s[j];
    assert s[i] in s[..j] && s[j] in s[j..];
  }

  lemma PermutationHasNoRepeats<T>(s: seq<T>, t: seq<T>)
    requires NoRepeats(s) && multiset(s) == multiset(t)
    ensures NoRepeats(t) && |s| == |t|
    ensures forall x :: x in s <==> x in t
  {
    assert |multiset(s)| == |s| && |multiset(t)| == |t|;
    forall i, j | 0 <= i < j < |t| ensures t[i] != t[j] {
      NoRepeatsCounts(s, t[i]);
      if t[i] == t[j] { RepeatCounts(t, i, j); }
    }
    forall x ensures x in s <==> x in t { assert x in multiset(s) <==> x in multiset(t); }
  }
}
