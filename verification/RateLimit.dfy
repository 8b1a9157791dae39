/** A repeat limiter with one persistent mark: an alert that is wanted goes out when at
    least `gap` seconds have passed since the mark, and then moves the mark. Offline
    alerts and load rules are both of this kind. */
module RateLimit {
  import opened Seqs
  import opened Arithmetic

  /** One check: the clock, whether an alert is wanted, and the gap in force. */
  datatype Tick = Tick(now: int, want: bool, gap: int)

  predicate Due(t: Tick, mark: int) { t.want && t.now - mark >= t.gap }

  function MarkAfter(ticks: seq<Tick>, mark0: int): int {
    if ticks == [] then mark0
    else
      var m := MarkAfter(Butlast(ticks), mark0);
      if Due(Last(ticks), m) then Last(ticks).now else m
  }

  predicate Fires(ticks: seq<Tick>, mark0: int, i: nat)
    requires i < |ticks|
  {
    Due(ticks[i], MarkAfter(ticks[..i], mark0))
  }

  ghost function Fired(ticks: seq<Tick>, mark0: int): set<nat> {
    set i: nat | i < |ticks| && Fires(ticks, mark0, i)
  }

  /** Either no gap is negative, and then the clock may jump as it likes, or the clock
      starts at or after the mark and never runs backwards. */
  ghost predicate Ordered(ticks: seq<Tick>, mark0: int) {
    || (forall i :: 0 <= i < |ticks| ==> ticks[i].gap >= 0)
    || ((forall i :: 0 <= i < |ticks| ==> mark0 <= ticks[i].now)
        && (forall i, j :: 0 <= i < j < |ticks| ==> ticks[i].now <= ticks[j].now))
  }

  /** The greedy selection, without any mark: a wanted tick is taken when it keeps its gap
      to the start and to every tick taken before it. */
  ghost predicate Takes(ticks: seq<Tick>, mark0: int, a: set<nat>, i: nat)
    requires i < |ticks|
  {
    && ticks[i].want
    && ticks[i].now - mark0 >= ticks[i].gap
    && forall j :: j in a && j < i && j < |ticks| ==> ticks[i].now - ticks[j].now >= ticks[i].gap
  }

  ghost predicate Greedy(ticks: seq<Tick>, mark0: int, a: set<nat>) {
    && (forall i :: i in a ==> i < |ticks|)
    && (forall i: nat :: i < |ticks| ==> (i in a <==> Takes(ticks, mark0, a, i)))
  }

  /** The mark is the start or a tick fired, and the latest of them. */
  lemma {:induction false} MarkIsLatestFired(ticks: seq<Tick>, mark0: int, n: nat)
    requires n <= |ticks| && Ordered(ticks, mark0)
    ensures var m := MarkAfter(ticks[..n], mark0);
            (m == mark0 || exists k: nat :: k < n && Fires(ticks, mark0, k) && m == ticks[k].now)
            && mark0 <= m
            && forall j: nat :: j < n && Fires(ticks, mark0, j) ==> ticks[j].now <= m
  {
    if n == 0 {
    } else {
      MarkIsLatestFired(ticks, mark0, n - 1);
      assert Butlast(ticks[..n]) == ticks[..n - 1];
    }
  }

  /** The limiter selects greedily. */
  lemma {:induction false} FiredIsGreedy(ticks: seq<Tick>, mark0: int)
    requires Ordered(ticks, mark0)
    ensures Greedy(ticks, mark0, Fired(ticks, mark0))
  {
    var a := Fired(ticks, mark0);
    forall i: nat | i < |ticks| ensures i in a <==> Takes(ticks, mark0, a, i) {
      MarkIsLatestFired(ticks, mark0, i);
    }
  }

  /** There is only one greedy selection. */
  lemma {:induction false} GreedyUnique(ticks: seq<Tick>, mark0: int, a: set<nat>, b: set<nat>, n: nat)
    requires n <= |ticks| && Greedy(ticks, mark0, a) && Greedy(ticks, mark0, b)
    ensures forall i: nat :: i < n ==> (i in a <==> i in b)
  {
    if n == 0 {
    } else {
      GreedyUnique(ticks, mark0, a, b, n - 1);
      assert Takes(ticks, mark0, a, n - 1) <==> Takes(ticks, mark0, b, n - 1);
    }
  }

  lemma {:induction false} FiredSpacing(ticks: seq<Tick>, mark0: int, i: nat, j: nat)
    requires Ordered(ticks, mark0) && i < j < |ticks|
    requires Fires(ticks, mark0, i) && Fires(ticks, mark0, j)
    ensures ticks[j].now - ticks[i].now >= ticks[j].gap
  {
    FiredIsGreedy(ticks, mark0);
    assert i in Fired(ticks, mark0) && j in Fired(ticks, mark0);
  }

  // ---- The times alerts go out ----

  /** The times of the selected ticks, in order. */
  ghost function TimesOf(ticks: seq<Tick>, a: set<nat>): seq<int> {
    if ticks == [] then []
    else TimesOf(Butlast(ticks), a) + if |ticks| - 1 in a then [Last(ticks).now] else []
  }

  lemma {:induction false} TimesOfAgree(ticks: seq<Tick>, a: set<nat>, b: set<nat>)
    requires forall i: nat :: i < |ticks| ==> (i in a <==> i in b)
    ensures TimesOf(ticks, a) == TimesOf(ticks, b)
  {
    if ticks == [] {
    } else {
      TimesOfAgree(Butlast(ticks), a, b);
    }
  }

  /** One more tick adds its time when it is due, and nothing else. */
  lemma FiredTimesAppend(ticks: seq<Tick>, mark0: int, t: Tick)
    ensures TimesOf(ticks + [t], Fired(ticks + [t], mark0))
         == TimesOf(ticks, Fired(ticks, mark0)) + if Due(t, MarkAfter(ticks, mark0)) then [t.now] else []
    ensures MarkAfter(ticks + [t], mark0)
         == if Due(t, MarkAfter(ticks, mark0)) then t.now else MarkAfter(ticks, mark0)
  {
    var all := ticks + [t];
    assert Butlast(all) == ticks && all[..|ticks|] == ticks;
    forall i: nat | i < |ticks| ensures i in Fired(all, mark0) <==> i in Fired(ticks, mark0) {
      assert all[..i] == ticks[..i];
    }
    TimesOfAgree(ticks, Fired(all, mark0), Fired(ticks, mark0));
  }

  /** The limiter's mark, and what it lets out, after at most one tick. */
  function MarkAfterVisit(ts: seq<Tick>, mark: int): int { if ts != [] && Due(ts[0], mark) then ts[0].now else mark }

  function TimesOfVisit(ts: seq<Tick>, mark: int): seq<int> { if ts != [] && Due(ts[0], mark) then [ts[0].now] else [] }

  lemma FiredTimesStep(ticks: seq<Tick>, mark0: int, ts: seq<Tick>)
    requires |ts| <= 1
    ensures var all, mark := ticks + ts, MarkAfter(ticks, mark0);
            MarkAfter(all, mark0) == MarkAfterVisit(ts, mark)
            && TimesOf(all, Fired(all, mark0)) == TimesOf(ticks, Fired(ticks, mark0)) + TimesOfVisit(ts, mark)
  {
    if ts == [] {
      assert ticks + ts == ticks;
    } else {
      assert ts == [ts[0]];
      FiredTimesAppend(ticks, mark0, ts[0]);
    }
  }

  lemma NothingFired(mark0: int)
    ensures MarkAfter([], mark0) == mark0 && TimesOf([], Fired([], mark0)) == []
  {}

  ghost predicate Spaced(times: seq<int>, g: int) {
    forall i, j :: 0 <= i < j < |times| ==> times[j] - times[i] >= g
  }

  /** Where every gap is at least g, the alerts are spaced by g. */
  lemma {:induction false} FiredTimesSpaced(ticks: seq<Tick>, mark0: int, g: int)
    requires g >= 0 && forall i :: 0 <= i < |ticks| ==> ticks[i].gap >= g
    ensures var times := TimesOf(ticks, Fired(ticks, mark0));
            Spaced(times, g)
            && mark0 <= MarkAfter(ticks, mark0)
            && forall i :: 0 <= i < |times| ==> mark0 + g <= times[i] <= MarkAfter(ticks, mark0)
  {
    if ticks == [] {
    } else {
      FiredTimesSpaced(Butlast(ticks), mark0, g);
      assert ticks == Butlast(ticks) + [Last(ticks)];
      FiredTimesAppend(Butlast(ticks), mark0, Last(ticks));
    }
  }

  // ---- How many alerts fit in a window ----

  lemma {:induction false} SpacedCount(times: seq<int>, s: set<nat>, from: int, w: int, g: int)
    requires g > 0 && s != {} && Spaced(times, g)
    requires forall i :: i in s ==> i < |times| && from <= times[i] <= from + w
    ensures (|s| - 1) * g <= w
    decreases |s|
  {
    var m := Max(s);
    var rest := s - {m};
    assert |rest| == |s| - 1;
    if rest != {} {
      forall i | i in rest ensures times[i] <= from + (w - g) {
        assert i in s && i < m;
      }
      SpacedCount(times, rest, from, w - g, g);
      assert (|s| - 1) * g == (|rest| - 1) * g + g;
    }
  }

  /** Of times spaced by g > 0, any window of w seconds holds at most 1 + w/g. */
  lemma {:induction false} WindowBound(times: seq<int>, from: int, w: nat, g: int)
    requires g > 0 && Spaced(times, g)
    ensures |set i: nat | i < |times| && from <= times[i] <= from + w| <= 1 + w / g
  {
    var s := set i: nat | i < |times| && from <= times[i] <= from + w;
    if s != {} {
      SpacedCount(times, s, from, w, g);
      assert |s| * g == (|s| - 1) * g + g;
      QuotientAtMost(w, g, |s| - 2);
    }
  }
}
