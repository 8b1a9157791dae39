/** The dashboard's aggregation over the last day: traffic of all servers by minute, and the
    rankings. A loop over a Go map takes its keys in any order; here the order is whatever
    `:|` picks, and the results are shown not to depend on it. */
module Dashboard {
  import opened Records
  import opened Seqs
  import opened MinuteTable
  import opened StableSort

  datatype TrafficPoint = TrafficPoint(time: int, netIn: real, netOut: real)

  function PlusPoint(a: TrafficPoint, b: TrafficPoint): TrafficPoint {
    TrafficPoint(a.time, a.netIn + b.netIn, a.netOut + b.netOut)
  }

  function ZeroAt(t: int): TrafficPoint { TrafficPoint(t, 0.0, 0.0) }

  // ---- What the aggregation means ----

  /** One server's traffic at time t. */
  function AtTime(points: seq<MinutePoint>, t: int): TrafficPoint {
    if points == [] then ZeroAt(t)
    else
      var p := Last(points);
      PlusPoint(AtTime(Butlast(points), t), if p.time == t then TrafficPoint(t, p.netIn, p.netOut) else ZeroAt(t))
  }

  /** One server's traffic altogether. */
  function TotalOf(points: seq<MinutePoint>): real {
    if points == [] then 0.0 else TotalOf(Butlast(points)) + (Last(points).netIn + Last(points).netOut)
  }

  function TimesOf(points: seq<MinutePoint>): set<int> { set p | p in points :: p.time }

  /** The traffic of a set of servers at time t, in whichever order they are added. */
  ghost function SumAt(hist: History, sids: set<string>, t: int): (r: TrafficPoint)
    requires sids <= hist.Keys
    ensures r.time == t
  {
    if sids == {} then ZeroAt(t)
    else
      var u :| u in sids;
      PlusPoint(SumAt(hist, sids - {u}, t), AtTime(hist[u], t))
  }

  ghost function TimesOfAll(hist: History, sids: set<string>): set<int>
    requires sids <= hist.Keys
  {
    set u, p | u in sids && p in hist[u] :: p.time
  }

  /** Any server of the set may be taken as the one added last. */
  lemma {:induction false} SumAtAnyOrder(hist: History, sids: set<string>, t: int, v: string)
    requires sids <= hist.Keys && v in sids
    ensures SumAt(hist, sids, t) == PlusPoint(SumAt(hist, sids - {v}, t), AtTime(hist[v], t))
    decreases |sids|
  {
    var u :| u in sids && SumAt(hist, sids, t) == PlusPoint(SumAt(hist, sids - {u}, t), AtTime(hist[u], t));
    if u != v {
      var rest := sids - {u} - {v};
      assert sids - {v} - {u} == rest;
      hide AtTime;
      SumAtAnyOrder(hist, sids - {u}, t, v);
      SumAtAnyOrder(hist, sids - {v}, t, u);
      var x, y, z := SumAt(hist, rest, t), AtTime(hist[u], t), AtTime(hist[v], t);
      assert SumAt(hist, sids - {u}, t) == PlusPoint(x, z);
      assert SumAt(hist, sids - {v}, t) == PlusPoint(x, y);
      assert PlusPoint(PlusPoint(x, z), y) == PlusPoint(PlusPoint(x, y), z);
    }
  }

  /** The traffic series: one point per distinct time, ascending, each the sum over all servers. */
  ghost predicate IsSeries(series: seq<TrafficPoint>, hist: History) {
    && (forall i, j :: 0 <= i < j < |series| ==> series[i].time < series[j].time)
    && (forall i :: 0 <= i < |series| ==> series[i] == SumAt(hist, hist.Keys, series[i].time))
    && (forall t :: t in TimesOfAll(hist, hist.Keys) <==> exists i :: 0 <= i < |series| && series[i].time == t)
  }

  function PointTime(p: TrafficPoint): int { p.time }

  /** There is only one such series, so map iteration order cannot show. */
  lemma {:induction false} SeriesUnique(a: seq<TrafficPoint>, b: seq<TrafficPoint>, hist: History)
    requires IsSeries(a, hist) && IsSeries(b, hist)
    ensures a == b
  {
    SameElements(a, b, hist);
    SameElements(b, a, hist);
    AscendingUnique(a, b, PointTime);
  }

  lemma SameElements(a: seq<TrafficPoint>, b: seq<TrafficPoint>, hist: History)
    requires IsSeries(a, hist) && IsSeries(b, hist)
    ensures forall x :: x in a ==> x in b
  {
    forall x | x in a ensures x in b {
      var i :| 0 <= i < |a| && a[i] == x;
      assert x.time in TimesOfAll(hist, hist.Keys);
      var j :| 0 <= j < |b| && b[j].time == x.time;
      assert b[j] == x;
    }
  }

  // ---- Building it ----

  /** One point into its bucket. */
  function Bucketed(buckets: map<int, TrafficPoint>, p: MinutePoint): map<int, TrafficPoint> {
    var b := BucketAt(buckets, p.time);
    buckets[p.time := TrafficPoint(b.time, b.netIn + p.netIn, b.netOut + p.netOut)]
  }

  function BucketAt(buckets: map<int, TrafficPoint>, t: int): TrafficPoint {
    if t in buckets then buckets[t] else ZeroAt(t)
  }

  /** `after` is `before` with the points added, each to the bucket of its time. */
  ghost predicate Adds(before: map<int, TrafficPoint>, points: seq<MinutePoint>, after: map<int, TrafficPoint>) {
    && after.Keys == before.Keys + TimesOf(points)
    && forall t :: BucketAt(after, t) == PlusPoint(BucketAt(before, t), AtTime(points, t))
  }

  lemma AddsPoint(
      before: map<int, TrafficPoint>, points: seq<MinutePoint>, after: map<int, TrafficPoint>, p: MinutePoint)
    requires Adds(before, points, after)
    requires forall t :: t in before ==> before[t].time == t
    ensures Adds(before, points + [p], Bucketed(after, p))
  {
    var all := points + [p];
    assert Butlast(all) == points;
    forall t ensures t in TimesOf(all) <==> t in TimesOf(points) || t == p.time {
      if t == p.time { assert p in all; }
      if t in TimesOf(points) {
        var q :| q in points && q.time == t;
        assert q in all;
      }
    }
    forall t ensures BucketAt(Bucketed(after, p), t) == PlusPoint(BucketAt(before, t), AtTime(all, t)) {
      assert BucketAt(after, t) == PlusPoint(BucketAt(before, t), AtTime(points, t));
    }
  }

  method AddServer(buckets0: map<int, TrafficPoint>, points: seq<MinutePoint>)
    returns (buckets: map<int, TrafficPoint>, total: real)
    requires forall t :: t in buckets0 ==> buckets0[t].time == t
    ensures Adds(buckets0, points, buckets)
    ensures total == TotalOf(points)
  {
    hide Adds;
    buckets, total := buckets0, 0.0;
    AddsNothing(buckets0);
    for k := 0 to |points|
      invariant Adds(buckets0, points[..k], buckets)
      invariant total == TotalOf(points[..k])
    {
      var p := points[k];
      assert Butlast(points[..k + 1]) == points[..k];
      assert points[..k + 1] == points[..k] + [p];
      AddsPoint(buckets0, points[..k], buckets, p);
      ghost var before := buckets;
      if p.time !in buckets {
        buckets := buckets[p.time := ZeroAt(p.time)];
      }
      var b := buckets[p.time];
      buckets := buckets[p.time := TrafficPoint(b.time, b.netIn + p.netIn, b.netOut + p.netOut)];
      assert buckets == Bucketed(before, p);
      total := total + (p.netIn + p.netOut);
    }
    assert points[..|points|] == points;
  }

  lemma AddsNothing(buckets: map<int, TrafficPoint>)
    ensures Adds(buckets, [], buckets)
  {}

  /** The buckets hold the traffic of exactly these servers. */
  ghost predicate Holds(buckets: map<int, TrafficPoint>, hist: History, sids: set<string>)
    requires sids <= hist.Keys
  {
    && buckets.Keys == TimesOfAll(hist, sids)
    && forall t :: BucketAt(buckets, t) == SumAt(hist, sids, t)
  }

  lemma HoldsMore(
      before: map<int, TrafficPoint>, hist: History, done: set<string>, sid: string, after: map<int, TrafficPoint>)
    requires done <= hist.Keys && sid in hist && sid !in done
    requires Holds(before, hist, done) && Adds(before, hist[sid], after)
    ensures Holds(after, hist, done + {sid})
  {
    assert done + {sid} - {sid} == done;
    forall t ensures BucketAt(after, t) == SumAt(hist, done + {sid}, t) {
      SumAtAnyOrder(hist, done + {sid}, t, sid);
    }
    forall t ensures t in TimesOfAll(hist, done + {sid}) <==> t in TimesOfAll(hist, done) || t in TimesOf(hist[sid]) {
      if t in TimesOfAll(hist, done + {sid}) {
        var u, p :| u in done + {sid} && p in hist[u] && p.time == t;
      }
    }
  }

  lemma HeldTimes(buckets: map<int, TrafficPoint>, hist: History, sids: set<string>)
    requires sids <= hist.Keys && Holds(buckets, hist, sids)
    ensures forall t :: t in buckets ==> buckets[t].time == t && buckets[t] == SumAt(hist, sids, t)
  {
    forall t | t in buckets ensures buckets[t].time == t && buckets[t] == SumAt(hist, sids, t) {
      assert BucketAt(buckets, t) == SumAt(hist, sids, t);
    }
  }

  /** Each of these servers that has points has its total. */
  ghost predicate Totals(perServer: map<string, real>, hist: History, sids: set<string>)
    requires sids <= hist.Keys
  {
    && (forall u :: u in perServer <==> u in sids && hist[u] != [])
    && forall u :: u in perServer ==> perServer[u] == TotalOf(hist[u])
  }

  function WithTotal(
      perServer: map<string, real>, sid: string, points: seq<MinutePoint>, total: real): map<string, real>
  {
    if points == [] then perServer else perServer[sid := total]
  }

  lemma TotalsMore(perServer: map<string, real>, hist: History, done: set<string>, sid: string)
    requires done <= hist.Keys && sid in hist && Totals(perServer, hist, done)
    ensures Totals(WithTotal(perServer, sid, hist[sid], TotalOf(hist[sid])), hist, done + {sid})
  {}

  method BucketTraffic(hist: History) returns (buckets: map<int, TrafficPoint>, perServer: map<string, real>)
    ensures Holds(buckets, hist, hist.Keys)
    ensures Totals(perServer, hist, hist.Keys)
  {
    buckets, perServer := map[], map[];
    var todo := hist.Keys;
    assert Holds(buckets, hist, {}) && Totals(perServer, hist, {});
    hide Holds, Adds, Totals, TotalOf, SumAt, AtTime, TimesOfAll;
    assert hist.Keys - todo == {};
    while todo != {}
      invariant todo <= hist.Keys
      invariant Holds(buckets, hist, hist.Keys - todo)
      invariant Totals(perServer, hist, hist.Keys - todo)
      decreases |todo|
    {
      var sid :| sid in todo;
      ghost var before, done := buckets, hist.Keys - todo;
      HeldTimes(before, hist, done);
      var total;
      buckets, total := AddServer(buckets, hist[sid]);
      HoldsMore(before, hist, done, sid, buckets);
      TotalsMore(perServer, hist, done, sid);
      perServer := WithTotal(perServer, sid, hist[sid], total);
      todo := todo - {sid};
      assert hist.Keys - todo == done + {sid};
    }
    assert hist.Keys - {} == hist.Keys;
  }

  function TimeKey(p: TrafficPoint): real { p.time as real }

  method CollectBuckets(buckets: map<int, TrafficPoint>) returns (points: seq<TrafficPoint>)
    requires forall t :: t in buckets ==> buckets[t].time == t
    ensures forall p :: p in points <==> p.time in buckets && buckets[p.time] == p
    ensures forall i, j :: 0 <= i < j < |points| ==> points[i].time != points[j].time
  {
    points := [];
    var todo := buckets.Keys;
    while todo != {}
      invariant todo <= buckets.Keys
      invariant forall p :: p in points <==> p.time in buckets && p.time !in todo && buckets[p.time] == p
      invariant forall i, j :: 0 <= i < j < |points| ==> points[i].time != points[j].time
      decreases |todo|
    {
      assert Greatest(todo) in todo;
      var t :| t in todo;
      assert forall p :: p in points + [buckets[t]] <==> p in points || p == buckets[t];
      assert forall i :: 0 <= i < |points| ==> points[i] in points;
      points := points + [buckets[t]];
      todo := todo - {t};
    }
  }

  method TrafficSeries(hist: History) returns (series: seq<TrafficPoint>, perServer: map<string, real>)
    ensures IsSeries(series, hist)
    ensures Totals(perServer, hist, hist.Keys)
  {
    var buckets;
    buckets, perServer := BucketTraffic(hist);
    HeldTimes(buckets, hist, hist.Keys);
    hide Holds, Totals, IsSeries, SumAt, WithKey;
    var points := CollectBuckets(buckets);
    var a := new TrafficPoint[|points|](i requires 0 <= i < |points| => points[i]);
    assert a[..] == points;
    InsertionSort(a, TimeKey);
    series := a[..];
    SortedSeries(points, series);
    SeriesFromBuckets(buckets, series, hist);
  }

  lemma SeriesFromBuckets(buckets: map<int, TrafficPoint>, series: seq<TrafficPoint>, hist: History)
    requires Holds(buckets, hist, hist.Keys)
    requires forall p :: p in series <==> p.time in buckets && buckets[p.time] == p
    requires forall i, j :: 0 <= i < j < |series| ==> series[i].time < series[j].time
    ensures IsSeries(series, hist)
  {
    HeldTimes(buckets, hist, hist.Keys);
    assert buckets.Keys == TimesOfAll(hist, hist.Keys);
    hide Holds, SumAt, TimesOfAll;
    forall t ensures t in buckets <==> exists i :: 0 <= i < |series| && series[i].time == t {
      if t in buckets {
        assert buckets[t] in series;
      }
      if i :| 0 <= i < |series| && series[i].time == t {
        assert series[i] in series;
      }
    }
    assert forall i :: 0 <= i < |series| ==> series[i] in series;
  }

  /** Sorting by time points of distinct times makes them strictly ascending. */
  lemma SortedSeries(points: seq<TrafficPoint>, series: seq<TrafficPoint>)
    requires forall i, j :: 0 <= i < j < |points| ==> points[i].time != points[j].time
    requires SortedBy(series, TimeKey) && multiset(points) == multiset(series)
    ensures forall p :: p in series <==> p in points
    ensures forall i, j :: 0 <= i < j < |series| ==> series[i].time < series[j].time
  {
    PermutationHasNoRepeats(points, series);
    forall i, j | 0 <= i < j < |series| ensures series[i].time < series[j].time {
      assert series[i] in points && series[j] in points;
      var k :| 0 <= k < |points| && points[k] == series[i];
      var l :| 0 <= l < |points| && points[l] == series[j];
      assert series[i] != series[j];
      assert TimeKey(series[i]) <= TimeKey(series[j]);
    }
  }

  // ---- Conservation ----

  datatype Direction = In | Out

  /** One direction of a series point, and of a stored minute. */
  function Flow(p: TrafficPoint, d: Direction): real { if d.In? then p.netIn else p.netOut }

  function FlowOf(p: MinutePoint, d: Direction): real { if d.In? then p.netIn else p.netOut }

  function SumSeries(series: seq<TrafficPoint>, d: Direction): real {
    if series == [] then 0.0 else SumSeries(Butlast(series), d) + Flow(Last(series), d)
  }

  function FlowTotal(points: seq<MinutePoint>, d: Direction): real {
    if points == [] then 0.0 else FlowTotal(Butlast(points), d) + FlowOf(Last(points), d)
  }

  /** One direction of the traffic of a set of servers altogether. */
  ghost function TotalOfAll(hist: History, sids: set<string>, d: Direction): real
    requires sids <= hist.Keys
  {
    if sids == {} then 0.0
    else
      var u :| u in sids;
      TotalOfAll(hist, sids - {u}, d) + FlowTotal(hist[u], d)
  }

  /** A server's accumulated total is both its directions. */
  lemma {:induction false} TotalIsBothDirections(points: seq<MinutePoint>)
    ensures TotalOf(points) == FlowTotal(points, In) + FlowTotal(points, Out)
  {
    if points == [] {
    } else {
      TotalIsBothDirections(Butlast(points));
    }
  }

  ghost function SumAtTimes(hist: History, sids: set<string>, ts: seq<int>, d: Direction): real
    requires sids <= hist.Keys
  {
    if ts == [] then 0.0
    else SumAtTimes(hist, sids, Butlast(ts), d) + Flow(SumAt(hist, sids, Last(ts)), d)
  }

  ghost function ServerAtTimes(points: seq<MinutePoint>, ts: seq<int>, d: Direction): real {
    if ts == [] then 0.0
    else ServerAtTimes(points, Butlast(ts), d) + Flow(AtTime(points, Last(ts)), d)
  }

  lemma {:induction false} ServerAtTimesStep(points: seq<MinutePoint>, ts: seq<int>, d: Direction)
    requires points != [] && forall i, j :: 0 <= i < j < |ts| ==> ts[i] != ts[j]
    ensures ServerAtTimes(points, ts, d)
         == ServerAtTimes(Butlast(points), ts, d) + (if Last(points).time in ts then FlowOf(Last(points), d) else 0.0)
    decreases |ts|
  {
    if ts == [] {
    } else {
      ServerAtTimesStep(points, Butlast(ts), d);
      assert ts == Butlast(ts) + [Last(ts)];
      assert Last(ts) !in Butlast(ts);
    }
  }

  /** A server's points, summed time by time over times that cover them, are all its points. */
  lemma {:induction false} ServerAtAllTimes(points: seq<MinutePoint>, ts: seq<int>, d: Direction)
    requires forall i, j :: 0 <= i < j < |ts| ==> ts[i] != ts[j]
    requires forall p :: p in points ==> p.time in ts
    ensures ServerAtTimes(points, ts, d) == FlowTotal(points, d)
  {
    if points == [] {
      NoPoints(ts, d);
    } else {
      ServerAtTimesStep(points, ts, d);
      assert points == Butlast(points) + [Last(points)];
      ServerAtAllTimes(Butlast(points), ts, d);
    }
  }

  lemma {:induction false} NoPoints(ts: seq<int>, d: Direction)
    ensures ServerAtTimes([], ts, d) == 0.0
  {
    if ts == [] {
    } else {
      NoPoints(Butlast(ts), d);
    }
  }

  lemma {:induction false} SplitServer(hist: History, sids: set<string>, ts: seq<int>, u: string, d: Direction)
    requires sids <= hist.Keys && u in sids
    ensures SumAtTimes(hist, sids, ts, d) == SumAtTimes(hist, sids - {u}, ts, d) + ServerAtTimes(hist[u], ts, d)
    decreases |ts|
  {
    if ts == [] {
    } else {
      SplitServer(hist, sids, Butlast(ts), u, d);
      SumAtAnyOrder(hist, sids, Last(ts), u);
    }
  }

  lemma {:induction false} SumsExchange(hist: History, sids: set<string>, ts: seq<int>, d: Direction)
    requires sids <= hist.Keys
    requires forall i, j :: 0 <= i < j < |ts| ==> ts[i] != ts[j]
    requires forall u, p :: u in sids && p in hist[u] ==> p.time in ts
    ensures SumAtTimes(hist, sids, ts, d) == TotalOfAll(hist, sids, d)
    decreases |sids|
  {
    if sids == {} {
      NoServers(hist, ts, d);
    } else {
      var u :| u in sids && TotalOfAll(hist, sids, d) == TotalOfAll(hist, sids - {u}, d) + FlowTotal(hist[u], d);
      SumsExchange(hist, sids - {u}, ts, d);
      SplitServer(hist, sids, ts, u, d);
      ServerAtAllTimes(hist[u], ts, d);
    }
  }

  lemma {:induction false} NoServers(hist: History, ts: seq<int>, d: Direction)
    ensures SumAtTimes(hist, {}, ts, d) == 0.0
  {
    if ts == [] {
    } else {
      NoServers(hist, Butlast(ts), d);
    }
  }

  lemma {:induction false} SeriesIsSumAtTimes(series: seq<TrafficPoint>, hist: History, ts: seq<int>, d: Direction)
    requires |ts| == |series|
    requires forall i :: 0 <= i < |series| ==> series[i] == SumAt(hist, hist.Keys, ts[i])
    ensures SumSeries(series, d) == SumAtTimes(hist, hist.Keys, ts, d)
  {
    if series == [] {
    } else {
      SeriesIsSumAtTimes(Butlast(series), hist, Butlast(ts), d);
      assert Last(series) == SumAt(hist, hist.Keys, Last(ts));
    }
  }

  /** The values of a map added up, in whichever order. */
  ghost function SumValues(m: map<string, real>): real {
    if m == map[] then 0.0
    else
      var u :| u in m;
      SumValues(m - {u}) + m[u]
  }

  lemma {:induction false} SumValuesAnyOrder(m: map<string, real>, v: string)
    requires v in m
    ensures SumValues(m) == SumValues(m - {v}) + m[v]
    decreases |m|
  {
    var u :| u in m && SumValues(m) == SumValues(m - {u}) + m[u];
    if u != v {
      assert m - {v} - {u} == m - {u} - {v};
      SumValuesAnyOrder(m - {u}, v);
      SumValuesAnyOrder(m - {v}, u);
    }
  }

  lemma {:induction false} TotalAnyOrder(hist: History, sids: set<string>, d: Direction, v: string)
    requires sids <= hist.Keys && v in sids
    ensures TotalOfAll(hist, sids, d) == TotalOfAll(hist, sids - {v}, d) + FlowTotal(hist[v], d)
    decreases |sids|
  {
    var u :| u in sids && TotalOfAll(hist, sids, d) == TotalOfAll(hist, sids - {u}, d) + FlowTotal(hist[u], d);
    if u != v {
      assert sids - {v} - {u} == sids - {u} - {v};
      hide FlowTotal;
      TotalAnyOrder(hist, sids - {u}, d, v);
      TotalAnyOrder(hist, sids - {v}, d, u);
    }
  }

  lemma {:induction false} TotalsAddUp(perServer: map<string, real>, hist: History, sids: set<string>)
    requires sids <= hist.Keys && Totals(perServer, hist, sids)
    ensures SumValues(perServer) == TotalOfAll(hist, sids, In) + TotalOfAll(hist, sids, Out)
    decreases |sids|
  {
    if sids == {} {
      assert perServer == map[];
    } else {
      var u :| u in sids;
      TotalAnyOrder(hist, sids, In, u);
      TotalAnyOrder(hist, sids, Out, u);
      TotalIsBothDirections(hist[u]);
      TotalsAddUp(perServer - {u}, hist, sids - {u});
      if u in perServer {
        SumValuesAnyOrder(perServer, u);
      } else {
        assert perServer - {u} == perServer;
      }
    }
  }

  /** Conservation: in each direction the series adds up to every stored point, and both
      directions together to the accumulated totals of the servers. */
  lemma {:induction false} SeriesConservesTraffic(
      series: seq<TrafficPoint>, perServer: map<string, real>, hist: History)
    requires IsSeries(series, hist) && Totals(perServer, hist, hist.Keys)
    ensures forall d: Direction :: SumSeries(series, d) == TotalOfAll(hist, hist.Keys, d)
    ensures SumSeries(series, In) + SumSeries(series, Out) == SumValues(perServer)
  {
    hide Totals, IsSeries, SumSeries, TotalOfAll;
    forall d: Direction ensures SumSeries(series, d) == TotalOfAll(hist, hist.Keys, d) {
      SeriesConservesDirection(series, hist, d);
    }
    TotalsAddUp(perServer, hist, hist.Keys);
  }

  lemma SeriesConservesDirection(series: seq<TrafficPoint>, hist: History, d: Direction)
    requires IsSeries(series, hist)
    ensures SumSeries(series, d) == TotalOfAll(hist, hist.Keys, d)
  {
    var ts := seq(|series|, i requires 0 <= i < |series| => series[i].time);
    SeriesIsSumAtTimes(series, hist, ts, d);
    forall u, p | u in hist.Keys && p in hist[u] ensures p.time in ts {
      assert p.time in TimesOfAll(hist, hist.Keys);
      var i :| 0 <= i < |series| && series[i].time == p.time;
      assert ts[i] == p.time;
    }
    SumsExchange(hist, hist.Keys, ts, d);
  }
}
