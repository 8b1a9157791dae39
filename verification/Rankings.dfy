/** The dashboard's three rankings: one item per server, collected in the map's order and
    sorted by value, greatest first. */
module Rankings {
  import opened Records
  import opened Seqs
  import opened MinuteTable
  import opened StableSort
  import opened Dashboard
  import opened Arithmetic
  import opened GoSlices

  datatype RankItem = RankItem(uuid: string, value: real, peak: real)

  // ---- Averages and peaks ----

  function Sum(vals: seq<real>): real {
    if vals == [] then 0.0 else Sum(Butlast(vals)) + Last(vals)
  }

  function Mean(vals: seq<real>): real { if vals == [] then 0.0 else Sum(vals) / |vals| as real }

  /** The greatest value, but never below zero. */
  function Peak(vals: seq<real>): real {
    if vals == [] then 0.0 else if Last(vals) > Peak(Butlast(vals)) then Last(vals) else Peak(Butlast(vals))
  }

  method AvgOf(vals: seq<real>) returns (avg: real)
    ensures avg == Mean(vals)
  {
    if |vals| == 0 { return 0.0; }
    var s := 0.0;
    for i := 0 to |vals|
      invariant s == Sum(vals[..i])
    {
      assert Butlast(vals[..i + 1]) == vals[..i];
      s := s + vals[i];
    }
    assert vals[..|vals|] == vals;
    return s / |vals| as real;
  }

  method PeakOf(vals: seq<real>) returns (peak: real)
    ensures peak == Peak(vals)
  {
    peak := 0.0;
    for i := 0 to |vals|
      invariant peak == Peak(vals[..i])
    {
      assert Butlast(vals[..i + 1]) == vals[..i];
      if vals[i] > peak { peak := vals[i]; }
    }
    assert vals[..|vals|] == vals;
  }

  lemma {:induction false} PeakIsBound(vals: seq<real>)
    ensures Peak(vals) >= 0.0 && forall v :: v in vals ==> v <= Peak(vals)
    ensures Peak(vals) == 0.0 || Peak(vals) in vals
  {
    if vals == [] {
    } else {
      PeakIsBound(Butlast(vals));
      assert vals == Butlast(vals) + [Last(vals)];
    }
  }

  lemma {:induction false} SumBounds(vals: seq<real>, hi: real)
    requires forall v :: v in vals ==> 0.0 <= v <= hi
    ensures 0.0 <= Sum(vals) <= hi * |vals| as real
  {
    if vals == [] {
    } else {
      assert forall v :: v in Butlast(vals) ==> v in vals;
      SumBounds(Butlast(vals), hi);
      TimesOneMore(hi, |Butlast(vals)|);
      assert Last(vals) in vals;
    }
  }

  /** Percentages rank as percentages: 0 <= value <= peak <= 100. */
  lemma {:induction false} MeanWithinPeak(vals: seq<real>, hi: real)
    requires hi >= 0.0 && forall v :: v in vals ==> 0.0 <= v <= hi
    ensures 0.0 <= Mean(vals) <= Peak(vals) <= hi
  {
    PeakIsBound(vals);
    if vals != [] {
      SumBounds(vals, Peak(vals));
      QuotientBounds(Sum(vals), 0.0, Peak(vals), |vals| as real);
    }
  }

  /** A sum adds up, from the values themselves. */
  lemma {:induction false} SumConcat(a: seq<real>, b: seq<real>)
    ensures Sum(a + b) == Sum(a) + Sum(b) && (|a| == 1 ==> Sum(a) == a[0])
  {
    if |a| == 1 { assert Butlast(a) == []; }
    if b == [] {
      assert a + b == a;
    } else {
      SumConcat(a, Butlast(b));
      assert Butlast(a + b) == a + Butlast(b) && Last(a + b) == Last(b);
    }
  }

  // ---- Items ----

  function Values(points: seq<MinutePoint>, metric: MinutePoint -> real): seq<real> {
    seq(|points|, i requires 0 <= i < |points| => metric(points[i]))
  }

  function LoadItem(u: string, points: seq<MinutePoint>, metric: MinutePoint -> real): RankItem {
    RankItem(u, Mean(Values(points, metric)), Peak(Values(points, metric)))
  }

  function Traffic(p: MinutePoint): real { p.netIn + p.netOut }

  function TrafficItem(u: string, points: seq<MinutePoint>): RankItem {
    RankItem(u, TotalOf(points), Peak(Values(points, Traffic)))
  }

  ghost function LoadItems(hist: History, metric: MinutePoint -> real): map<string, RankItem> {
    map u | u in hist && hist[u] != [] :: LoadItem(u, hist[u], metric)
  }

  ghost function TrafficItems(hist: History): map<string, RankItem> {
    map u | u in hist && hist[u] != [] :: TrafficItem(u, hist[u])
  }

  /** The value of a load item times the number of points is the sum of the metric over them, and
      its peak is the greatest metric, or zero if there is none above. */
  lemma {:induction false} LoadItemIsMean(u: string, points: seq<MinutePoint>, metric: MinutePoint -> real)
    requires points != []
    ensures var x := LoadItem(u, points, metric);
            x.uuid == u && x.value * |points| as real == Sum(Values(points, metric))
            && (forall p :: p in points ==> metric(p) <= x.peak)
            && (x.peak == 0.0 || exists p :: p in points && metric(p) == x.peak) && x.peak >= 0.0
  {
    var vals := Values(points, metric);
    PeakIsBound(vals);
    PeakOfPoints(points, metric);
    QuotientTimes(Sum(vals), |points| as real);
    hide Sum, Peak;
  }

  lemma QuotientTimes(x: real, n: real)
    requires n > 0.0
    ensures x / n * n == x
  {}

  lemma PeakOfPoints(points: seq<MinutePoint>, metric: MinutePoint -> real)
    ensures var peak := Peak(Values(points, metric));
            (forall p :: p in points ==> metric(p) <= peak)
            && (peak == 0.0 || exists p :: p in points && metric(p) == peak)
  {
    var vals := Values(points, metric);
    PeakIsBound(vals);
    hide Peak;
    forall p | p in points ensures metric(p) <= Peak(vals) {
      var i :| 0 <= i < |points| && points[i] == p;
      assert vals[i] == metric(p) && vals[i] in vals;
    }
    if Peak(vals) in vals {
      var i :| 0 <= i < |vals| && vals[i] == Peak(vals);
      assert points[i] in points && metric(points[i]) == Peak(vals);
    }
  }

  /** The value of a traffic item is what came in and went out altogether, and its peak the greatest
      in plus out of a minute. */
  lemma {:induction false} TrafficItemIsTotal(u: string, points: seq<MinutePoint>)
    ensures var x := TrafficItem(u, points);
            x.uuid == u && x.value == FlowTotal(points, In) + FlowTotal(points, Out)
            && (forall p :: p in points ==> p.netIn + p.netOut <= x.peak)
            && (x.peak == 0.0 || exists p :: p in points && p.netIn + p.netOut == x.peak) && x.peak >= 0.0
  {
    TotalIsBothDirections(points);
    PeakIsBound(Values(points, Traffic));
    PeakOfPoints(points, Traffic);
    hide Peak, FlowTotal, TotalOf, Values;
  }

  // ---- Rankings ----

  function Descending(x: RankItem): real { -x.value }

  ghost predicate ByValue(r: seq<RankItem>) { forall i, j :: 0 <= i < j < |r| ==> r[i].value >= r[j].value }

  ghost predicate DistinctServers(r: seq<RankItem>) { forall i, j :: 0 <= i < j < |r| ==> r[i].uuid != r[j].uuid }

  ghost predicate Lists(r: seq<RankItem>, items: map<string, RankItem>) {
    forall x :: x in r <==> x.uuid in items && items[x.uuid] == x
  }

  /** Every item once, greatest value first; items of equal value in any order. */
  ghost predicate IsRank(r: seq<RankItem>, items: map<string, RankItem>) {
    ByValue(r) && DistinctServers(r) && Lists(r, items)
  }

  /** sortRank: it sorts the shared elements; its cut to five shortens its own copy of the slice,
      which nobody reads any more, so the caller keeps every item. */
  method SortRank(items: Slice<RankItem>)
    requires items.from == 0 && items.len == items.elems.Length
    modifies items.elems
    ensures SortedBy(items.View(), Descending)
    ensures Rearranges(old(items.View()), items.View(), Descending)
  {
    var own := items;
    assert own.View() == own.elems[..];
    InsertionSort(own.elems, Descending);
    assert own.View() == own.elems[..];
    if own.len > 5 {
      own := own.(len := 5);
    }
  }

  /** The caller's use of it: a fresh slice, sorted, and then read as the caller still sees it. */
  method Ranked(collected: seq<RankItem>) returns (r: seq<RankItem>)
    ensures SortedBy(r, Descending) && Rearranges(collected, r, Descending)
  {
    var a := new RankItem[|collected|](i requires 0 <= i < |collected| => collected[i]);
    assert a[..] == collected;
    var slice := Slice(a, 0, a.Length);
    assert slice.View() == collected;
    SortRank(slice);
    r := slice.View();
  }

  /** Collected in map order, then sorted. */
  method Rank(items: map<string, RankItem>) returns (r: seq<RankItem>)
    requires forall u :: u in items ==> items[u].uuid == u
    ensures IsRank(r, items)
  {
    var collected: seq<RankItem> := [];
    var todo := items.Keys;
    while todo != {}
      invariant todo <= items.Keys
      invariant forall x: RankItem :: x in collected <==> x.uuid in items && x.uuid !in todo && items[x.uuid] == x
      invariant NoRepeats(collected)
      decreases |todo|
    {
      var u :| u in todo;
      assert forall x: RankItem :: x in collected + [items[u]] <==> x in collected || x == items[u];
      assert items[u] !in collected;
      collected := collected + [items[u]];
      todo := todo - {u};
    }
    r := Ranked(collected);
    SortedIsRank(collected, r, items);
  }

  lemma SortedIsRank(collected: seq<RankItem>, r: seq<RankItem>, items: map<string, RankItem>)
    requires forall x: RankItem :: x in collected <==> x.uuid in items && items[x.uuid] == x
    requires NoRepeats(collected)
    requires SortedBy(r, Descending) && multiset(r) == multiset(collected)
    ensures IsRank(r, items)
  {
    PermutationHasNoRepeats(collected, r);
    forall i, j | 0 <= i < j < |r| ensures r[i].value >= r[j].value && r[i].uuid != r[j].uuid {
      assert Descending(r[i]) <= Descending(r[j]);
      assert r[i] in collected && r[j] in collected && r[i] != r[j];
    }
  }

  /** The CPU and memory rankings: means and peaks of a percentage. */
  method LoadRank(hist: History, metric: MinutePoint -> real) returns (r: seq<RankItem>)
    ensures IsRank(r, LoadItems(hist, metric))
  {
    var items: map<string, RankItem> := map[];
    var todo := hist.Keys;
    while todo != {}
      invariant todo <= hist.Keys
      invariant items == map u | u in hist && u !in todo && hist[u] != [] :: LoadItem(u, hist[u], metric)
      decreases |todo|
    {
      hide Mean, Peak, Values;
      var sid :| sid in todo;
      var points := hist[sid];
      if points != [] {
        var vals := Values(points, metric);
        var peak := PeakOf(vals);
        var avg := AvgOf(vals);
        items := items[sid := RankItem(sid, avg, peak)];
      }
      todo := todo - {sid};
    }
    r := Rank(items);
  }

  /** The traffic ranking, from the totals the series loop accumulated. */
  method TrafficRank(hist: History, perServer: map<string, real>) returns (r: seq<RankItem>)
    requires Totals(perServer, hist, hist.Keys)
    ensures IsRank(r, TrafficItems(hist))
  {
    var items: map<string, RankItem> := map[];
    var todo := perServer.Keys;
    while todo != {}
      invariant todo <= perServer.Keys
      invariant items == map u | u in perServer && u !in todo :: TrafficItem(u, hist[u])
      decreases |todo|
    {
      hide Peak, Values, TotalOf;
      var sid :| sid in todo;
      var vals := Values(hist[sid], Traffic);
      var peak := PeakOf(vals);
      items := items[sid := RankItem(sid, perServer[sid], peak)];
      todo := todo - {sid};
    }
    assert items == TrafficItems(hist);
    r := Rank(items);
  }

  // ---- Properties of a ranking ----

  /** The first five are the top five: no server outside them has a greater value. */
  lemma {:induction false} PrefixIsTopFive(r: seq<RankItem>, items: map<string, RankItem>, u: string)
    requires IsRank(r, items) && u in items && items[u].uuid == u
    requires forall i :: 0 <= i < 5 && i < |r| ==> r[i].uuid != u
    ensures |r| > 5 && forall i :: 0 <= i < 5 ==> r[i].value >= items[u].value
  {
    assert items[u] in r;
    var k :| 0 <= k < |r| && r[k] == items[u];
  }

  lemma ItemIsRanked(r: seq<RankItem>, items: map<string, RankItem>, u: string)
    requires IsRank(r, items) && u in items && items[u].uuid == u
    ensures items[u] in r
  {}

  lemma RankedIsItem(r: seq<RankItem>, items: map<string, RankItem>, i: nat)
    requires IsRank(r, items) && i < |r|
    ensures r[i].uuid in items && items[r[i].uuid] == r[i]
  {
    assert r[i] in r;
  }

  function Without<T>(r: seq<T>, k: nat): seq<T>
    requires k < |r|
  {
    r[..k] + r[k + 1..]
  }

  lemma WithoutAt<T>(r: seq<T>, k: nat, i: nat)
    requires k < |r| && i < |r| - 1
    ensures |Without(r, k)| == |r| - 1 && Without(r, k)[i] == r[if i < k then i else i + 1]
  {}

  lemma WithoutMembers(r: seq<RankItem>, k: nat, y: RankItem)
    requires k < |r| && DistinctServers(r)
    ensures y in Without(r, k) <==> y in r && y != r[k]
  {
    var r' := Without(r, k);
    if y in r && y != r[k] {
      var i :| 0 <= i < |r| && r[i] == y;
      assert r'[if i < k then i else i - 1] == y;
    }
    if y in r' {
      var i :| 0 <= i < |r'| && r'[i] == y;
      assert r[if i < k then i else i + 1] == y;
    }
  }

  lemma WithoutKeepsOrder(r: seq<RankItem>, k: nat)
    requires k < |r| && ByValue(r) && DistinctServers(r)
    ensures ByValue(Without(r, k)) && DistinctServers(Without(r, k))
  {
    var r' := Without(r, k);
    hide Without;
    forall i: nat, j: nat | i < j < |r'| ensures r'[i].value >= r'[j].value && r'[i].uuid != r'[j].uuid {
      WithoutAt(r, k, i);
      WithoutAt(r, k, j);
    }
  }

  /** Taking one item out of a ranking leaves the ranking of the others. */
  lemma WithoutIsRank(r: seq<RankItem>, items: map<string, RankItem>, k: nat)
    requires IsRank(r, items) && k < |r|
    ensures IsRank(Without(r, k), items - {r[k].uuid})
    ensures |items - {r[k].uuid}| == |items| - 1
  {
    RankedIsItem(r, items, k);
    WithoutKeepsOrder(r, k);
    hide ByValue;
    var x, r', rest := r[k], Without(r, k), items - {r[k].uuid};
    assert items.Keys == rest.Keys + {x.uuid};
    assert |rest.Keys| == |rest| && |items.Keys| == |items|;
    forall y: RankItem ensures y in r' <==> y.uuid in rest && rest[y.uuid] == y {
      WithoutMembers(r, k, y);
      if y in r && y.uuid == x.uuid { assert items[y.uuid] == y; }
    }
    hide Without, DistinctServers;
  }

  /** But the ranking is not cut: it has one entry per item, so more than five exactly when
      more than five servers have points. */
  lemma {:induction false} RankIsNotCut(r: seq<RankItem>, items: map<string, RankItem>)
    requires IsRank(r, items) && forall u :: u in items ==> items[u].uuid == u
    ensures |r| == |items|
    decreases |r|
  {
    if r == [] {
      forall u ensures u !in items {
        if u in items { ItemIsRanked(r, items, u); }
      }
      assert items.Keys == {};
    } else {
      WithoutIsRank(r, items, |r| - 1);
      hide IsRank;
      RankIsNotCut(Without(r, |r| - 1), items - {r[|r| - 1].uuid});
    }
  }

  /** Servers with at least one point in the window. */
  ghost function WithPoints(hist: History): set<string> { set u | u in hist && hist[u] != [] }

  /** A ranking keeps to the five it is meant to show exactly when no more servers have points. */
  lemma {:induction false} RankIsShortIff(r: seq<RankItem>, hist: History, metric: MinutePoint -> real)
    requires IsRank(r, LoadItems(hist, metric))
    ensures |r| == |WithPoints(hist)|
    ensures |r| <= 5 <==> |WithPoints(hist)| <= 5
  {
    hide IsRank;
    RankIsNotCut(r, LoadItems(hist, metric));
    assert LoadItems(hist, metric).Keys == WithPoints(hist);
  }

  const SIX := {"a", "b", "c", "d", "e", "f"}

  lemma SixIsSix()
    ensures |SIX| == 6
  {
    assert |SIX - {"a"}| == 5 && |SIX - {"a", "b"}| == 4 && |SIX - {"a", "b", "c"}| == 3;
  }

  /** Six servers with one point each are all ranked. */
  lemma {:induction false} SixAreRanked(r: seq<RankItem>, p: MinutePoint, metric: MinutePoint -> real)
    requires IsRank(r, LoadItems(map u | u in SIX :: [p], metric))
    ensures |r| == 6
  {
    var hist: History := map u | u in SIX :: [p];
    hide IsRank, LoadItems;
    RankIsShortIff(r, hist, metric);
    assert WithPoints(hist) == SIX;
    SixIsSix();
  }

  /** Behind an item that ranks last somewhere, all values are its value. */
  lemma LastValueFromThere(r: seq<RankItem>, s: seq<RankItem>, items: map<string, RankItem>, k: nat, i: nat)
    requires IsRank(r, items) && IsRank(s, items) && r != []
    requires k <= i < |s| && s[k] == Last(r)
    ensures s[i].value == Last(r).value
  {
    RankedIsItem(s, items, i);
    assert s[i] in r;
    var j :| 0 <= j < |r| && r[j] == s[i];
    assert r[j].value >= r[|r| - 1].value;
  }

  /** The map's order can only show among items of equal value: position by position two
      rankings of the same items have the same value. */
  lemma {:induction false} RankValuesUnique(r: seq<RankItem>, s: seq<RankItem>, items: map<string, RankItem>, i: nat)
    requires IsRank(r, items) && IsRank(s, items) && forall u :: u in items ==> items[u].uuid == u
    requires i < |r|
    ensures |r| == |s| && r[i].value == s[i].value
    decreases |r|
  {
    hide ByValue, DistinctServers, Lists, Without;
    RankIsNotCut(r, items);
    RankIsNotCut(s, items);
    var n := |r| - 1;
    var k := PositionOf(s, items, r, n);
    if i >= k { LastValueFromThere(r, s, items, k, i); }
    if i < n {
      if i + 1 > k { LastValueFromThere(r, s, items, k, i + 1); }
      WithoutIsRank(r, items, n);
      WithoutIsRank(s, items, k);
      WithoutAt(r, n, i);
      WithoutAt(s, k, i);
      hide IsRank, Without;
      RankValuesUnique(Without(r, n), Without(s, k), items - {r[n].uuid}, i);
    }
  }

  lemma PositionOf(s: seq<RankItem>, items: map<string, RankItem>, r: seq<RankItem>, n: nat) returns (k: nat)
    requires IsRank(r, items) && IsRank(s, items) && n < |r|
    ensures k < |s| && s[k] == r[n]
  {
    RankedIsItem(r, items, n);
    assert r[n] in s;
    k :| k < |s| && s[k] == r[n];
  }
}
