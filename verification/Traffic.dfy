/** Monthly traffic accounting: a base taken from cumulative counters, a clamped difference
    in 64-bit arithmetic, and the sum of per-report deltas it has to equal. */
module Traffic {
  import opened GoNumbers
  import opened Records
  import opened Seqs

  // ---- The code's arithmetic ----

  /** monthlyTrafficUsed, each operation in int64. */
  function Used(row: ServerRow, totalIn: uint64, totalOut: uint64): int64 {
    var total := Add64(Int64(totalIn), Int64(totalOut));
    var sum := Sub64(Sub64(total, Int64(row.monthlyBaseIn)), Int64(row.monthlyBaseOut));
    var used := if sum < 0 then 0 else sum;
    var used' := if row.trafficType == "up" then Sub64(Int64(totalOut), Int64(row.monthlyBaseOut))
                 else if row.trafficType == "down" then Sub64(Int64(totalIn), Int64(row.monthlyBaseIn))
                 else used;
    if used' < 0 then 0 else used'
  }

  /** The update statement of MonthlyTrafficRecord. */
  function Rebase(row: ServerRow, month: int, totalIn: uint64, totalOut: uint64): ServerRow {
    row.(monthlyBaseIn := totalIn, monthlyBaseOut := totalOut, monthlyReset := Some(month))
  }

  /** MonthlyTrafficRecord on one row: a new month, or the first record, moves the base. */
  function Refresh(row: ServerRow, month: int, totalIn: uint64, totalOut: uint64): ServerRow {
    if row.monthlyReset == Some(month) then row else Rebase(row, month, totalIn, totalOut)
  }

  /** Remaining quota as all three listings compute it. */
  function Remaining(limit: int64, used: int64): int64
    requires used >= 0
  {
    if limit > 0 then if limit - used < 0 then 0 else limit - used else -1
  }

  // ---- What is metered, exactly ----

  function Metered(kind: string, totalIn: int, totalOut: int): int {
    if kind == "up" then totalOut else if kind == "down" then totalIn else totalIn + totalOut
  }

  function Base(row: ServerRow): int { Metered(row.trafficType, row.monthlyBaseIn, row.monthlyBaseOut) }

  function Clamp(x: int): int { if x < 0 then 0 else x }

  lemma WrapSub(x: int, y: int)
    ensures Sub64(Int64(x), Int64(y)) == Int64(x - y)
  {
    WrapCongruent(x, y);
    Int64Congruent(Int64(x) - Int64(y), x - y);
  }

  lemma WrapCongruent(x: int, y: int)
    ensures ((Int64(x) - Int64(y)) - (x - y)) % TWO_64 == 0
    ensures ((Int64(x) + Int64(y)) - (x + y)) % TWO_64 == 0
  {
    var j, k := (x - Int64(x)) / TWO_64, (y - Int64(y)) / TWO_64;
    assert x == Int64(x) + j * TWO_64 && y == Int64(y) + k * TWO_64;
    assert (Int64(x) - Int64(y)) - (x - y) == (k - j) * TWO_64;
    assert (Int64(x) + Int64(y)) - (x + y) == (-k - j) * TWO_64;
  }

  lemma WrapAdd(x: int, y: int)
    ensures Add64(Int64(x), Int64(y)) == Int64(x + y)
  {
    WrapCongruent(x, y);
    Int64Congruent(Int64(x) + Int64(y), x + y);
  }

  lemma WrapSum(totalIn: int, totalOut: int, baseIn: int, baseOut: int)
    ensures Sub64(Sub64(Add64(Int64(totalIn), Int64(totalOut)), Int64(baseIn)), Int64(baseOut))
         == Int64(totalIn + totalOut - (baseIn + baseOut))
  {
    hide Int64;
    WrapAdd(totalIn, totalOut);
    WrapSub(totalIn + totalOut, baseIn);
    WrapSub(totalIn + totalOut - baseIn, baseOut);
    assert totalIn + totalOut - baseIn - baseOut == totalIn + totalOut - (baseIn + baseOut);
  }

  /** The usage shown is what was sent ("up"), received ("down") or both (any other kind) since the
      base, wrapped to 64 bits and not below zero. */
  lemma {:induction false} UsedIsClampedWrap(row: ServerRow, totalIn: uint64, totalOut: uint64)
    ensures var sent, received := totalOut - row.monthlyBaseOut, totalIn - row.monthlyBaseIn;
            var w := Int64(if row.trafficType == "up" then sent
                           else if row.trafficType == "down" then received else received + sent);
            Used(row, totalIn, totalOut) == if w < 0 then 0 else w
    ensures Used(row, totalIn, totalOut)
         == Clamp(Int64(Metered(row.trafficType, totalIn, totalOut) - Base(row)))
  {
    hide Int64, Add64, Sub64;
    WrapSub(totalOut, row.monthlyBaseOut);
    WrapSub(totalIn, row.monthlyBaseIn);
    WrapSum(totalIn, totalOut, row.monthlyBaseIn, row.monthlyBaseOut);
    assert totalIn + totalOut - (row.monthlyBaseIn + row.monthlyBaseOut)
        == (totalIn - row.monthlyBaseIn) + (totalOut - row.monthlyBaseOut);
  }

  lemma ClampWrapIff(d: int)
    ensures Clamp(Int64(d)) == Clamp(d) <==> d < TWO_63 && (d >= -TWO_63 || Int64(d) <= 0)
  {
    Int64Exact(d);
    hide Int64;
  }

  lemma WrapsToNothing(d: int)
    requires -2 * TWO_64 < d < -TWO_63
    ensures Int64(d) <= 0 <==> -TWO_64 - TWO_63 <= d <= -TWO_64
  {
    var shift := if d < -TWO_64 - TWO_63 then 2 * TWO_64 else TWO_64;
    Int64Congruent(d, d + shift);
    Int64Exact(d + shift);
  }

  /** The totals and bases are below 2^64 each, so what is metered differs from its base by less
      than 2^65 and can wrap twice. The 64-bit result is the exact clamped difference if and only
      if the difference fits in int64, or is negative and wraps to nothing above zero. */
  lemma {:induction false} UsedExactIff(row: ServerRow, totalIn: uint64, totalOut: uint64)
    ensures var d := Metered(row.trafficType, totalIn, totalOut) - Base(row);
            Used(row, totalIn, totalOut) == Clamp(d)
            <==> -TWO_63 <= d < TWO_63 || -TWO_64 - TWO_63 <= d <= -TWO_64
  {
    var d := Metered(row.trafficType, totalIn, totalOut) - Base(row);
    UsedIsClampedWrap(row, totalIn, totalOut);
    ClampWrapIff(d);
    assert -2 * TWO_64 < d < 2 * TWO_64;
    hide Int64, Used, Metered, Base, Clamp;
    if d < -TWO_63 { WrapsToNothing(d); }
  }

  // ---- Runs of reports of one server ----

  /** The counters of one report and the month it was recorded in. */
  datatype Meter = Meter(month: int, totalIn: uint64, totalOut: uint64)

  function RowAfter(row0: ServerRow, rs: seq<Meter>): ServerRow {
    if rs == [] then row0
    else Refresh(RowAfter(row0, Butlast(rs)), Last(rs).month, Last(rs).totalIn, Last(rs).totalOut)
  }

  /** What the listings show once the last report of rs is completely processed. */
  function UsedAfter(row0: ServerRow, rs: seq<Meter>): int64
    requires rs != []
  {
    Used(RowAfter(row0, rs), Last(rs).totalIn, Last(rs).totalOut)
  }

  function MeterOf(kind: string, m: Meter): int { Metered(kind, m.totalIn, m.totalOut) }

  /** The index of the first report of the last stretch of equal months. */
  function MonthStart(rs: seq<Meter>): (k: nat)
    requires rs != []
    ensures k < |rs|
    ensures forall i :: k <= i < |rs| ==> rs[i].month == Last(rs).month
    ensures k > 0 ==> rs[k - 1].month != Last(rs).month
  {
    if |rs| == 1 || Butlast(rs)[|rs| - 2].month != Last(rs).month then |rs| - 1 else MonthStart(Butlast(rs))
  }

  ghost predicate MonthsAdvance(rs: seq<Meter>) {
    forall i, j :: 0 <= i < j < |rs| ==> rs[i].month <= rs[j].month
  }

  ghost predicate CountersGrow(rs: seq<Meter>) {
    forall i, j :: 0 <= i < j < |rs| ==> rs[i].totalIn <= rs[j].totalIn && rs[i].totalOut <= rs[j].totalOut
  }

  /** The base after any run is the totals of the first report of the current month, unless
      that month was already running when the run began. */
  lemma {:induction false} BaseIsMonthStart(row0: ServerRow, rs: seq<Meter>)
    requires rs != []
    ensures var row, k := RowAfter(row0, rs), MonthStart(rs);
            row.monthlyReset == Some(Last(rs).month)
            && row == row0.(monthlyBaseIn := row.monthlyBaseIn, monthlyBaseOut := row.monthlyBaseOut,
                            monthlyReset := row.monthlyReset)
            && (if k == 0 && row0.monthlyReset == Some(Last(rs).month)
                then row.monthlyBaseIn == row0.monthlyBaseIn && row.monthlyBaseOut == row0.monthlyBaseOut
                else row.monthlyBaseIn == rs[k].totalIn && row.monthlyBaseOut == rs[k].totalOut)
  {
    if |rs| > 1 {
      BaseIsMonthStart(row0, Butlast(rs));
      assert Last(Butlast(rs)) == rs[|rs| - 2];
    } else {
      assert Butlast(rs) == [];
    }
  }

  /** With months that only advance, that stretch is every report of the current month. */
  lemma MonthStartSplitsMonths(rs: seq<Meter>)
    requires rs != [] && MonthsAdvance(rs)
    ensures forall i :: 0 <= i < |rs| ==> (rs[i].month == Last(rs).month <==> MonthStart(rs) <= i)
  {}

  // ---- A month that is already running ----

  /** The counters the usage is measured from and over: if the month of the first report was
      already running, the base it has stands for an earlier report. */
  function Billed(row0: ServerRow, rs: seq<Meter>): seq<Meter> {
    if rs != [] && row0.monthlyReset == Some(rs[0].month)
    then [Meter(rs[0].month, row0.monthlyBaseIn, row0.monthlyBaseOut)] + rs
    else rs
  }

  /** A row that has recorded no month yet. */
  function Unbilled(row0: ServerRow): ServerRow { row0.(monthlyReset := None) }

  lemma {:induction false} BilledFromUnbilled(row0: ServerRow, rs: seq<Meter>)
    requires rs != []
    ensures RowAfter(row0, rs) == RowAfter(Unbilled(row0), Billed(row0, rs))
    ensures UsedAfter(row0, rs) == UsedAfter(Unbilled(row0), Billed(row0, rs))
  {
    hide Used;
    var b := Billed(row0, rs);
    assert RowAfter(row0, []) == row0 && RowAfter(Unbilled(row0), []) == Unbilled(row0);
    if |rs| == 1 {
      assert Butlast(rs) == [] && Butlast(b) == b[..|b| - 1];
      assert |b| == 2 ==> Butlast(b) == [b[0]] && Butlast([b[0]]) == [];
    } else {
      BilledFromUnbilled(row0, Butlast(rs));
      assert Butlast(b) == Billed(row0, Butlast(rs));
    }
  }

  // ---- Gains and drops of the counters ----

  function Gain(kind: string, a: Meter, b: Meter): nat {
    var gainIn, gainOut := Clamp(b.totalIn - a.totalIn), Clamp(b.totalOut - a.totalOut);
    Metered(kind, gainIn, gainOut)
  }

  function Drop(kind: string, a: Meter, b: Meter): nat { Gain(kind, b, a) }

  function GainSum(kind: string, rs: seq<Meter>): nat {
    if |rs| < 2 then 0 else GainSum(kind, Butlast(rs)) + Gain(kind, rs[|rs| - 2], Last(rs))
  }

  function DropSum(kind: string, rs: seq<Meter>): nat {
    if |rs| < 2 then 0 else DropSum(kind, Butlast(rs)) + Drop(kind, rs[|rs| - 2], Last(rs))
  }

  lemma {:induction false} Telescope(kind: string, rs: seq<Meter>)
    requires rs != []
    ensures MeterOf(kind, Last(rs)) - MeterOf(kind, rs[0]) == GainSum(kind, rs) - DropSum(kind, rs)
  {
    if |rs| == 1 {
    } else {
      Telescope(kind, Butlast(rs));
      assert Last(Butlast(rs)) == rs[|rs| - 2];
    }
  }

  lemma {:induction false} NoDrops(kind: string, rs: seq<Meter>)
    requires CountersGrow(rs)
    ensures DropSum(kind, rs) == 0
  {
    if |rs| <= 1 {
    } else {
      NoDrops(kind, Butlast(rs));
    }
  }

  /** For arbitrary counters, without any bound: the usage shown is what the counters gained since
      the first report of the month less what they lost, wrapped to 64 bits and not below zero. */
  lemma {:induction false} UsageIsWrappedGains(row0: ServerRow, rs: seq<Meter>)
    requires rs != []
    requires MonthStart(rs) > 0 || row0.monthlyReset != Some(Last(rs).month)
    ensures var kind, month := row0.trafficType, rs[MonthStart(rs)..];
            UsedAfter(row0, rs) == Clamp(Int64(GainSum(kind, month) - DropSum(kind, month)))
  {
    hide Int64, Add64, Sub64, Used, MonthStart, GainSum, DropSum;
    BaseIsMonthStart(row0, rs);
    Telescope(row0.trafficType, rs[MonthStart(rs)..]);
    UsedIsClampedWrap(RowAfter(row0, rs), Last(rs).totalIn, Last(rs).totalOut);
  }

  /** For arbitrary counters: the usage shown is what the counters gained since the first
      report of the month less what they lost, and it equals the traffic gained exactly
      when no counter dropped (the host did not restart) or nothing was gained. */
  lemma {:induction false} UsageEqualsGainsIff(row0: ServerRow, rs: seq<Meter>)
    requires rs != []
    requires MonthStart(rs) > 0 || row0.monthlyReset != Some(Last(rs).month)
    requires var d := MeterOf(row0.trafficType, Last(rs)) - MeterOf(row0.trafficType, rs[MonthStart(rs)]);
             -TWO_63 <= d < TWO_63
    ensures var kind, month := row0.trafficType, rs[MonthStart(rs)..];
            UsedAfter(row0, rs) == Clamp(GainSum(kind, month) - DropSum(kind, month))
            && (UsedAfter(row0, rs) == GainSum(kind, month)
                <==> DropSum(kind, month) == 0 || GainSum(kind, month) == 0)
  {
    BaseIsMonthStart(row0, rs);
    Telescope(row0.trafficType, rs[MonthStart(rs)..]);
    UsedExactIff(RowAfter(row0, rs), Last(rs).totalIn, Last(rs).totalOut);
  }

  lemma GrowingMonth(kind: string, rs: seq<Meter>)
    requires rs != [] && CountersGrow(rs)
    ensures MeterOf(kind, rs[0]) <= MeterOf(kind, Last(rs))
    ensures DropSum(kind, rs) == 0
    ensures GainSum(kind, rs) == MeterOf(kind, Last(rs)) - MeterOf(kind, rs[0])
  {
    hide MeterOf, Gain;
    NoDrops(kind, rs);
    Telescope(kind, rs);
  }

  /** With growing counters the usage is the sum of the deltas since the first report of the
      month; in particular it is nothing at that report. */
  lemma {:induction false} UsageIsSumOfDeltas(row0: ServerRow, rs: seq<Meter>)
    requires rs != [] && CountersGrow(rs)
    requires MonthStart(rs) > 0 || row0.monthlyReset != Some(Last(rs).month)
    requires MeterOf(row0.trafficType, Last(rs)) - MeterOf(row0.trafficType, rs[MonthStart(rs)]) < TWO_63
    ensures UsedAfter(row0, rs) == GainSum(row0.trafficType, rs[MonthStart(rs)..])
    ensures UsedAfter(row0, rs)
         == MeterOf(row0.trafficType, Last(rs)) - MeterOf(row0.trafficType, rs[MonthStart(rs)])
    ensures MonthStart(rs) == |rs| - 1 ==> UsedAfter(row0, rs) == 0
  {
    hide MeterOf, GainSum, DropSum, UsedAfter, MonthStart;
    GrowingMonth(row0.trafficType, rs[MonthStart(rs)..]);
    UsageEqualsGainsIff(row0, rs);
  }

  lemma MeterMonotone(kind: string, a: Meter, b: Meter)
    requires a.totalIn <= b.totalIn && a.totalOut <= b.totalOut
    ensures MeterOf(kind, a) <= MeterOf(kind, b)
  {}

  lemma MonthStartOfButlast(rs: seq<Meter>)
    requires |rs| > 1
    ensures Last(Butlast(rs)) == rs[|rs| - 2]
    ensures MonthStart(rs) == if Last(Butlast(rs)).month == Last(rs).month then MonthStart(Butlast(rs)) else |rs| - 1
  {}

  /** ... and within the month it never falls. */
  lemma {:induction false} UsageNeverFalls(row0: ServerRow, rs: seq<Meter>)
    requires |rs| > 1 && CountersGrow(rs) && rs[|rs| - 2].month == Last(rs).month
    requires MonthStart(rs) > 0 || row0.monthlyReset != Some(Last(rs).month)
    requires MeterOf(row0.trafficType, Last(rs)) - MeterOf(row0.trafficType, rs[MonthStart(rs)]) < TWO_63
    ensures UsedAfter(row0, Butlast(rs)) <= UsedAfter(row0, rs)
  {
    hide MeterOf, GainSum, UsedAfter, MonthStart;
    MonthStartOfButlast(rs);
    MeterMonotone(row0.trafficType, Last(Butlast(rs)), Last(rs));
    UsageIsSumOfDeltas(row0, Butlast(rs));
    UsageIsSumOfDeltas(row0, rs);
  }

  // ---- Across months ----

  /** The usage shown at the last report of every month of the run, added up. */
  function Bills(row0: ServerRow, rs: seq<Meter>): int
    requires rs != []
  {
    ClosedBills(row0, rs) + UsedAfter(row0, rs)
  }

  function ClosedBills(row0: ServerRow, rs: seq<Meter>): int {
    if |rs| < 2 then 0
    else
      var pre := Butlast(rs);
      ClosedBills(row0, pre) + if Last(pre).month != Last(rs).month then UsedAfter(row0, pre) else 0
  }

  /** What was counted between the last report of one month and the first of the next. */
  function Gaps(kind: string, rs: seq<Meter>): int {
    if |rs| < 2 then 0
    else
      var pre := Butlast(rs);
      Gaps(kind, pre)
      + if Last(pre).month != Last(rs).month then MeterOf(kind, Last(rs)) - MeterOf(kind, Last(pre)) else 0
  }

  ghost predicate FitsInt64(kind: string, rs: seq<Meter>) {
    forall i, j :: 0 <= i <= j < |rs| ==> MeterOf(kind, rs[j]) - MeterOf(kind, rs[i]) < TWO_63
  }

  lemma {:induction false} UnbilledBills(row0: ServerRow, rs: seq<Meter>)
    requires rs != [] && row0.monthlyReset != Some(rs[0].month)
    requires CountersGrow(rs) && FitsInt64(row0.trafficType, rs)
    ensures var kind := row0.trafficType;
            Bills(row0, rs) + Gaps(kind, rs) == MeterOf(kind, Last(rs)) - MeterOf(kind, rs[0])
            && Gaps(kind, rs) >= 0
            && Bills(row0, rs) <= MeterOf(kind, Last(rs)) - MeterOf(kind, rs[0])
  {
    hide MeterOf, GainSum, UsedAfter, MonthStart;
    var kind := row0.trafficType;
    assert MonthStart(rs) == 0 ==> rs[0].month == Last(rs).month;
    UsageIsSumOfDeltas(row0, rs);
    if |rs| > 1 {
      var pre := Butlast(rs);
      UnbilledBills(row0, pre);
      assert MonthStart(pre) == 0 ==> rs[0].month == Last(pre).month;
      UsageIsSumOfDeltas(row0, pre);
      MonthStartOfButlast(rs);
      MeterMonotone(kind, Last(pre), Last(rs));
    } else {
      MonthStartOfOne(rs);
    }
  }

  lemma BilledPrefix(row0: ServerRow, rs: seq<Meter>)
    requires rs != []
    ensures var b := Billed(row0, rs);
            b != [] && Last(b) == Last(rs)
            && if |rs| > 1
               then |b| > 1 && Butlast(b) == Billed(row0, Butlast(rs)) && Last(Butlast(b)) == Last(Butlast(rs))
               else |b| == 1 || (|b| == 2 && |Butlast(b)| == 1 && Last(Butlast(b)).month == Last(b).month)
  {}

  lemma {:induction false} ClosedBillsOfBilled(row0: ServerRow, rs: seq<Meter>)
    requires rs != []
    ensures var b := Billed(row0, rs);
            ClosedBills(row0, rs) == ClosedBills(Unbilled(row0), b)
            && Gaps(row0.trafficType, rs) == Gaps(row0.trafficType, b)
  {
    BilledPrefix(row0, rs);
    hide UsedAfter, MeterOf, Billed;
    if |rs| == 1 {
    } else {
      ClosedBillsOfBilled(row0, Butlast(rs));
      BilledFromUnbilled(row0, Butlast(rs));
    }
  }

  /** Conservation: the monthly bills and the gaps between months telescope to the traffic
      counted over the whole run, so the bills never exceed it. A month already running when the
      run begins counts from the base it has. */
  lemma {:induction false} BillsConserveTraffic(row0: ServerRow, rs: seq<Meter>)
    requires rs != [] && CountersGrow(Billed(row0, rs)) && FitsInt64(row0.trafficType, Billed(row0, rs))
    ensures var kind := row0.trafficType; var counted := MeterOf(kind, Last(rs)) - MeterOf(kind, Billed(row0, rs)[0]);
            Bills(row0, rs) + Gaps(kind, rs) == counted && Gaps(kind, rs) >= 0 && Bills(row0, rs) <= counted
  {
    hide MeterOf, UsedAfter, ClosedBills, Gaps, CountersGrow, FitsInt64;
    BilledPrefix(row0, rs);
    ClosedBillsOfBilled(row0, rs);
    BilledFromUnbilled(row0, rs);
    UnbilledBills(Unbilled(row0), Billed(row0, rs));
  }

  lemma MonthStartOfOne(rs: seq<Meter>)
    requires |rs| == 1
    ensures MonthStart(rs) == 0
  {}

  /** A restart inside the month: the counter falls from 10 to 0 and then counts 4 more. */
  const RESTARTED := [Meter(1, 0, 0), Meter(1, 10, 0), Meter(1, 0, 0), Meter(1, 4, 0)]

  lemma RestartedMonth()
    ensures MonthStart(RESTARTED) == 0 && RESTARTED[0..] == RESTARTED && Last(RESTARTED) == Meter(1, 4, 0)
  {
    var l3, l2, l1 := RESTARTED[..3], RESTARTED[..2], RESTARTED[..1];
    assert Butlast(RESTARTED) == l3 && Butlast(l3) == l2 && Butlast(l2) == l1;
    assert MonthStart(l1) == 0 && MonthStart(l2) == 0 && MonthStart(l3) == 0;
  }

  lemma RestartedGains()
    ensures GainSum("down", RESTARTED) == 14
  {
    var l3, l2 := RESTARTED[..3], RESTARTED[..2];
    assert Butlast(RESTARTED) == l3 && Butlast(l3) == l2;
    assert GainSum("down", l2) == 10 && GainSum("down", l3) == 10;
  }

  /** 14 bytes were counted since the base of 0, and 4 are shown. */
  lemma {:induction false} RestartLosesTraffic(row0: ServerRow)
    requires row0.monthlyReset == None && row0.trafficType == "down"
    ensures GainSum("down", RESTARTED[MonthStart(RESTARTED)..]) == 14 && UsedAfter(row0, RESTARTED) == 4
  {
    RestartedMonth();
    RestartedGains();
    hide UsedAfter, MonthStart, GainSum, DropSum;
    Telescope("down", RESTARTED);
    UsageEqualsGainsIff(row0, RESTARTED);
  }

  // ---- Remaining quota ----

  /** Used and remaining quota add up to the limit until it is exceeded. */
  lemma QuotaConserved(limit: int64, used: int64)
    requires limit > 0 && used >= 0
    ensures Remaining(limit, used) >= 0
    ensures used + Remaining(limit, used) == if used <= limit then limit else used
    ensures Remaining(limit, used) == 0 <==> used >= limit
  {}
}
