/** The online aggregator agrees with the batch. */
module StreamBatch {
  import opened GoNumbers
  import opened Records
  import opened Seqs
  import opened Aggregation
  import opened Arithmetic

  // ---- Conservation: any clock ----

  lemma PlusAssoc(a: Sums, b: Sums, c: Sums)
    ensures Plus(Plus(a, b), c) == Plus(a, Plus(b, c))
    ensures Plus(a, ZERO) == a == Plus(ZERO, a)
  {}

  /** Under any clock: server u's ring is that of its last report's minute and is never empty. */
  lemma {:induction false} RingIsOpenBucket(log: seq<Entry>, u: string)
    ensures u in Run(log).rings <==> OpenBucket(log, u).Some?
    ensures u in Run(log).rings ==>
              Run(log).rings[u].bucketStart == OpenBucket(log, u).value && Run(log).rings[u].n > 0
  {
    if log == [] {
    } else {
      RingIsOpenBucket(Butlast(log), u);
    }
  }

  lemma {:induction false} FlushesAppend(log: seq<Entry>, u: string, b: int)
    requires log != []
    ensures var h := Run(Butlast(log)); var e := Last(log); var fs := Flushes(Butlast(log));
            var hit := e.uuid == u && Rolls(h, e) && u in h.rings && h.rings[u].bucketStart == b;
            CallsAt(Flushes(log), u, b) == CallsAt(fs, u, b) + (if hit then 1 else 0)
            && CountAt(Flushes(log), u, b) == CountAt(fs, u, b) + (if hit then h.rings[u].n else 0)
            && SumsAt(Flushes(log), u, b) == (if hit then Plus(SumsAt(fs, u, b), h.rings[u].sums) else SumsAt(fs, u, b))
  {
    var h, e, fs := Run(Butlast(log)), Last(log), Flushes(Butlast(log));
    RingIsOpenBucket(Butlast(log), e.uuid);
    if Flushed(h, e) != [] {
      assert Butlast(Flushes(log)) == fs;
    } else {
      assert Flushes(log) == fs;
    }
  }

  /** What one report does to the ring seen at one server and minute. */
  lemma OpenRingStep(h: HubView, e: Entry, u: string, b: int)
    ensures var g := OpenRing(h, u, b);
            OpenRing(HubStep(h, e), u, b)
            == if e.uuid != u then g
               else if Bucket(e.now) == b then Ring(b, Plus(g.sums, Sample(e.report)), g.n + 1)
               else Ring(b, ZERO, 0)
  {}

  lemma MinuteStep(log: seq<Entry>, u: string, b: int)
    requires log != []
    ensures var rs, e := InMinute(Butlast(log), u, b), Last(log);
            var hit := e.uuid == u && Bucket(e.now) == b;
            |InMinute(log, u, b)| == |rs| + (if hit then 1 else 0)
            && Total(InMinute(log, u, b)) == (if hit then Plus(Total(rs), Sample(e.report)) else Total(rs))
            && Visits(log, u, b)
               == Visits(Butlast(log), u, b) + (if hit && OpenBucket(Butlast(log), u) != Some(b) then 1 else 0)
            && OpenBucket(log, u) == if e.uuid == u then Some(Bucket(e.now)) else OpenBucket(Butlast(log), u)
  {
    var rs, e := InMinute(Butlast(log), u, b), Last(log);
    assert Butlast(rs + [e.report]) == rs && rs + [] == rs;
    hide Plus, Sample, Bucket;
  }

  /** Under any clock: at every key, the flush calls made so far plus the open ring
      account for each report exactly once, in count and in all eight sums; and there
      are as many of them as the clock entered that minute. */
  lemma {:induction false} Conservation(log: seq<Entry>, u: string, b: int)
    ensures var fs, g := Flushes(log), OpenRing(Run(log), u, b);
            CountAt(fs, u, b) + g.n == |InMinute(log, u, b)|
            && Plus(SumsAt(fs, u, b), g.sums) == Total(InMinute(log, u, b))
            && CallsAt(fs, u, b) + (if OpenBucket(log, u) == Some(b) then 1 else 0) == Visits(log, u, b)
  {
    if log == [] {
    } else {
      var pre, e := Butlast(log), Last(log);
      var sums, g := SumsAt(Flushes(pre), u, b), OpenRing(Run(pre), u, b);
      Conservation(pre, u, b);
      FlushesAppend(log, u, b);
      RingIsOpenBucket(pre, u);
      MinuteStep(log, u, b);
      OpenRingStep(Run(pre), e, u, b);
      PlusAssoc(sums, g.sums, Sample(e.report));
      PlusAssoc(SumsAt(Flushes(log), u, b), ZERO, ZERO);
      PlusAssoc(sums, ZERO, ZERO);
      assert Run(log) == HubStep(Run(pre), e);
      hide Run, HubStep, Flushes, SumsAt, CountAt, CallsAt, InMinute, Visits, OpenBucket, Total, Plus, Sample, Bucket;
    }
  }

  // ---- The stored row: any clock ----

  /** The ring is the running sum of the visit. */
  lemma {:induction false} RingIsOpenVisit(log: seq<Entry>, u: string)
    ensures OpenVisit(log, u) == [] <==> OpenBucket(log, u) == None
    ensures u in Run(log).rings ==>
              OpenBucket(log, u).Some?
              && Run(log).rings[u] == Ring(OpenBucket(log, u).value, Total(OpenVisit(log, u)), |OpenVisit(log, u)|)
  {
    hide Sample, Plus, Bucket;
    if log == [] {
    } else {
      var pre, e := Butlast(log), Last(log);
      RingIsOpenVisit(pre, u);
      RingIsOpenBucket(pre, u);
      if e.uuid == u {
        assert Butlast(OpenVisit(pre, u) + [e.report]) == OpenVisit(pre, u);
        assert Butlast([e.report]) == [];
      }
    }
  }

  /** The two tables agree at key k. */
  ghost predicate SameAt(s: Table, t: Table, k: (string, int)) {
    (k in s <==> k in t) && (k in s ==> s[k] == t[k])
  }

  /** What one more report writes: the average of the visit it ends, and nothing else. */
  lemma ReportWrites(t: Table, log: seq<Entry>, e: Entry, u: string, b: int)
    ensures var t', v := SaveFlushes(t, Flushed(Run(log), e)), Closing(log, e, u, b);
            if v == [] then SameAt(t', t, (u, b)) else (u, b) in t' && t'[(u, b)] == MeanRow(b, v)
  {
    var h := Run(log);
    RingIsOpenVisit(log, u);
    RingIsOpenBucket(log, e.uuid);
    RingIsOpenBucket(log, u);
    hide Bucket, Total, Run, OpenVisit, OpenBucket, Trunc;
    if Flushed(h, e) == [] {
    } else {
      var f := Flush(e.uuid, h.rings[e.uuid]);
      assert Flushed(h, e) == [f] && [f][..0] == [];
    }
  }

  lemma {:induction false} SaveConcat(t: Table, fs: seq<Flush>, gs: seq<Flush>)
    ensures SaveFlushes(t, fs + gs) == SaveFlushes(SaveFlushes(t, fs), gs)
  {
    hide Average;
    if gs == [] {
      assert fs + gs == fs;
    } else {
      SaveConcat(t, fs, Butlast(gs));
      assert Butlast(fs + gs) == fs + Butlast(gs) && Last(fs + gs) == Last(gs);
    }
  }

  /** Under any clock: the row of a minute averages the reports of the last visit to it that has
      ended; a minute that was never left keeps what was stored before. */
  lemma {:induction false} RowIsLastVisit(t0: Table, log: seq<Entry>, u: string, b: int)
    ensures var t, v := Stored(t0, log), ClosedVisit(log, u, b);
            if v == [] then SameAt(t, t0, (u, b)) else (u, b) in t && t[(u, b)] == MeanRow(b, v)
  {
    if log == [] {
    } else {
      var pre, e := Butlast(log), Last(log);
      RowIsLastVisit(t0, pre, u, b);
      SaveConcat(t0, Flushes(pre), Flushed(Run(pre), e));
      hide SaveFlushes, Flushed, Run, Closing;
      ReportWrites(Stored(t0, pre), pre, e, u, b);
    }
  }

  /** A visit to minute b holds reports of that minute only. */
  lemma {:induction false} VisitInMinute(log: seq<Entry>, u: string, b: int, r: Report)
    ensures r in ClosedVisit(log, u, b) ==> r in InMinute(log, u, b)
    ensures OpenBucket(log, u) == Some(b) && r in OpenVisit(log, u) ==> r in InMinute(log, u, b)
  {
    hide Bucket;
    if log == [] {
    } else {
      VisitInMinute(Butlast(log), u, b, r);
    }
  }

  /** Entered once, the minute is that visit; entered more often, the last visit is not all. */
  lemma {:induction false} VisitsOfMinute(log: seq<Entry>, u: string, b: int)
    ensures var rs, v, open := InMinute(log, u, b), ClosedVisit(log, u, b), OpenBucket(log, u) == Some(b);
            (Visits(log, u, b) == 0 ==> rs == [] && v == [] && !open)
            && (Visits(log, u, b) == 1 ==> if open then rs == OpenVisit(log, u) && v == [] else rs == v && v != [])
            && (Visits(log, u, b) > 1 ==> v != [] && |v| < |rs| && (open ==> |v| + |OpenVisit(log, u)| <= |rs|))
  {
    hide Bucket;
    if log == [] {
    } else {
      RingIsOpenVisit(Butlast(log), u);
      VisitsOfMinute(Butlast(log), u, b);
    }
  }

  /** Under any clock: once minute b is no longer open, its row averages the reports of the
      last visit to b. It accounts for every report of b exactly when the clock entered b
      once, and then it is the batch row. */
  lemma {:induction false} RowCompleteIffVisitedOnce(t0: Table, log: seq<Entry>, u: string, b: int)
    requires InMinute(log, u, b) != [] && OpenBucket(log, u) != Some(b)
    ensures var v := ClosedVisit(log, u, b);
            v != [] && (u, b) in Stored(t0, log) && Stored(t0, log)[(u, b)] == MeanRow(b, v)
            && (|v| == |InMinute(log, u, b)| <==> Visits(log, u, b) == 1)
    ensures Visits(log, u, b) == 1 ==> Stored(t0, log)[(u, b)] == Batch(log, u, b)
  {
    RowIsLastVisit(t0, log, u, b);
    VisitsOfMinute(log, u, b);
    hide Stored, Average, Total, InMinute, ClosedVisit, Visits, OpenBucket;
  }

  // ---- A clock that never runs backwards ----

  lemma {:induction false} MonotoneVisits(log: seq<Entry>, u: string, b: int)
    requires Monotone(log, u)
    ensures Visits(log, u, b) <= 1
    ensures InMinute(log, u, b) != [] ==> OpenBucket(log, u).Some? && b <= OpenBucket(log, u).value
    ensures Visits(log, u, b) == 1 <==> InMinute(log, u, b) != []
    ensures OpenBucket(log, u) == Some(b) ==> InMinute(log, u, b) != []
  {
    if log == [] {
    } else {
      var pre, e := Butlast(log), Last(log);
      MonotoneVisits(pre, u, b);
      if e.uuid == u && OpenBucket(pre, u).Some? {
        OpenBucketIsLast(pre, u);
        var k :| 0 <= k < |pre| && pre[k].uuid == u && OpenBucket(pre, u) == Some(Bucket(pre[k].now));
        assert log[k].now <= log[|log| - 1].now;
        BucketMonotone(pre[k].now, e.now);
      }
    }
  }

  lemma {:induction false} OpenBucketIsLast(log: seq<Entry>, u: string)
    ensures OpenBucket(log, u).Some? ==>
              exists k :: 0 <= k < |log| && log[k].uuid == u && OpenBucket(log, u) == Some(Bucket(log[k].now))
  {
    if log == [] {
    } else {
      if Last(log).uuid == u {
        assert log[|log| - 1].uuid == u;
      } else {
        OpenBucketIsLast(Butlast(log), u);
        if OpenBucket(log, u).Some? {
          var k :| 0 <= k < |Butlast(log)| && Butlast(log)[k].uuid == u
                   && OpenBucket(log, u) == Some(Bucket(Butlast(log)[k].now));
          assert log[k].uuid == u;
        }
      }
    }
  }

  /** If the times of server u never go back, a minute left is its one visit. */
  lemma LastVisitIsBatch(log: seq<Entry>, u: string, b: int)
    requires Monotone(log, u)
    ensures ClosedVisit(log, u, b) == if Closed(log, u, b) then InMinute(log, u, b) else []
  {
    MonotoneVisits(log, u, b);
    VisitsOfMinute(log, u, b);
    hide Monotone, ClosedVisit, InMinute, Visits, OpenBucket;
  }

  /** Refinement: if server u's clock never runs backwards, then after any interleaved run,
      whatever the clocks of other servers do, the table holds at each of u's keys the batch
      row when the minute is closed and what was there before otherwise. */
  lemma {:induction false} StreamEqualsBatch(t0: Table, log: seq<Entry>, u: string, b: int)
    requires Monotone(log, u)
    ensures (u, b) in Stored(t0, log) <==> (u, b) in t0 || Closed(log, u, b)
    ensures Closed(log, u, b) ==> Stored(t0, log)[(u, b)] == Batch(log, u, b)
    ensures !Closed(log, u, b) && (u, b) in t0 ==> Stored(t0, log)[(u, b)] == t0[(u, b)]
  {
    LastVisitIsBatch(log, u, b);
    RowIsLastVisit(t0, log, u, b);
    hide Stored, MeanRow, InMinute, ClosedVisit, OpenBucket;
  }

  lemma {:induction false} FlushesBelowOpen(log: seq<Entry>, k: nat)
    requires k < |Flushes(log)| && Monotone(log, Flushes(log)[k].uuid)
    ensures var f := Flushes(log)[k];
            OpenBucket(log, f.uuid).Some? && f.ring.bucketStart < OpenBucket(log, f.uuid).value
  {
    var pre, e := Butlast(log), Last(log);
    var h := Run(pre);
    var f := Flushes(log)[k];
    RingIsOpenBucket(pre, e.uuid);
    if k < |Flushes(pre)| {
      FlushesBelowOpen(pre, k);
    } else {
      assert Flushed(h, e) == [f];
    }
    if e.uuid == f.uuid {
      OpenBucketIsLast(pre, f.uuid);
      var j :| 0 <= j < |pre| && pre[j].uuid == f.uuid && OpenBucket(pre, f.uuid) == Some(Bucket(pre[j].now));
      assert log[j].now <= log[|log| - 1].now;
      BucketMonotone(pre[j].now, e.now);
    }
  }

  /** With such a clock a server's flush times strictly increase, so REPLACE never
      overwrites a row written by this process. */
  lemma {:induction false} FlushTimesIncrease(log: seq<Entry>, i: nat, j: nat)
    requires i < j < |Flushes(log)| && Flushes(log)[i].uuid == Flushes(log)[j].uuid
    requires Monotone(log, Flushes(log)[i].uuid)
    ensures Flushes(log)[i].ring.bucketStart < Flushes(log)[j].ring.bucketStart
  {
    var pre, e := Butlast(log), Last(log);
    if j < |Flushes(pre)| {
      FlushTimesIncrease(pre, i, j);
    } else {
      assert Flushed(Run(pre), e) == [Flushes(log)[j]];
      FlushesBelowOpen(pre, i);
      RingIsOpenBucket(pre, e.uuid);
    }
  }

  // ---- A clock that steps back ----

  lemma Extend(log: seq<Entry>, e: Entry, u: string, b: int)
    ensures OpenBucket(log + [e], u) == if e.uuid == u then Some(Bucket(e.now)) else OpenBucket(log, u)
    ensures InMinute(log + [e], u, b)
         == InMinute(log, u, b) + if e.uuid == u && Bucket(e.now) == b then [e.report] else []
    ensures Visits(log + [e], u, b)
         == Visits(log, u, b)
            + if e.uuid == u && Bucket(e.now) == b && OpenBucket(log, u) != Some(b) then 1 else 0
  {
    assert Butlast(log + [e]) == log;
  }

  /** Server u reports at t, at t', and at both again. */
  ghost function StepBack(u: string, t: int, t': int, r0: Report, r1: Report, r2: Report, r3: Report): seq<Entry> {
    [Entry(u, r0, t)] + [Entry(u, r1, t')] + [Entry(u, r2, t)] + [Entry(u, r3, t')]
  }

  lemma StepBackMinute(u: string, t: int, t': int, r0: Report, r1: Report, r2: Report, r3: Report)
    requires Bucket(t) != Bucket(t')
    ensures var log := StepBack(u, t, t', r0, r1, r2, r3);
            InMinute(log, u, Bucket(t)) == [r0, r2] && Visits(log, u, Bucket(t)) == 2
            && OpenBucket(log, u) == Some(Bucket(t'))
  {
    var b := Bucket(t);
    var e0, e1, e2, e3 := Entry(u, r0, t), Entry(u, r1, t'), Entry(u, r2, t), Entry(u, r3, t');
    assert [] + [e0] == [e0];
    assert Visits([], u, b) == 0 && InMinute([], u, b) == [] && OpenBucket([], u) == None;
    hide Bucket, Visits, InMinute, OpenBucket;
    Extend([], e0, u, b);
    Extend([e0], e1, u, b);
    Extend([e0] + [e1], e2, u, b);
    Extend([e0] + [e1] + [e2], e3, u, b);
  }

  lemma StepBackVisit(u: string, t: int, t': int, r0: Report, r1: Report, r2: Report, r3: Report)
    requires Bucket(t) != Bucket(t')
    ensures ClosedVisit(StepBack(u, t, t', r0, r1, r2, r3), u, Bucket(t)) == [r2]
  {
    var l2 := [Entry(u, r0, t)] + [Entry(u, r1, t')];
    var l3, log := l2 + [Entry(u, r2, t)], StepBack(u, t, t', r0, r1, r2, r3);
    assert Butlast(log) == l3 && Butlast(l3) == l2;
    hide Bucket;
    assert OpenBucket(l2, u) == Some(Bucket(t')) && OpenVisit(l3, u) == [r2];
  }

  /** Whatever the reports and the two minutes, the row of the minute the clock came back
      to averages r2 alone: r0 is lost. */
  lemma {:induction false} ClockStepBackLosesReports(t0: Table, u: string, t: int, t': int,
                                  r0: Report, r1: Report, r2: Report, r3: Report)
    requires Bucket(t) != Bucket(t')
    ensures var log, b := StepBack(u, t, t', r0, r1, r2, r3), Bucket(t);
            InMinute(log, u, b) == [r0, r2] && OpenBucket(log, u) != Some(b)
            && (u, b) in Stored(t0, log)
            && Stored(t0, log)[(u, b)] == MeanRow(b, [r2])
  {
    StepBackMinute(u, t, t', r0, r1, r2, r3);
    StepBackVisit(u, t, t', r0, r1, r2, r3);
    hide StepBack, Bucket, Stored, ClosedVisit, InMinute, MeanRow;
    RowIsLastVisit(t0, StepBack(u, t, t', r0, r1, r2, r3), u, Bucket(t));
  }

  lemma AverageCpu(b: int, s: Sums, n: nat)
    requires n > 0
    ensures Average(b, s, n).cpu == s.cpu / n as real
  {}

  lemma TwoReportsCpu(r0: Report, r2: Report)
    ensures Total([r0, r2]).cpu == r0.cpuUsage + r2.cpuUsage
    ensures Total([r2]).cpu == r2.cpuUsage
  {
    hide Percent;
    assert Butlast([r0, r2]) == [r0] && Butlast([r0]) == [] && Butlast([r2]) == [];
    assert Total([r0]).cpu == r0.cpuUsage;
  }

  /** So the row is not the batch row whenever the two loads differ. */
  lemma {:induction false} ClockStepBackRowIsWrong(t0: Table, u: string, t: int, t': int,
                                r0: Report, r1: Report, r2: Report, r3: Report)
    requires Bucket(t) != Bucket(t') && r0.cpuUsage != r2.cpuUsage
    ensures var log, b := StepBack(u, t, t', r0, r1, r2, r3), Bucket(t);
            InMinute(log, u, b) != [] && (u, b) in Stored(t0, log)
            && Stored(t0, log)[(u, b)].cpu == r2.cpuUsage
            && Batch(log, u, b).cpu == (r0.cpuUsage + r2.cpuUsage) / 2.0
            && Stored(t0, log)[(u, b)] != Batch(log, u, b)
  {
    hide StepBack, Average, Bucket, Total, Stored, InMinute;
    ClockStepBackLosesReports(t0, u, t, t', r0, r1, r2, r3);
    TwoReportsCpu(r0, r2);
    AverageCpu(Bucket(t), Total([r0, r2]), 2);
    AverageCpu(Bucket(t), Total([r2]), 1);
  }

  // ---- The batch row, field by field ----

  function SumOf(rs: seq<Report>, f: Report -> real): real {
    if rs == [] then 0.0 else SumOf(Butlast(rs), f) + f(Last(rs))
  }

  function MeanOf(rs: seq<Report>, f: Report -> real): real
    requires rs != []
  {
    SumOf(rs, f) / |rs| as real
  }

  function Cpu(r: Report): real { r.cpuUsage }
  function MemPct(r: Report): real { if r.memTotal == 0 then 0.0 else 100.0 * (r.memUsed as real / r.memTotal as real) }
  function DiskPct(r: Report): real {
    if r.diskTotal == 0 then 0.0 else 100.0 * (r.diskUsed as real / r.diskTotal as real)
  }
  function NetIn(r: Report): real { r.netIn as real }
  function NetOut(r: Report): real { r.netOut as real }
  function Load(r: Report): real { r.load1 }
  function Tcp(r: Report): real { r.tcpConns as real }
  function Uptime(r: Report): real { r.uptime as real }

  lemma SampleByField(r: Report)
    ensures Sample(r) == Sums(Cpu(r), MemPct(r), DiskPct(r), NetIn(r), NetOut(r), Load(r), Tcp(r), Uptime(r))
  {
    PercentForm(r.memUsed, r.memTotal);
    PercentForm(r.diskUsed, r.diskTotal);
    hide Percent;
  }

  lemma PercentForm(used: uint64, total: uint64)
    ensures Percent(used, total) == if total == 0 then 0.0 else 100.0 * (used as real / total as real)
  {}

  lemma {:induction false} TotalByField(rs: seq<Report>)
    ensures Total(rs) == Sums(SumOf(rs, Cpu), SumOf(rs, MemPct), SumOf(rs, DiskPct), SumOf(rs, NetIn),
                              SumOf(rs, NetOut), SumOf(rs, Load), SumOf(rs, Tcp), SumOf(rs, Uptime))
  {
    if rs == [] {
    } else {
      TotalByField(Butlast(rs));
      SampleByField(Last(rs));
      hide Sample, MemPct, DiskPct;
    }
  }

  /** A row holds, field by field, the means over the reports it averages; the connection count
      and the uptime without their fraction. */
  lemma {:induction false} RowIsMeans(b: int, rs: seq<Report>)
    requires rs != []
    ensures var p := MeanRow(b, rs);
            p.time == b
            && p.cpu == MeanOf(rs, Cpu) && p.memPct == MeanOf(rs, MemPct) && p.diskPct == MeanOf(rs, DiskPct)
            && p.netIn == MeanOf(rs, NetIn) && p.netOut == MeanOf(rs, NetOut) && p.load1 == MeanOf(rs, Load)
            && DropsFraction(MeanOf(rs, Tcp), p.tcp) && DropsFraction(MeanOf(rs, Uptime), p.uptime)
  {
    TotalByField(rs);
    TruncIff(MeanOf(rs, Tcp), Trunc(MeanOf(rs, Tcp)));
    TruncIff(MeanOf(rs, Uptime), Trunc(MeanOf(rs, Uptime)));
    hide Total, SumOf, Trunc, DropsFraction;
  }

  // ---- Bounds ----

  /** x lies between the least and the greatest f of the reports. */
  ghost predicate Between(x: real, rs: seq<Report>, f: Report -> real) {
    exists lo, hi :: lo in rs && hi in rs && f(lo) <= x <= f(hi)
  }

  /** Reports with the least and the greatest f. */
  lemma {:induction false} Extremes(rs: seq<Report>, f: Report -> real) returns (lo: Report, hi: Report)
    requires rs != []
    ensures lo in rs && hi in rs && forall r :: r in rs ==> f(lo) <= f(r) <= f(hi)
  {
    lo, hi := Last(rs), Last(rs);
    if |rs| > 1 {
      lo, hi := Extremes(Butlast(rs), f);
      if f(Last(rs)) < f(lo) { lo := Last(rs); }
      if f(Last(rs)) > f(hi) { hi := Last(rs); }
    }
    assert forall r :: r in rs ==> r == Last(rs) || r in Butlast(rs);
  }

  lemma {:induction false} SumBounds(rs: seq<Report>, f: Report -> real, lo: real, hi: real)
    requires forall r :: r in rs ==> lo <= f(r) <= hi
    ensures lo * |rs| as real <= SumOf(rs, f) <= hi * |rs| as real
  {
    if rs == [] {
    } else {
      SumBounds(Butlast(rs), f, lo, hi);
      TimesOneMore(lo, |Butlast(rs)|);
      TimesOneMore(hi, |Butlast(rs)|);
      assert Last(rs) in rs;
    }
  }

  /** A mean lies between the extremes of what it averages. */
  lemma {:induction false} MeanIsBetween(rs: seq<Report>, f: Report -> real)
    requires rs != []
    ensures Between(MeanOf(rs, f), rs, f)
  {
    var lo, hi := Extremes(rs, f);
    SumBounds(rs, f, f(lo), f(hi));
    QuotientBounds(SumOf(rs, f), f(lo), f(hi), |rs| as real);
  }

  /** Every average of the row lies between the extremes of the reports. */
  ghost predicate Bounded(p: MinutePoint, rs: seq<Report>) {
    Between(p.cpu, rs, Cpu) && Between(p.memPct, rs, MemPct) && Between(p.diskPct, rs, DiskPct)
    && Between(p.netIn, rs, NetIn) && Between(p.netOut, rs, NetOut) && Between(p.load1, rs, Load)
  }

  /** A row lies between the extremes of the reports it averages. */
  lemma {:induction false} RowBounds(b: int, rs: seq<Report>)
    requires rs != []
    ensures Bounded(MeanRow(b, rs), rs)
  {
    RowIsMeans(b, rs);
    hide MeanRow, MeanOf, Between;
    MeanIsBetween(rs, Cpu);
    MeanIsBetween(rs, MemPct);
    MeanIsBetween(rs, DiskPct);
    MeanIsBetween(rs, NetIn);
    MeanIsBetween(rs, NetOut);
    MeanIsBetween(rs, Load);
  }

  lemma PercentInRange(r: Report)
    ensures r.memUsed <= r.memTotal ==> 0.0 <= MemPct(r) <= 100.0
    ensures r.diskUsed <= r.diskTotal ==> 0.0 <= DiskPct(r) <= 100.0
  {
    if r.memUsed <= r.memTotal && r.memTotal != 0 { QuotientBounds(r.memUsed as real, 0.0, 1.0, r.memTotal as real); }
    if r.diskUsed <= r.diskTotal && r.diskTotal != 0 {
      QuotientBounds(r.diskUsed as real, 0.0, 1.0, r.diskTotal as real);
    }
  }

  /** A report with a load in [0, 100] and no more used than there is. */
  predicate Sane(r: Report) {
    0.0 <= r.cpuUsage <= 100.0 && r.memUsed <= r.memTotal && r.diskUsed <= r.diskTotal
  }

  /** A row with percentages in [0, 100]. */
  predicate SanePoint(p: MinutePoint) { 0.0 <= p.cpu <= 100.0 && 0.0 <= p.memPct <= 100.0 && 0.0 <= p.diskPct <= 100.0 }

  /** So is a row that averages such reports. */
  lemma {:induction false} SaneRow(b: int, rs: seq<Report>)
    requires rs != [] && forall r :: r in rs ==> Sane(r)
    ensures SanePoint(MeanRow(b, rs))
  {
    RowBounds(b, rs);
    hide MeanRow, MemPct, DiskPct;
    forall r | r in rs
      ensures 0.0 <= Cpu(r) <= 100.0 && 0.0 <= MemPct(r) <= 100.0 && 0.0 <= DiskPct(r) <= 100.0
    {
      PercentInRange(r);
    }
  }

  // ---- The recent buffer ----

  function LastSeenOf(log: seq<Entry>, u: string): Option<int> {
    if log == [] then None
    else if Last(log).uuid == u then Some(Last(log).now)
    else LastSeenOf(Butlast(log), u)
  }

  lemma LastNAppend(rs: seq<Report>, r: Report, n: nat)
    requires n > 0
    ensures LastN(LastN(rs, n) + [r], n) == LastN(rs + [r], n)
    ensures Last(LastN(rs + [r], n)) == r && LastN([], n) == []
  {}

  lemma LastNAt(rs: seq<Report>)
    ensures var tail := LastN(rs, RECENT_KEEP);
            |tail| == (if |rs| < 120 then |rs| else 120)
            && forall i :: 0 <= i < |tail| ==> tail[i] == rs[|rs| - |tail| + i]
  {}

  lemma {:induction false} MapsFollow(log: seq<Entry>, u: string)
    ensures var h, rs := Run(log), ReportsOf(log, u);
            RecentOf(h, u) == LastN(rs, RECENT_KEEP)
            && (u in h.latest <==> rs != [])
            && (u in h.latest ==> h.latest[u] == Last(rs))
            && (if u in h.lastSeen then Some(h.lastSeen[u]) else None) == LastSeenOf(log, u)
            && (u in h.lastSeen <==> u in h.latest)
  {
    if log == [] {
    } else {
      var h, e := Run(Butlast(log)), Last(log);
      MapsFollow(Butlast(log), u);
      assert Run(log) == HubStep(h, e);
      LastNAppend(ReportsOf(Butlast(log), u), e.report, RECENT_KEEP);
      hide NextRing, Run, LastN;
    }
  }

  /** After any run the buffer of server u is the tail of its reports, at most 120 of them, in
      order; the latest report is the last of them, and the last-seen time is that report's. */
  lemma {:induction false} RecentIsTail(log: seq<Entry>, u: string)
    ensures var recent, rs := RecentOf(Run(log), u), ReportsOf(log, u);
            |recent| == (if |rs| < 120 then |rs| else 120)
            && forall i :: 0 <= i < |recent| ==> recent[i] == rs[|rs| - |recent| + i]
    ensures var h, rs := Run(log), ReportsOf(log, u);
            (u in h.latest <==> rs != []) && (u in h.latest ==> h.latest[u] == Last(rs))
            && (if u in h.lastSeen then Some(h.lastSeen[u]) else None) == LastSeenOf(log, u)
            && (u in h.lastSeen <==> u in h.latest)
  {
    MapsFollow(log, u);
    LastNAt(ReportsOf(log, u));
    hide *;
  }
}
