/** From report to alert and dashboard: what the checks and rankings say about the reports
    themselves, after any run of the server. */
module Pipeline {
  import opened GoNumbers
  import opened Records
  import opened Seqs
  import opened Aggregation
  import opened StreamBatch
  import opened MinuteTable
  import opened Storage
  import opened RealtimeHub
  import opened AlertRules
  import opened ServerMachine
  import opened ServerRuns
  import Rankings
  import Tokens

  // ---- Stored history is what the reports make of it ----

  /** The minutes of server u from `since` on that are expected to be stored. */
  ghost function MinutesSince(st0: State, ops: seq<Op>, u: string, since: int): set<int> {
    (set e | e in Log(st0, ops) && Expected(st0, ops, u, Bucket(e.now)).Some? && since <= Bucket(e.now)
       :: Bucket(e.now))
    + (set k | k in st0.stats && Expected(st0, ops, u, k.1).Some? && since <= k.1 :: k.1)
  }

  lemma {:induction false} ExpectedHasSource(st0: State, ops: seq<Op>, u: string, b: int)
    ensures Expected(st0, ops, u, b).Some? ==>
              (u, b) in st0.stats || exists e :: e in Log(st0, ops) && Bucket(e.now) == b
  {
    if ops == [] {
    } else {
      var pre := Butlast(ops);
      var log := Log(st0, pre);
      ExpectedHasSource(st0, pre, u, b);
      OpenBucketIsLast(log, u);
      LogLast(st0, ops);
      hide After, Arriving, Log, MeanRow, Bucket, OpenVisit, OpenBucket;
      if Ending(st0, pre, Last(ops), u, b) != [] {
        var k :| 0 <= k < |log| && log[k].uuid == u && OpenBucket(log, u) == Some(Bucket(log[k].now));
        assert log[k] in Log(st0, ops);
      } else if e :| e in log && Bucket(e.now) == b {
        assert e in Log(st0, ops);
      }
    }
  }

  lemma MinutesSinceIff(st0: State, ops: seq<Op>, u: string, since: int, b: int)
    ensures b in MinutesSince(st0, ops, u, since) <==> Expected(st0, ops, u, b).Some? && since <= b
  {
    hide Bucket, Expected, Log;
    if Expected(st0, ops, u, b).Some? && since <= b {
      ExpectedHasSource(st0, ops, u, b);
      if (u, b) in st0.stats { assert (u, b).1 == b; }
    }
  }

  lemma {:induction false} ExpectedTime(st0: State, ops: seq<Op>, u: string, b: int)
    requires WellKeyed(st0.stats)
    ensures Expected(st0, ops, u, b).Some? ==> Expected(st0, ops, u, b).value.time == b
  {
    if ops == [] {
    } else {
      ExpectedTime(st0, Butlast(ops), u, b);
      hide After, Ending, Total, WellKeyed, Trunc;
    }
  }

  lemma StepKeepsKeyed(st: State, op: Op)
    requires WellKeyed(st.stats)
    ensures WellKeyed(Next(st, op).stats)
  {
    if Arriving(st, op) != [] {
      SaveFlushesWellKeyed(st.stats, Flushed(st.hub, Arriving(st, op)[0]));
    }
    hide HubStep, SaveFlushes, Flushed, VisitOne, Tokens.Apply, Tokens.IsLookup, IsListing, IsRecent, RuleList, Seen;
  }

  lemma {:induction false} StatsStayKeyed(st0: State, ops: seq<Op>)
    requires WellKeyed(st0.stats)
    ensures WellKeyed(After(st0, ops).stats)
  {
    if ops == [] {
    } else {
      StatsStayKeyed(st0, Butlast(ops));
      StepKeepsKeyed(After(st0, Butlast(ops)), Last(ops));
      AfterLast(st0, ops);
      hide After, Next, WellKeyed;
    }
  }

  /** After any run a history query returns the expected rows of the minutes asked for, and
      nothing else. */
  lemma {:induction false} HistoryIsExpected(st0: State, ops: seq<Op>, u: string, since: int, p: MinutePoint)
    requires Starts(st0) && WellKeyed(st0.stats)
    ensures WellKeyed(After(st0, ops).stats)
    ensures p in HistorySince(After(st0, ops).stats, u, since)
            <==> since <= p.time && Expected(st0, ops, u, p.time) == Some(p)
  {
    StatsStayKeyed(st0, ops);
    StoredMinutesOfServer(st0, ops, u, p.time);
    hide After, Expected, WellKeyed;
    assert p in HistorySince(After(st0, ops).stats, u, since) <==> Selected(After(st0, ops).stats, u, since, p);
  }

  /** So for a server whose reports do not overlap, with a clock that never goes back, it returns
      the batch averages of the closed minutes asked for, and what was found at the start. */
  lemma {:induction false} HistoryIsBatch(st0: State, ops: seq<Op>, u: string, since: int, p: MinutePoint)
    requires Starts(st0) && WellKeyed(st0.stats) && NeverDeleted(ops, u) && NeverPruned(ops, since)
    requires OneAtATime(st0, ops, u) && NeverBack(Readings(st0, ops, u))
    ensures WellKeyed(After(st0, ops).stats)
    ensures var log := Log(st0, ops);
            p in HistorySince(After(st0, ops).stats, u, since)
            <==> since <= p.time
                 && if Closed(log, u, p.time) then p == Batch(log, u, p.time)
                    else RowAt(st0.stats, u, p.time) == Some(p)
  {
    HistoryIsExpected(st0, ops, u, since, p);
    if since <= p.time {
      assert NeverPruned(ops, p.time);
      hide *;
      StoredMinutesAreBatches(st0, ops, u, p.time);
      StoredMinutesOfServer(st0, ops, u, p.time);
    }
  }

  // ---- Load alerts from reports ----

  ghost function TimesIn(points: seq<MinutePoint>): set<int> { set p | p in points :: p.time }

  ghost function TimesOver(points: seq<MinutePoint>, metric: string, threshold: real): set<int> {
    set p | p in points && OverThreshold(p, metric, threshold) :: p.time
  }

  lemma TimesOfLast(points: seq<MinutePoint>, metric: string, threshold: real)
    requires points != [] && AscendingBy(points, TimeOf)
    ensures var pre, l := Butlast(points), Last(points);
            TimesIn(points) == TimesIn(pre) + {l.time}
            && TimesOver(points, metric, threshold)
               == (if OverThreshold(l, metric, threshold) then TimesOver(pre, metric, threshold) + {l.time}
                   else TimesOver(pre, metric, threshold))
            && l.time !in TimesIn(pre) && l.time !in TimesOver(pre, metric, threshold)
  {
    hide OverThreshold;
    var pre, l := Butlast(points), Last(points);
    forall p ensures p in points <==> p in pre || p == l
             ensures p in pre ==> p.time < l.time {
      SplitLast(points, TimeOf, p);
    }
  }

  /** Counting over points of distinct times is counting times. */
  lemma {:induction false} CountOverIsCardinality(points: seq<MinutePoint>, metric: string, threshold: real)
    requires AscendingBy(points, TimeOf)
    ensures |points| == |TimesIn(points)|
    ensures CountOver(points, metric, threshold) == |TimesOver(points, metric, threshold)|
  {
    if points == [] {
    } else {
      TimesOfLast(points, metric, threshold);
      CountOverIsCardinality(Butlast(points), metric, threshold);
    }
  }

  /** Those of the expected minutes whose average reaches the threshold. */
  ghost function LoadedMinutes(
      st0: State, ops: seq<Op>, u: string, since: int, metric: string, threshold: real): set<int>
  {
    set b | b in MinutesSince(st0, ops, u, since) && Expected(st0, ops, u, b).Some?
            && OverThreshold(Expected(st0, ops, u, b).value, metric, threshold)
  }

  /** Some minutes from `since` on are expected to be stored, and the share of them that is loaded
      is at least the rule's ratio. */
  ghost predicate EnoughLoaded(st0: State, ops: seq<Op>, rule: LoadRule, since: int) {
    var minutes := MinutesSince(st0, ops, rule.serverUUID, since);
    var loaded := LoadedMinutes(st0, ops, rule.serverUUID, since, rule.metric, rule.threshold);
    minutes != {} && |loaded| as real / |minutes| as real >= rule.ratio
  }

  lemma HistoryCounts(st0: State, ops: seq<Op>, u: string, since: int, metric: string, threshold: real)
    requires Starts(st0) && WellKeyed(st0.stats)
    ensures WellKeyed(After(st0, ops).stats)
    ensures var points := HistorySince(After(st0, ops).stats, u, since);
            |points| == |MinutesSince(st0, ops, u, since)|
            && CountOver(points, metric, threshold) == |LoadedMinutes(st0, ops, u, since, metric, threshold)|
  {
    StatsStayKeyed(st0, ops);
    var points := HistorySince(After(st0, ops).stats, u, since);
    CountOverIsCardinality(points, metric, threshold);
    hide After, Log, HistorySince, CountOver, OverThreshold, MinutesSince, Expected;
    forall p ensures p in points <==> since <= p.time && Expected(st0, ops, u, p.time) == Some(p) {
      HistoryIsExpected(st0, ops, u, since, p);
    }
    var times, loaded := TimesIn(points), TimesOver(points, metric, threshold);
    forall b ensures b in times <==> b in MinutesSince(st0, ops, u, since)
             ensures b in loaded <==> b in LoadedMinutes(st0, ops, u, since, metric, threshold) {
      MinutesSinceIff(st0, ops, u, since, b);
      ExpectedTime(st0, ops, u, b);
      if b in MinutesSince(st0, ops, u, since) {
        assert Expected(st0, ops, u, b).value in points;
      }
    }
    assert times == MinutesSince(st0, ops, u, since);
    assert loaded == LoadedMinutes(st0, ops, u, since, metric, threshold);
  }

  /** End to end: after any run a rule for server u, looked at over the history since `since`,
      wants an alert exactly when some of u's minutes since then are to be stored and the share
      whose average over u's own reports reaches the threshold, in memory for "ram" and in CPU
      for any other metric, is at least the rule's ratio. */
  lemma {:induction false} LoadAlertFromReports(st0: State, ops: seq<Op>, rule: LoadRule, since: int, hist: History)
    requires Starts(st0) && WellKeyed(st0.stats) && IsRecent(hist, After(st0, ops).stats, since)
    ensures LoadWanted(rule, PointsFor(hist, rule.serverUUID)) <==> EnoughLoaded(st0, ops, rule, since)
  {
    var u := rule.serverUUID;
    HistoryCounts(st0, ops, u, since, rule.metric, rule.threshold);
    var points := HistorySince(After(st0, ops).stats, u, since);
    assert PointsFor(hist, u) == points;
    hide HistorySince, After, MinutesSince, LoadedMinutes, CountOver, IsRecent;
    var minutes := MinutesSince(st0, ops, u, since);
    assert points == [] <==> minutes == {};
  }

  /** The reading of the history that the notifier is visiting by, or visited by last. */
  ghost function ReadAt(st0: State, ops: seq<Op>): Option<nat> {
    if ops == [] then None
    else if Last(ops).ReadHistory? && Enabled(After(st0, Butlast(ops)), Last(ops)) then Some(|ops| - 1)
    else ReadAt(st0, Butlast(ops))
  }

  lemma VisitKeepsHistory(st: State)
    requires VisitOne(st).task.LoadTask?
    ensures st.task.LoadTask? && st.task.hist == VisitOne(st).task.hist && st.task.now == VisitOne(st).task.now
  {
    hide OfflineSends, RuleSends, TrafficSends, TrafficMoves, OfflineDue, LoadDue, MarkServer, MarkRule;
  }

  lemma StepKeepsHistory(st: State, op: Op)
    requires !(op.ReadHistory? && Enabled(st, op)) && Next(st, op).task.LoadTask?
    ensures st.task.LoadTask? && st.task.hist == Next(st, op).task.hist && st.task.now == Next(st, op).task.now
  {
    if op.VisitNext? {
      StepNotifier(st, op);
      VisitKeepsHistory(st);
      hide Next, VisitOne;
    } else {
      StepTask(st, op);
      hide Next, Enabled, Seen, RuleList;
    }
  }

  lemma {:induction false} VisitsWhatWasRead(st0: State, ops: seq<Op>)
    requires Starts(st0) && After(st0, ops).task.LoadTask?
    ensures var task, k := After(st0, ops).task, ReadAt(st0, ops);
            k.Some? && k.value < |ops| && ops[k.value].ReadHistory? && Enabled(After(st0, ops[..k.value]), ops[k.value])
            && task.hist == ops[k.value].hist && task.now == ops[k.value].now
  {
    var pre, op := Butlast(ops), Last(ops);
    AfterLast(st0, ops);
    var st := After(st0, pre);
    if op.ReadHistory? && Enabled(st, op) {
      assert ops[..|ops| - 1] == pre;
      StepTask(st, op);
      hide Next, Enabled, After;
    } else {
      StepKeepsHistory(st, op);
      hide Next, Enabled, After;
      VisitsWhatWasRead(st0, pre);
      var k := ReadAt(st0, pre).value;
      assert ops[..k] == pre[..k] && ops[k] == pre[k];
    }
  }

  lemma SentForRule(st: State)
    requires st.task.LoadTask? && st.task.rules != []
    ensures var rule, now := st.task.rules[0], st.task.now;
            Sends(st, VisitNext)
            == if now - rule.lastNotify >= rule.intervalMin * 60
                  && LoadWanted(rule, PointsFor(st.task.hist, rule.serverUUID))
               then [LoadAlert(rule.id, now)] else []
  {
    hide LoadWanted;
  }

  lemma ReadRecent(st: State, op: Op)
    requires op.ReadHistory? && Enabled(st, op)
    ensures IsRecent(op.hist, st.stats, op.since)
  {
    hide IsRecent;
  }

  /** ... and from report to message: visiting a rule, the notifier sends its alert exactly when
      its interval is over and, when the history was read, enough of its server's minutes in the
      window averaged at or over the threshold. */
  lemma {:induction false} LoadAlertSent(st0: State, ops: seq<Op>, k: nat)
    requires Starts(st0) && WellKeyed(st0.stats)
    requires After(st0, ops).task.LoadTask? && After(st0, ops).task.rules != []
    requires ReadAt(st0, ops) == Some(k) && k < |ops| && ops[k].ReadHistory?
    ensures var rule, now := After(st0, ops).task.rules[0], ops[k].now;
            Sends(After(st0, ops), VisitNext)
            == if now - rule.lastNotify >= rule.intervalMin * 60
                  && EnoughLoaded(st0, ops[..k], rule, ops[k].since)
               then [LoadAlert(rule.id, now)] else []
  {
    var task := After(st0, ops).task;
    VisitsWhatWasRead(st0, ops);
    hide *;
    ReadRecent(After(st0, ops[..k]), ops[k]);
    LoadAlertFromReports(st0, ops[..k], task.rules[0], ops[k].since, task.hist);
    SentForRule(After(st0, ops));
  }

  // ---- The completed listing from reports ----

  /** After any run a completed entry is online exactly when its server's last report is less than
      60 s old (a server that never reported counts as seen at 0), and carries that report. */
  lemma {:induction false} ListingFromReports(st0: State, ops: seq<Op>, s: ServerAdmin, now: int)
    requires Starts(st0)
    ensures var log, hub := Log(st0, ops), After(st0, ops).hub;
            var rs, seen := ReportsOf(log, s.uuid), LastSeenOf(log, s.uuid);
            var full := Augmented(s, hub.latest, hub.lastSeen, now);
            full.uuid == s.uuid && full.row == s.row
            && full.lastSeen == (if seen.Some? then seen.value else 0)
            && (full.online <==> now - full.lastSeen < 60)
            && (seen.Some? <==> rs != [])
            && full.report == if rs != [] then Some(Last(rs)) else s.report
  {
    HubFollowsLog(st0, ops);
    RecentIsTail(Log(st0, ops), s.uuid);
    hide After, Log, Aggregation.Run, LastSeenOf, ReportsOf;
  }

  // ---- Offline alerts from reports ----

  /** On a listing completed by the hub an offline alert is wanted exactly when the server's
      last report is at least a minute and a grace period old. */
  lemma {:induction false} OfflineFromReports(st0: State, ops: seq<Op>, s: ServerAdmin, now: int)
    requires Starts(st0)
    ensures var hub, seen := After(st0, ops).hub, LastSeenOf(Log(st0, ops), s.uuid);
            OfflineWanted(Augmented(s, hub.latest, hub.lastSeen, now), now)
            <==> s.row.offlineNotify && seen.Some? && seen.value != 0
                 && now - seen.value >= 60 && now - seen.value >= s.row.offlineGrace
  {
    HubFollowsLog(st0, ops);
    RecentIsTail(Log(st0, ops), s.uuid);
    hide After, Log, Aggregation.Run, LastSeenOf;
  }

  // ---- Rankings from reports ----

  lemma {:induction false} MinuteReportsAreLogged(log: seq<Entry>, u: string, b: int, r: Report)
    requires r in InMinute(log, u, b)
    ensures exists e :: e in log && e.uuid == u && e.report == r
  {
    if Last(log).uuid == u && Bucket(Last(log).now) == b && r == Last(log).report {
      assert Last(log) in log;
    } else {
      MinuteReportsAreLogged(Butlast(log), u, b, r);
      var e :| e in Butlast(log) && e.uuid == u && e.report == r;
      assert e in log;
    }
  }

  /** Server u's agent reports loads in [0, 100] and no more used than there is, and so it did
      for what an earlier process stored. */
  ghost predicate SaneServer(t0: Table, log: seq<Entry>, u: string) {
    (forall e :: e in log && e.uuid == u ==> Sane(e.report)) && forall k :: k in t0 && k.0 == u ==> SanePoint(t0[k])
  }

  /** After any run, under any clock, every stored row of such a server is within range. */
  lemma {:induction false} EveryRowIsSane(st0: State, ops: seq<Op>, u: string, b: int)
    requires Starts(st0) && SaneServer(st0.stats, Log(st0, ops), u) && (u, b) in After(st0, ops).stats
    ensures SanePoint(After(st0, ops).stats[(u, b)])
  {
    var p, log := After(st0, ops).stats[(u, b)], Log(st0, ops);
    EveryStoredRow(st0, ops, u, b);
    if Averages(p, log, u, b) {
      var rs :| rs != [] && p == MeanRow(b, rs) && Bounded(p, rs) && forall r :: r in rs ==> r in InMinute(log, u, b);
      hide After, Log, Sane, SanePoint, MeanRow, InMinute, Bounded;
      forall r | r in rs ensures Sane(r) { MinuteReportsAreLogged(log, u, b, r); }
      SaneRow(b, rs);
    } else {
      assert (u, b).0 == u;
    }
  }

  function CpuOf(p: MinutePoint): real { p.cpu }

  function MemOf(p: MinutePoint): real { p.memPct }

  /** End to end: if its agent reports sane loads, server u's CPU and memory ranking entries
      satisfy 0 <= value <= peak <= 100, after any run, under any clock and over any window. */
  lemma {:induction false} RankingsInRange(st0: State, ops: seq<Op>, since: int, u: string)
    requires Starts(st0) && WellKeyed(st0.stats) && SaneServer(st0.stats, Log(st0, ops), u)
    ensures WellKeyed(After(st0, ops).stats)
    ensures var points := HistorySince(After(st0, ops).stats, u, since);
            var cpu, mem := Rankings.LoadItem(u, points, CpuOf), Rankings.LoadItem(u, points, MemOf);
            0.0 <= cpu.value <= cpu.peak <= 100.0 && 0.0 <= mem.value <= mem.peak <= 100.0
  {
    StatsStayKeyed(st0, ops);
    var points := HistorySince(After(st0, ops).stats, u, since);
    forall p | p in points ensures SanePoint(p) {
      assert Selected(After(st0, ops).stats, u, since, p);
      EveryRowIsSane(st0, ops, u, p.time);
    }
    hide After, Log, HistorySince, Rankings.LoadItem;
    ItemInRange(points, u, CpuOf);
    ItemInRange(points, u, MemOf);
  }

  lemma ItemInRange(points: seq<MinutePoint>, u: string, metric: MinutePoint -> real)
    requires forall p :: p in points ==> SanePoint(p)
    requires metric == CpuOf || metric == MemOf
    ensures var x := Rankings.LoadItem(u, points, metric); 0.0 <= x.value <= x.peak <= 100.0
  {
    var vals := Rankings.Values(points, metric);
    forall v | v in vals ensures 0.0 <= v <= 100.0 {
      var i :| 0 <= i < |vals| && vals[i] == v;
      assert points[i] in points;
    }
    Rankings.MeanWithinPeak(vals, 100.0);
  }
}
