/** The traffic alerts of whole runs: reports, listings and visits interleaved. */
module TrafficRuns {
  import opened GoNumbers
  import opened Records
  import opened Seqs
  import opened Arithmetic
  import opened Aggregation
  import opened Storage
  import opened RealtimeHub
  import opened Traffic
  import opened TrafficAlerts
  import opened AlertRules
  import opened ServerMachine
  import opened ServerRuns
  import opened AlertRuns
  import Tokens

  // ---- Alerts and levels follow the percentages visited ----

  function TrafficPctOf(u: string): Alert -> seq<int> {
    (a: Alert) => if a.TrafficAlert? && a.uuid == u then [a.pct] else []
  }

  /** The percentages of the traffic alerts for server u. */
  function TrafficPcts(sent: seq<Alert>, u: string): seq<int> { FlatMap(sent, TrafficPctOf(u)) }

  /** The traffic check visits server u in this step, and finds a limit and a report. */
  predicate VisitsTraffic(st: State, op: Op, u: string) {
    op.VisitNext? && st.task.TrafficTask? && st.task.traffic != [] && st.task.traffic[0].uuid == u
    && st.task.traffic[0].row.trafficLimit > 0 && u in st.hub.latest
  }

  /** The percentage it finds. */
  function TrafficVisitOf(st: State, op: Op, u: string): seq<int> {
    if VisitsTraffic(st, op, u) then [TrafficPct(st.task.traffic[0], st.hub.latest[u])] else []
  }

  ghost function TrafficVisits(st0: State, ops: seq<Op>, u: string): seq<int> {
    if ops == [] then []
    else TrafficVisits(st0, Butlast(ops), u) + TrafficVisitOf(After(st0, Butlast(ops)), Last(ops), u)
  }

  /** The threshold is not changed during the run. */
  predicate OneThreshold(ops: seq<Op>, threshold: int) {
    forall i :: 0 <= i < |ops| && ops[i].ListTraffic? ==> ops[i].threshold == threshold
  }

  predicate TaskThreshold(task: Task, threshold: int) { task.TrafficTask? ==> task.threshold == threshold }

  /** One visit moves the level of the server visited, and alerts, as the band rule says. */
  lemma VisitMoves(state: map<string, int>, s: ServerAdmin, latest: map<string, Report>, u: string, threshold: int)
    ensures var level := RecordedLevel(state, u);
            if s.uuid == u && Checked(s, latest)
            then RecordedLevel(TrafficMoves(state, s, latest, threshold), u)
                 == Record(level, TrafficPct(s, latest[u]), threshold)
                 && TrafficPcts(TrafficSends(state, s, latest, threshold), u)
                    == if Alerts(level, TrafficPct(s, latest[u]), threshold) then [TrafficPct(s, latest[u])] else []
            else RecordedLevel(TrafficMoves(state, s, latest, threshold), u) == level
                 && TrafficPcts(TrafficSends(state, s, latest, threshold), u) == []
  {
    FlatMapSmall(TrafficSends(state, s, latest, threshold), TrafficPctOf(u));
    hide TrafficPct, Level;
  }

  lemma OtherVisits(st: State, u: string)
    requires st.task.TrafficTask? ==> st.task.traffic == []
    ensures TrafficPcts(Sends(st, VisitNext), u) == []
    ensures VisitOne(st).trafficState == st.trafficState && !VisitOne(st).task.TrafficTask?
  {
    FlatMapSmall(Sends(st, VisitNext), TrafficPctOf(u));
    hide OfflineDue, LoadDue, MarkServer, MarkRule;
  }

  lemma VisitSendsTraffic(st: State, u: string, threshold: int)
    requires TaskThreshold(st.task, threshold)
    ensures var ps, level := TrafficVisitOf(st, VisitNext, u), RecordedLevel(st.trafficState, u);
            TaskThreshold(VisitOne(st).task, threshold)
            && RecordedLevel(VisitOne(st).trafficState, u)
               == (if ps == [] then level else Record(level, ps[0], threshold))
            && TrafficPcts(Sends(st, VisitNext), u) == if ps != [] && Alerts(level, ps[0], threshold) then ps else []
  {
    if st.task.TrafficTask? && st.task.traffic != [] {
      VisitMoves(st.trafficState, st.task.traffic[0], st.hub.latest, u, threshold);
      hide TrafficSends, TrafficMoves, TrafficPcts, Checked, TrafficPct, Alerts, Record, RecordedLevel;
    } else {
      OtherVisits(st, u);
      hide VisitOne, Sends, TrafficPcts, Checked, TrafficPct, RecordedLevel;
    }
  }

  lemma TrafficStep(st: State, op: Op, u: string, threshold: int)
    requires TaskThreshold(st.task, threshold) && (op.ListTraffic? ==> op.threshold == threshold)
    ensures var ps, level := TrafficVisitOf(st, op, u), RecordedLevel(st.trafficState, u);
            TaskThreshold(Next(st, op).task, threshold)
            && RecordedLevel(Next(st, op).trafficState, u)
               == (if ps == [] then level else Record(level, ps[0], threshold))
            && TrafficPcts(Sends(st, op), u) == if ps != [] && Alerts(level, ps[0], threshold) then ps else []
  {
    StepNotifier(st, op);
    if op.VisitNext? {
      VisitSendsTraffic(st, u, threshold);
      hide Next, VisitOne, Sends, TrafficPcts, Alerts, Record, TrafficPct;
    } else {
      FlatMapSmall(Sends(st, op), TrafficPctOf(u));
      StepTask(st, op);
      hide Next, Enabled, Seen, RuleList, ExpiringOf, Record, Alerts;
    }
  }

  /** The recorded level and the alerts sent for u follow the percentages visited. */
  ghost predicate TrafficFollows(st0: State, ops: seq<Op>, u: string, threshold: int) {
    var st, pcts, start := After(st0, ops), TrafficVisits(st0, ops, u), RecordedLevel(st0.trafficState, u);
    TaskThreshold(st.task, threshold)
    && RecordedLevel(st.trafficState, u) == RecordAfter(start, pcts, threshold)
    && TrafficPcts(st.sent, u) == TrafficPcts(st0.sent, u) + Announced(start, pcts, threshold)
  }

  lemma AnnouncedStep(start: Option<int>, pcts: seq<int>, last: seq<int>, threshold: int)
    requires |last| <= 1
    ensures var level := RecordAfter(start, pcts, threshold);
            RecordAfter(start, pcts + last, threshold)
            == (if last == [] then level else Record(level, last[0], threshold))
            && Announced(start, pcts + last, threshold)
               == Announced(start, pcts, threshold)
                  + if last != [] && Alerts(level, last[0], threshold) then last else []
  {
    hide Level;
    if last == [] {
      assert pcts + last == pcts;
    } else {
      assert last == [last[0]] && Butlast(pcts + last) == pcts;
    }
  }

  lemma TrafficVisitsLast(st0: State, ops: seq<Op>, u: string)
    requires ops != []
    ensures TrafficVisits(st0, ops, u)
         == TrafficVisits(st0, Butlast(ops), u) + TrafficVisitOf(After(st0, Butlast(ops)), Last(ops), u)
    ensures |TrafficVisitOf(After(st0, Butlast(ops)), Last(ops), u)| <= 1
  {
    hide After, TrafficPct;
  }

  lemma {:induction false} TrafficFollowsVisits(st0: State, ops: seq<Op>, u: string, threshold: int)
    requires TaskThreshold(st0.task, threshold) && OneThreshold(ops, threshold)
    ensures TrafficFollows(st0, ops, u, threshold)
  {
    if ops == [] {
    } else {
      var pre, op, start := Butlast(ops), Last(ops), RecordedLevel(st0.trafficState, u);
      var st, pcts := After(st0, pre), TrafficVisits(st0, pre, u);
      TrafficFollowsVisits(st0, pre, u, threshold);
      AfterLast(st0, ops);
      TrafficVisitsLast(st0, ops, u);
      hide After, Next, TrafficVisits, TrafficVisitOf, Sends, TrafficPcts, Announced, RecordAfter, Alerts, Record;
      hide TaskThreshold, RecordedLevel;
      TrafficStep(st, op, u, threshold);
      StepSends(st, op);
      FlatMapConcat(st.sent, Sends(st, op), TrafficPctOf(u));
      AnnouncedStep(start, pcts, TrafficVisitOf(st, op, u), threshold);
      Regroup(TrafficPcts(st0.sent, u), Announced(start, pcts, threshold), TrafficPcts(Sends(st, op), u));
    }
  }

  // ---- One month ----

  /** Every column the traffic arithmetic reads. */
  ghost predicate SameBilling(a: ServerRow, b: ServerRow) {
    SameBase(a, b) && a.trafficType == b.trafficType && a.trafficLimit == b.trafficLimit
  }

  function Counted(row: ServerRow, r: Report): int { Metered(row.trafficType, r.netTotalIn, r.netTotalOut) - Base(row) }

  /** The difference to the base, and the percentage of it, can be computed in 64 bits. */
  predicate Fits(row: ServerRow, r: Report) { -TWO_63 <= Counted(row, r) && Counted(row, r) * 100 < TWO_63 }

  predicate GrewFrom(a: Report, b: Report) { a.netTotalIn <= b.netTotalIn && a.netTotalOut <= b.netTotalOut }

  /** What is shown for a report of the month: the traffic since the base as a percentage of the
      limit, rounded down. */
  lemma PctOfMonth(s: ServerAdmin, row: ServerRow, r: Report)
    requires SameBilling(s.row, row) && row.trafficLimit > 0 && Fits(row, r)
    ensures TrafficPct(s, r) == Clamp(Counted(row, r)) * 100 / row.trafficLimit
  {
    UsedExactIff(s.row, r.netTotalIn, r.netTotalOut);
    PctExactIff(Used(s.row, r.netTotalIn, r.netTotalOut), s.row.trafficLimit);
    hide Used, Pct, Metered;
  }

  lemma PctGrows(row: ServerRow, a: Report, b: Report)
    requires row.trafficLimit > 0 && GrewFrom(a, b)
    ensures Clamp(Counted(row, a)) * 100 / row.trafficLimit <= Clamp(Counted(row, b)) * 100 / row.trafficLimit
  {
    MeterMonotone(row.trafficType, Meter(0, a.netTotalIn, a.netTotalOut), Meter(0, b.netTotalIn, b.netTotalOut));
    DivMonotone(Clamp(Counted(row, a)) * 100, Clamp(Counted(row, b)) * 100, row.trafficLimit);
  }

  /** The step stays within the month of server u: it is not deleted nor configured anew, no call
      finds another month, and a report it brings has grown and fits. */
  predicate InMonth(st: State, op: Op, row: ServerRow, u: string) {
    match op
    case Admin(a) => a != Tokens.Delete(u)
    case Configure(v, _) => v != u
    case ReadBase(c, month) => c in st.handlers && st.handlers[c].uuid == u ==> row.monthlyReset == Some(month)
    case Ingest(c) =>
      c in st.handlers && st.handlers[c].uuid == u ==>
        Fits(row, st.handlers[c].report)
        && (u in st.hub.latest ==> GrewFrom(st.hub.latest[u], st.handlers[c].report))
    case _ => true
  }

  ghost predicate Month(st0: State, ops: seq<Op>, row: ServerRow, u: string) {
    ops == [] || (Month(st0, Butlast(ops), row, u) && InMonth(After(st0, Butlast(ops)), Last(ops), row, u))
  }

  ghost predicate ListedWith(task: Task, row: ServerRow, u: string) {
    task.TrafficTask? ==>
      forall i :: 0 <= i < |task.traffic| && task.traffic[i].uuid == u ==> SameBilling(task.traffic[i].row, row)
  }

  predicate NoneRebases(handlers: map<int, Handler>, u: string) {
    forall c :: c in handlers && handlers[c].uuid == u ==> !handlers[c].Rebasing?
  }

  ghost predicate BilledAs(servers: Servers, row: ServerRow, u: string) { u in servers && SameBilling(servers[u], row) }

  /** Within the month: the base and the limit are those of `row`, no call is about to move
      them, and the latest report fits. */
  ghost predicate Settled(st: State, row: ServerRow, u: string) {
    && BilledAs(st.servers, row, u) && NoneRebases(st.handlers, u) && ListedWith(st.task, row, u)
    && (u in st.hub.latest ==> Fits(row, st.hub.latest[u]))
  }

  lemma BillingKept(st: State, op: Op, row: ServerRow, u: string)
    requires BilledAs(st.servers, row, u) && NoneRebases(st.handlers, u) && InMonth(st, op, row, u)
    ensures BilledAs(Next(st, op).servers, row, u)
  {
    StepServers(st, op);
    VisitKeepsColumns(st);
    hide Next, Enabled, VisitOne, Fits;
  }

  lemma NoneStartsToRebase(st: State, op: Op, row: ServerRow, u: string)
    requires BilledAs(st.servers, row, u) && NoneRebases(st.handlers, u) && InMonth(st, op, row, u)
    ensures NoneRebases(Next(st, op).handlers, u)
  {
    StepHandlers(st, op);
    hide Next, Enabled, Fits;
  }

  lemma VisitKeepsListed(st: State, row: ServerRow, u: string)
    requires ListedWith(st.task, row, u)
    ensures ListedWith(VisitOne(st).task, row, u)
  {
    hide SameBilling, OfflineSends, RuleSends, TrafficSends, TrafficMoves, MarkServer, MarkRule;
  }

  lemma ListedStays(st: State, op: Op, row: ServerRow, u: string)
    requires BilledAs(st.servers, row, u) && ListedWith(st.task, row, u)
    ensures ListedWith(Next(st, op).task, row, u)
  {
    if op.VisitNext? {
      StepNotifier(st, op);
      VisitKeepsListed(st, row, u);
      hide Next, VisitOne, ListedWith;
    } else {
      StepTask(st, op);
      hide Next, Seen, RuleList, SameBilling;
    }
  }

  lemma LatestGrows(st: State, op: Op, row: ServerRow, u: string)
    requires InMonth(st, op, row, u) && (u in st.hub.latest ==> Fits(row, st.hub.latest[u]))
    ensures var latest := Next(st, op).hub.latest;
            (u in st.hub.latest ==> u in latest && GrewFrom(st.hub.latest[u], latest[u]))
            && (u in latest ==> Fits(row, latest[u]))
  {
    StepHub(st, op);
    hide Next, Fits, NextRing;
  }

  // ---- Its percentages ----

  function MonthPct(row: ServerRow, r: Report): int
    requires row.trafficLimit > 0
  {
    Clamp(Counted(row, r)) * 100 / row.trafficLimit
  }

  /** What has been visited rises up to the latest report. */
  ghost predicate PctsRise(st: State, row: ServerRow, u: string, pcts: seq<int>)
    requires row.trafficLimit > 0
  {
    Rising(pcts)
    && (pcts != [] ==> u in st.hub.latest && forall i :: 0 <= i < |pcts| ==> pcts[i] <= MonthPct(row, st.hub.latest[u]))
  }

  lemma VisitInMonth(st: State, op: Op, row: ServerRow, u: string)
    requires Settled(st, row, u) && row.trafficLimit > 0
    ensures VisitsTraffic(st, op, u) ==>
              u in st.hub.latest && TrafficVisitOf(st, op, u) == [MonthPct(row, st.hub.latest[u])]
  {
    if VisitsTraffic(st, op, u) {
      PctOfMonth(st.task.traffic[0], row, st.hub.latest[u]);
      hide TrafficPct, SameBilling, Fits, MonthPct;
    }
  }

  lemma PctsRiseStep(st: State, op: Op, row: ServerRow, u: string, pcts: seq<int>)
    requires Settled(st, row, u) && InMonth(st, op, row, u) && row.trafficLimit > 0 && PctsRise(st, row, u, pcts)
    ensures PctsRise(Next(st, op), row, u, pcts + TrafficVisitOf(st, op, u))
  {
    var st', last := Next(st, op), TrafficVisitOf(st, op, u);
    VisitInMonth(st, op, row, u);
    LatestGrows(st, op, row, u);
    if u in st.hub.latest { PctGrows(row, st.hub.latest[u], st'.hub.latest[u]); }
    hide Next, Settled, InMonth, Fits, MonthPct, TrafficPct, Checked, Counted;
    assert last == [] ==> pcts + last == pcts;
  }

  lemma {:induction false} MonthStaysSettled(st0: State, ops: seq<Op>, row: ServerRow, u: string)
    requires Settled(st0, row, u) && row.trafficLimit > 0 && Month(st0, ops, row, u)
    ensures Settled(After(st0, ops), row, u)
    ensures PctsRise(After(st0, ops), row, u, TrafficVisits(st0, ops, u))
  {
    if ops == [] {
      assert After(st0, ops) == st0 && TrafficVisits(st0, ops, u) == [];
      hide After, Settled;
    } else {
      var st, op := After(st0, Butlast(ops)), Last(ops);
      MonthStaysSettled(st0, Butlast(ops), row, u);
      BillingKept(st, op, row, u);
      NoneStartsToRebase(st, op, row, u);
      ListedStays(st, op, row, u);
      LatestGrows(st, op, row, u);
      PctsRiseStep(st, op, row, u, TrafficVisits(st0, Butlast(ops), u));
      AfterLast(st0, ops);
      TrafficVisitsLast(st0, ops, u);
      hide After, Next, TrafficVisits, InMonth, BilledAs, NoneRebases, ListedWith, PctsRise, Fits;
    }
  }

  /** End to end, within a month: from any state in which the month's base is set, while the server
      is not configured anew and its counters grow, whatever listings, visits, reports and other
      servers come in between, each visit finds the month's traffic as a percentage of the limit,
      rounded down; and the alerts sent announce the bands found at or over the threshold in
      rising order, each once, all but the first when it is the level left over from before. */
  lemma {:induction false} TrafficAlertsOfMonth(st0: State, ops: seq<Op>, u: string, threshold: int, level: int)
    requires u in st0.servers && Settled(st0, st0.servers[u], u) && st0.servers[u].trafficLimit > 0
    requires Month(st0, ops, st0.servers[u], u)
    requires threshold > 0 && TaskThreshold(st0.task, threshold) && OneThreshold(ops, threshold)
    ensures var pcts, start := TrafficVisits(st0, ops, u), RecordedLevel(st0.trafficState, u);
            var alerted := Announced(start, pcts, threshold);
            TrafficPcts(After(st0, ops).sent, u) == TrafficPcts(st0.sent, u) + alerted
            && LevelsAscend(alerted)
            && (Announces(alerted, level)
                <==> Reaches(pcts, threshold, level) && !(start == Some(level) && ReachesFirst(pcts, threshold, level)))
    ensures var row, st := st0.servers[u], After(st0, ops);
            VisitsTraffic(st, VisitNext, u) ==>
              u in st.hub.latest && TrafficVisitOf(st, VisitNext, u) == [MonthPct(row, st.hub.latest[u])]
  {
    var row, start, pcts := st0.servers[u], RecordedLevel(st0.trafficState, u), TrafficVisits(st0, ops, u);
    MonthStaysSettled(st0, ops, row, u);
    TrafficFollowsVisits(st0, ops, u, threshold);
    hide After, TrafficVisits, Settled, Announced, Month, LevelsAscend, Announces, Reaches, ReachesFirst, MonthPct;
    VisitInMonth(After(st0, ops), VisitNext, row, u);
    BandsAnnounced(start, pcts, threshold, level);
  }
}
