/** Three alerts that are documented and not sent: when the code does what the documentation says,
    and runs from an empty database in which it does not. */
module SilentAlerts {
  import opened GoNumbers
  import opened Records
  import opened Seqs
  import opened Aggregation
  import opened MinuteTable
  import opened Storage
  import opened RealtimeHub
  import opened RateLimit
  import opened AlertRules
  import opened ServerMachine
  import opened ServerRuns
  import opened Scenarios
  import opened TrafficRuns
  import Tokens
  import opened Traffic
  import TrafficAlerts

  /** In any run that names its servers, a rule does at a check what is documented exactly when it
      names a server, or its interval is not over, or no server wants the alert. */
  lemma {:induction false} AllServersRuleIff(
      st0: State, ops: seq<Op>, rule: LoadRule, hist: History, since: int, now: int)
    requires NoEmptyId(st0) && CreatesNamed(ops) && IsRecent(hist, After(st0, ops).stats, since)
    ensures (LoadDue(rule, hist, now) <==> MeantDue(rule, hist, now))
            <==> rule.serverUUID != "" || now - rule.lastNotify < rule.intervalMin * 60
                 || forall u :: u in hist ==> !LoadWanted(rule, hist[u])
  {
    IdsStayNonEmpty(st0, ops);
    hide After, LoadWanted, LoadDue, MeantDue, IsRecent, NoEmptyId;
    NoEmptyIdInHistory(After(st0, ops), hist, since);
    LoadAsDocumentedIff(rule, hist, now);
  }

  // ---- The load rule ----

  /** All servers, CPU at 50% in half of the minutes. */
  const ALL_SERVERS := LoadRule(1, "", "cpu", 50.0, 0.5, 1, 0)

  lemma MinuteIsLoaded(r: Report, t: int, now: int)
    requires r.cpuUsage >= 50.0 && now >= 60
    ensures var hist := map["a" := [FirstMinute(r, t)]];
            MeantDue(ALL_SERVERS, hist, now) && !LoadDue(ALL_SERVERS, hist, now)
  {
    var p := FirstMinute(r, t);
    var hist := map["a" := [p]];
    assert p.cpu == r.cpuUsage;
    assert Butlast([p]) == [];
    assert CountOver([p], "cpu", 50.0) == 1;
    assert "a" in hist && LoadWanted(ALL_SERVERS, hist["a"]);
  }

  /** A check of one rule that is not due sends nothing. */
  lemma RuleNotDue(st: State, hist: History, since: int, now: int, rule: LoadRule)
    requires st.task == Idle && st.rules != map[] && IsRecent(hist, st.stats, since)
    requires RuleList(st.rules) == [rule] && !LoadDue(rule, hist, now)
    ensures After(st, LoadCheck(hist, since, now)).sent == st.sent
  {
    hide After, Next, Enabled, LoadDue, RuleList, IsRecent, LoadCheck;
    LoadCheckSteps(st, hist, since, now, rule);
    StepSends(st.(task := LoadTask([rule], hist, now)), VisitNext);
  }

  /** Over any window that reaches back to minute t, such as the code's ten minutes, all of the
      server's stored minutes are over the threshold, an alert is meant, and the check sends
      none. */
  lemma {:induction false} LoadedButSilent(r: Report, t: int, hist: History, since: int, now: int)
    requires IsMinute(t) && r.cpuUsage >= 50.0 && since <= t && now >= 60
    requires IsRecent(hist, After(EMPTY, Setup(ALL_SERVERS, r, t)).stats, since)
    ensures MeantDue(ALL_SERVERS, hist, now)
    ensures After(EMPTY, Setup(ALL_SERVERS, r, t) + LoadCheck(hist, since, now)).sent == []
  {
    assert FirstMinute(r, t).time == t;
    hide After, Setup, LoadCheck, LoadDue, MeantDue, FirstMinute, Refreshed, RuleList, IsRecent;
    SetupLeadsTo(ALL_SERVERS, r, t);
    OnlyMinute(FirstMinute(r, t), hist, since);
    MinuteIsLoaded(r, t, now);
    OneRule(ALL_SERVERS);
    AfterConcat(EMPTY, Setup(ALL_SERVERS, r, t), LoadCheck(hist, since, now));
    RuleNotDue(After(EMPTY, Setup(ALL_SERVERS, r, t)), hist, since, now, ALL_SERVERS);
  }

  // ---- The offline check ----

  /** The offline check of the code, on the table's own listing. */
  function OfflineCheck(list: seq<ServerAdmin>, now: int): seq<Op> { [ListOffline(list, map[], now)] + [VisitNext] }

  lemma UnseenNotDue(st: State, list: seq<ServerAdmin>, now: int)
    requires st.task == Idle && IsListing(list, st.servers)
    ensures After(st, OfflineCheck(list, now)).sent == st.sent
  {
    var list' := ListOffline(list, map[], now);
    var st', full := Next(st, list'), Seen(list, map[], now);
    StepNotifier(st, list');
    StepSends(st', VisitNext);
    assert st' == st.(task := OfflineTask(full, now));
    assert full != [] ==> full[0].lastSeen == 0;
    AfterOne(st, list');
    RunExtend(st, [list'], VisitNext);
    hide After, Next, Enabled, Seen;
  }

  /** The only server is listed once, silent for long, and not cooling down. */
  lemma WantedOnCompleted(list: seq<ServerAdmin>, row: ServerRow, latest: map<string, Report>, seen: int, now: int)
    requires IsListing(list, map["a" := row])
    requires row.offlineNotify && row.offlineGrace == 60 && row.lastOfflineNotify == 0
    requires seen > 0 && now >= seen + 1800
    ensures OfflineAlerts(AugmentedAll(list, latest, map["a" := seen], now), now) != []
  {
    assert "a" in map["a" := row];
    var i :| 0 <= i < |list| && list[i].uuid == "a";
    var full := AugmentedAll(list, latest, map["a" := seen], now);
    NoAlertIff(full, now);
    assert OfflineDue(full[i], now);
  }

  /** Half an hour after the last report the completed listing wants an alert, and the check that
      the code runs sends none. */
  lemma {:induction false} OfflineButSilent(r: Report, t: int, list: seq<ServerAdmin>, now: int)
    requires IsMinute(t) && now >= t + 61 + 1800
    requires IsListing(list, After(EMPTY, Setup(ALL_SERVERS, r, t)).servers)
    ensures var hub := After(EMPTY, Setup(ALL_SERVERS, r, t)).hub;
            OfflineAlerts(AugmentedAll(list, hub.latest, hub.lastSeen, now), now) != []
    ensures After(EMPTY, Setup(ALL_SERVERS, r, t) + OfflineCheck(list, now)).sent == []
  {
    var st := After(EMPTY, Setup(ALL_SERVERS, r, t));
    SetupLeadsTo(ALL_SERVERS, r, t);
    WantedOnCompleted(list, Refreshed(Refreshed(NEW_ROW, 0, r), 0, r), st.hub.latest, t + 61, now);
    hide After, Setup, OfflineCheck, IsListing, OfflineAlerts, AugmentedAll;
    AfterConcat(EMPTY, Setup(ALL_SERVERS, r, t), OfflineCheck(list, now));
    UnseenNotDue(st, list, now);
  }

  // ---- The level left over from last month ----

  /** A limit of 100 bytes, counted downwards. */
  const LIMITED := Settings("n", 0, 100, "down", true, 60)

  /** A report that has counted so many bytes. */
  function Counts(total: uint64): Report { Report(0.0, 0, 0, 0, 0, 0, 0, total, 0, 0.0, 0, 0) }

  /** The listing of the only server. */
  function ListingOf(row: ServerRow): seq<ServerAdmin> { [ServerAdmin("a", row, false, 0, None)] }

  lemma IsListed(row: ServerRow)
    ensures IsListing(ListingOf(row), map["a" := row])
  {
    assert ListingOf(row)[0].uuid == "a";
  }

  /** The traffic check at a threshold of 80%. */
  function TrafficCheck(row: ServerRow): seq<Op> { [ListTraffic(ListingOf(row), 80)] + [VisitNext] + [VisitNext] }

  /** The three steps of the traffic check of one server. */
  lemma TrafficCheckSteps(st: State, row: ServerRow)
    requires st.task == Idle && st.servers == map["a" := row]
    ensures After(st, TrafficCheck(row)) == VisitOne(VisitOne(st.(task := TrafficTask(ListingOf(row), 80))))
  {
    var op := ListTraffic(ListingOf(row), 80);
    var st1 := st.(task := TrafficTask(ListingOf(row), 80));
    IsListed(row);
    hide VisitOne, IsListing, After;
    StepNotifier(st, op);
    assert Next(st, op) == st1;
    StepNotifier(st1, VisitNext);
    StepNotifier(VisitOne(st1), VisitNext);
    AfterOne(st, op);
    RunExtend(st, [op], VisitNext);
    RunExtend(st, [op] + [VisitNext], VisitNext);
    hide Next, Enabled;
  }

  lemma TrafficChecked(st: State, row: ServerRow)
    requires st.task == Idle && st.servers == map["a" := row]
    ensures After(st, TrafficCheck(row))
         == st.(sent := st.sent + TrafficSends(st.trafficState, ListingOf(row)[0], st.hub.latest, 80),
                trafficState := TrafficMoves(st.trafficState, ListingOf(row)[0], st.hub.latest, 80))
  {
    assert ListingOf(row)[1..] == [];
    hide After, TrafficSends, TrafficMoves, TrafficCheck;
    TrafficCheckSteps(st, row);
  }

  lemma PctOfCount(row: ServerRow, total: uint64)
    requires row.trafficType == "down" && row.trafficLimit == 100 && row.monthlyBaseIn <= total < 1000
    ensures TrafficPct(ListingOf(row)[0], Counts(total)) == total - row.monthlyBaseIn
  {
    PctOfMonth(ListingOf(row)[0], row, Counts(total));
  }

  /** In month 0 the server counts 82 bytes and is checked. */
  function FirstMonth(): seq<Op> {
    [CREATE] + [Configure("a", LIMITED)] + Reporting(Counts(0), 0, 0) + Reporting(Counts(82), 0, 0)
    + TrafficCheck(Refreshed(Configured(NEW_ROW, LIMITED), 0, Counts(0)))
  }

  /** In month 1 it counts 81 more and is checked again. */
  function SecondMonth(): seq<Op> {
    Reporting(Counts(100), 1, 0) + Reporting(Counts(181), 1, 0)
    + TrafficCheck(Refreshed(Configured(NEW_ROW, LIMITED), 1, Counts(100)))
  }

  /** One report of the server, seen from outside the hub. */
  lemma OneReport(st: State, row: ServerRow, month: int, r: Report)
    requires 0 !in st.handlers && st.servers == map["a" := row] && row.token == "t"
    ensures var st' := After(st, Reporting(r, month, 0));
            st'.servers == map["a" := Refreshed(row, month, r)] && "a" in st'.hub.latest && st'.hub.latest["a"] == r
            && st'.handlers == st.handlers && st'.task == st.task && st'.trafficState == st.trafficState
            && st'.sent == st.sent
  {
    hide After, Reporting, SaveFlushes, Flushed, NextRing, Refreshed;
    Reported(st, r, month, 0);
  }

  /** After two reports of one month the first one is the base. */
  lemma TwoReports(st: State, row: ServerRow, month: int, first: uint64, second: uint64)
    requires 0 !in st.handlers && st.servers == map["a" := row] && row.token == "t"
    requires row.monthlyReset != Some(month)
    ensures var st' := After(st, Reporting(Counts(first), month, 0) + Reporting(Counts(second), month, 0));
            st'.servers == map["a" := Refreshed(row, month, Counts(first))]
            && "a" in st'.hub.latest && st'.hub.latest["a"] == Counts(second)
            && st'.handlers == st.handlers && st'.task == st.task && st'.trafficState == st.trafficState
            && st'.sent == st.sent
  {
    var one, two := Reporting(Counts(first), month, 0), Reporting(Counts(second), month, 0);
    var row' := Refreshed(row, month, Counts(first));
    assert Refreshed(row', month, Counts(second)) == row' && row'.token == "t";
    hide After, Reporting, Refreshed, Counts;
    AfterConcat(st, one, two);
    OneReport(st, row, month, Counts(first));
    OneReport(After(st, one), row', month, Counts(second));
  }

  lemma ConfiguredA()
    ensures After(EMPTY, [CREATE] + [Configure("a", LIMITED)])
         == EMPTY.(servers := map["a" := Configured(NEW_ROW, LIMITED)])
  {
    Created();
    RunExtend(EMPTY, [CREATE], Configure("a", LIMITED));
    hide After;
  }

  lemma FirstMonthAlerts()
    ensures var st := After(EMPTY, FirstMonth());
            st.servers == map["a" := Refreshed(Configured(NEW_ROW, LIMITED), 0, Counts(0))] && st.handlers == map[]
            && st.task == Idle && st.sent == [TrafficAlert("a", 82)] && st.trafficState == map["a" := 16]
  {
    var row := Refreshed(Configured(NEW_ROW, LIMITED), 0, Counts(0));
    var setup := [CREATE] + [Configure("a", LIMITED)];
    var reports := Reporting(Counts(0), 0, 0) + Reporting(Counts(82), 0, 0);
    assert FirstMonth() == setup + reports + TrafficCheck(row);
    ConfiguredA();
    PctOfCount(row, 82);
    assert TrafficAlerts.Level(82) == 16;
    hide After, Reporting, TrafficCheck, TrafficPct, FirstMonth;
    AfterConcat(EMPTY, setup, reports);
    AfterConcat(EMPTY, setup + reports, TrafficCheck(row));
    TwoReports(After(EMPTY, setup), Configured(NEW_ROW, LIMITED), 0, 0, 82);
    TrafficChecked(After(EMPTY, setup + reports), row);
  }

  /** The month's first visit over the threshold finds 81%, and sends nothing: the level 16 was
      left over from the month before. */
  lemma {:induction false} StaleLevelSilences()
    ensures After(EMPTY, FirstMonth()).sent == [TrafficAlert("a", 82)]
    ensures After(EMPTY, FirstMonth() + SecondMonth()).sent == [TrafficAlert("a", 82)]
    ensures var row := Refreshed(Configured(NEW_ROW, LIMITED), 1, Counts(100));
            var st := After(EMPTY, FirstMonth() + (Reporting(Counts(100), 1, 0) + Reporting(Counts(181), 1, 0)));
            st.servers == map["a" := row] && "a" in st.hub.latest
            && TrafficPct(ListingOf(row)[0], st.hub.latest["a"]) == 81
  {
    var first := Refreshed(Configured(NEW_ROW, LIMITED), 0, Counts(0));
    var row := Refreshed(Configured(NEW_ROW, LIMITED), 1, Counts(100));
    var reports := Reporting(Counts(100), 1, 0) + Reporting(Counts(181), 1, 0);
    assert FirstMonth() + SecondMonth() == FirstMonth() + reports + TrafficCheck(row);
    assert Refreshed(first, 1, Counts(100)) == row;
    PctOfCount(row, 181);
    assert TrafficAlerts.Level(81) == 16;
    FirstMonthAlerts();
    hide After, Reporting, TrafficCheck, TrafficPct, FirstMonth, SecondMonth;
    AfterConcat(EMPTY, FirstMonth(), reports);
    AfterConcat(EMPTY, FirstMonth() + reports, TrafficCheck(row));
    TwoReports(After(EMPTY, FirstMonth()), first, 1, 100, 181);
    TrafficChecked(After(EMPTY, FirstMonth() + reports), row);
  }
}
