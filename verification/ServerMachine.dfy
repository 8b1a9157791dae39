/** The running server as one state machine. Report handlers, administration, the notifier and
    the pruner run concurrently; a step is what one of them does between two points where
    another may come in: a query (the two of a token lookup together), a statement under the
    store's lock, a reading of the clock, or a locked section of the hub. An operation that does
    not fit a state leaves it as it is, so every sequence of operations is a run. */
module ServerMachine {
  import opened GoNumbers
  import opened Records
  import opened Seqs
  import opened Aggregation
  import opened MinuteTable
  import opened Storage
  import opened RealtimeHub
  import opened AlertRules
  import Tokens
  import Traffic
  import TrafficAlerts

  /** Where the handler of one report is: its token was found; it read another month and will
      write its totals as the base; the base is settled and the clock comes next; the time is
      taken and the hub comes next. */
  datatype Handler =
    | Accepted(uuid: string, report: Report)
    | Rebasing(uuid: string, report: Report, month: int)
    | Recorded(uuid: string, report: Report)
    | Timed(uuid: string, report: Report, now: int)

  /** What the notifier has listed and not yet visited; the load check lists its rules and then
      reads the history. */
  datatype Task =
    | Idle
    | RulesTask(rules: seq<LoadRule>)
    | OfflineTask(offline: seq<ServerAdmin>, now: int)
    | LoadTask(rules: seq<LoadRule>, hist: History, now: int)
    | TrafficTask(traffic: seq<ServerAdmin>, threshold: int)

  /** The tables, the hub, the reports being handled, and the notifier with what it has sent. */
  datatype State = State(
    servers: Servers, stats: Table, rules: map<int, LoadRule>, expiryDay: Option<int>,
    hub: HubView, handlers: map<int, Handler>,
    task: Task, trafficState: map<string, int>, sent: seq<Alert>)

  /** What an administrator may change of a server. */
  datatype Settings = Settings(
    name: string, expiredAt: int64, trafficLimit: int64, trafficType: string, offlineNotify: bool, offlineGrace: int)

  datatype Op =
    | Admin(op: Tokens.Op)
    | Configure(uuid: string, settings: Settings)
    | CreateRule(rule: LoadRule)
    | UpdateRule(rule: LoadRule)
    | DeleteRule(id: int)
    | Prune(keepDays: int, now: int)
    | LookUp(call: int, token: string, report: Report, found: Option<string>)
    | ReadBase(call: int, month: int)
    | WriteBase(call: int)
    | ReadClock(call: int, now: int)
    | Ingest(call: int)
    | ListOffline(list: seq<ServerAdmin>, seen: map<string, int>, now: int)
    | ListRules
    | ReadHistory(hist: History, since: int, now: int)
    | ListTraffic(list: seq<ServerAdmin>, threshold: int)
    | VisitNext
    | CheckExpiry(list: seq<ServerAdmin>, days: int, now: int, day: int)

  function Configured(row: ServerRow, c: Settings): ServerRow {
    row.(name := c.name, expiredAt := c.expiredAt, trafficLimit := c.trafficLimit, trafficType := c.trafficType,
         offlineNotify := c.offlineNotify, offlineGrace := c.offlineGrace)
  }

  function WithoutServer(t: Table, u: string): Table { map k | k in t && k.0 != u :: t[k] }

  function WithoutRules(rules: map<int, LoadRule>, u: string): map<int, LoadRule> {
    map i | i in rules && rules[i].serverUUID != u :: rules[i]
  }

  /** A listing with last-seen times: the code's own carries none. */
  function Seen(list: seq<ServerAdmin>, seen: map<string, int>, now: int): seq<ServerAdmin> {
    AugmentedAll(list, map[], seen, now)
  }

  /** The notifier is one goroutine, so a check begins when the last one has ended. */
  ghost predicate Enabled(st: State, op: Op) {
    match op
    case Admin(_) => true
    case Configure(u, c) => u in st.servers && c.name != ""
    case CreateRule(rule) => rule.id !in st.rules && rule.lastNotify == 0
    case UpdateRule(rule) => rule.id in st.rules
    case DeleteRule(_) => true
    case Prune(_, _) => true
    case LookUp(c, tok, _, found) => c !in st.handlers && Tokens.IsLookup(st.servers, tok, found)
    case ReadBase(c, _) => c in st.handlers && st.handlers[c].Accepted?
    case WriteBase(c) => c in st.handlers && st.handlers[c].Rebasing?
    case ReadClock(c, _) => c in st.handlers && st.handlers[c].Recorded?
    case Ingest(c) => c in st.handlers && st.handlers[c].Timed?
    case ListOffline(list, _, _) => st.task.Idle? && IsListing(list, st.servers)
    case ListRules => st.task.Idle? && st.rules != map[]
    case ReadHistory(hist, since, _) => st.task.RulesTask? && IsRecent(hist, st.stats, since)
    case ListTraffic(list, threshold) => st.task.Idle? && threshold > 0 && IsListing(list, st.servers)
    case VisitNext => !st.task.Idle? && !st.task.RulesTask?
    case CheckExpiry(list, days, _, _) => st.task.Idle? && days > 0 && IsListing(list, st.servers)
  }

  function MarkServer(servers: Servers, u: string, now: int): Servers {
    if u in servers then servers[u := servers[u].(lastOfflineNotify := now)] else servers
  }

  function MarkRule(rules: map<int, LoadRule>, id: int, now: int): map<int, LoadRule> {
    if id in rules then rules[id := rules[id].(lastNotify := now)] else rules
  }

  function RebaseServer(servers: Servers, u: string, month: int, r: Report): Servers {
    if u in servers then servers[u := Traffic.Rebase(servers[u], month, r.netTotalIn, r.netTotalOut)] else servers
  }

  // ---- One loop iteration of a check ----

  function OfflineSends(s: ServerAdmin, now: int): seq<Alert> {
    if OfflineDue(s, now) then [OfflineAlert(s.uuid, now)] else []
  }

  function VisitOffline(st: State, todo: seq<ServerAdmin>, now: int): (r: State)
    requires todo != []
    ensures r == st.(task := r.task, sent := r.sent, servers := r.servers)
  {
    st.(task := OfflineTask(todo[1..], now), sent := st.sent + OfflineSends(todo[0], now),
        servers := if OfflineDue(todo[0], now) then MarkServer(st.servers, todo[0].uuid, now) else st.servers)
  }

  function RuleSends(rule: LoadRule, hist: History, now: int): seq<Alert> {
    if LoadDue(rule, hist, now) then [LoadAlert(rule.id, now)] else []
  }

  function VisitRule(st: State, todo: seq<LoadRule>, hist: History, now: int): (r: State)
    requires todo != []
    ensures r == st.(task := r.task, sent := r.sent, rules := r.rules)
  {
    st.(task := LoadTask(todo[1..], hist, now), sent := st.sent + RuleSends(todo[0], hist, now),
        rules := if LoadDue(todo[0], hist, now) then MarkRule(st.rules, todo[0].id, now) else st.rules)
  }

  function TrafficSends(
      state: map<string, int>, s: ServerAdmin, latest: map<string, Report>, threshold: int): seq<Alert>
  {
    if Checked(s, latest)
       && TrafficAlerts.Alerts(RecordedLevel(state, s.uuid), TrafficPct(s, latest[s.uuid]), threshold)
    then [TrafficAlert(s.uuid, TrafficPct(s, latest[s.uuid]))] else []
  }

  function TrafficMoves(
      state: map<string, int>, s: ServerAdmin, latest: map<string, Report>, threshold: int): map<string, int>
  {
    if Checked(s, latest) && TrafficPct(s, latest[s.uuid]) >= threshold
    then state[s.uuid := TrafficAlerts.Level(TrafficPct(s, latest[s.uuid]))] else state
  }

  function VisitTraffic(st: State, todo: seq<ServerAdmin>, threshold: int): (r: State)
    requires todo != []
    ensures r == st.(task := r.task, sent := r.sent, trafficState := r.trafficState)
  {
    st.(task := TrafficTask(todo[1..], threshold),
        sent := st.sent + TrafficSends(st.trafficState, todo[0], st.hub.latest, threshold),
        trafficState := TrafficMoves(st.trafficState, todo[0], st.hub.latest, threshold))
  }

  /** The check at hand has visited all it listed. */
  predicate NothingLeft(task: Task) {
    match task
    case Idle => true
    case RulesTask(_) => false
    case OfflineTask(todo, _) => todo == []
    case LoadTask(todo, _, _) => todo == []
    case TrafficTask(todo, _) => todo == []
  }

  function VisitOne(st: State): (r: State)
    ensures r == st.(task := r.task, sent := r.sent, servers := r.servers, rules := r.rules,
                     trafficState := r.trafficState)
  {
    if st.task.RulesTask? then st
    else if NothingLeft(st.task) then st.(task := Idle)
    else
      match st.task
      case OfflineTask(todo, now) => VisitOffline(st, todo, now)
      case LoadTask(todo, hist, now) => VisitRule(st, todo, hist, now)
      case TrafficTask(todo, threshold) => VisitTraffic(st, todo, threshold)
  }

  /** A handler after its read: a server that is gone, or of this month, is left alone. */
  function AfterRead(h: Handler, servers: Servers, month: int): Handler {
    if h.uuid !in servers || servers[h.uuid].monthlyReset == Some(month) then Recorded(h.uuid, h.report)
    else Rebasing(h.uuid, h.report, month)
  }

  ghost function Step(st: State, op: Op): State
    requires Enabled(st, op)
  {
    match op
    case Admin(a) =>
      var st' := st.(servers := Tokens.Apply(st.servers, a));
      if a.Delete? then st'.(stats := WithoutServer(st.stats, a.uuid), rules := WithoutRules(st.rules, a.uuid)) else st'
    case Configure(u, c) => st.(servers := st.servers[u := Configured(st.servers[u], c)])
    case CreateRule(rule) => st.(rules := st.rules[rule.id := rule])
    case UpdateRule(rule) => st.(rules := st.rules[rule.id := rule.(lastNotify := st.rules[rule.id].lastNotify)])
    case DeleteRule(id) => st.(rules := st.rules - {id})
    case Prune(keepDays, now) => st.(stats := MinuteTable.Prune(st.stats, Cutoff(now, keepDays)))
    case LookUp(c, _, r, found) =>
      if found == None then st else st.(handlers := st.handlers[c := Accepted(found.value, r)])
    case ReadBase(c, month) => st.(handlers := st.handlers[c := AfterRead(st.handlers[c], st.servers, month)])
    case WriteBase(c) =>
      var h := st.handlers[c];
      st.(handlers := st.handlers[c := Recorded(h.uuid, h.report)],
          servers := RebaseServer(st.servers, h.uuid, h.month, h.report))
    case ReadClock(c, now) =>
      st.(handlers := st.handlers[c := Timed(st.handlers[c].uuid, st.handlers[c].report, now)])
    case Ingest(c) =>
      var e := Entry(st.handlers[c].uuid, st.handlers[c].report, st.handlers[c].now);
      st.(handlers := st.handlers - {c}, hub := HubStep(st.hub, e), stats := SaveFlushes(st.stats, Flushed(st.hub, e)))
    case ListOffline(list, seen, now) => st.(task := OfflineTask(Seen(list, seen, now), now))
    case ListRules => st.(task := RulesTask(RuleList(st.rules)))
    case ReadHistory(hist, _, now) => st.(task := LoadTask(st.task.rules, hist, now))
    case ListTraffic(list, threshold) => st.(task := TrafficTask(list, threshold))
    case VisitNext => VisitOne(st)
    case CheckExpiry(list, days, now, day) =>
      var due := ExpiringOf(list, now, days);
      if due == [] || st.expiryDay == Some(day) then st
      else st.(sent := st.sent + [ExpiryAlert(due, day)], expiryDay := Some(day))
  }

  ghost function Next(st: State, op: Op): State { if Enabled(st, op) then Step(st, op) else st }

  ghost function After(st0: State, ops: seq<Op>): State {
    if ops == [] then st0 else Next(After(st0, Butlast(ops)), Last(ops))
  }

  /** Who writes the servers table. */
  lemma StepServers(st: State, op: Op)
    ensures var servers := Next(st, op).servers;
            match op
            case Admin(a) => servers == Tokens.Apply(st.servers, a)
            case Configure(u, c) =>
              servers == if u in st.servers && c.name != ""
                         then st.servers[u := Configured(st.servers[u], c)] else st.servers
            case WriteBase(c) =>
              servers == if c in st.handlers && st.handlers[c].Rebasing?
                         then RebaseServer(st.servers, st.handlers[c].uuid, st.handlers[c].month, st.handlers[c].report)
                         else st.servers
            case VisitNext => servers == VisitOne(st).servers
            case _ => servers == st.servers
  {
    hide HubStep, SaveFlushes, Flushed, VisitOffline, VisitRule, VisitTraffic, Tokens.Apply, Tokens.IsLookup, IsListing,
      IsRecent, RuleList, Seen, RebaseServer, Configured;
  }

  /** A visit writes no column but the mark. */
  lemma VisitKeepsColumns(st: State)
    ensures var servers := VisitOne(st).servers;
            servers.Keys == st.servers.Keys
            && forall u :: u in servers ==>
                 servers[u] == st.servers[u].(lastOfflineNotify := servers[u].lastOfflineNotify)
  {
    hide VisitRule, VisitTraffic, OfflineDue;
  }

  /** Who moves a handler. */
  lemma StepHandlers(st: State, op: Op)
    ensures var handlers := Next(st, op).handlers;
            match op
            case LookUp(c, _, r, found) =>
              handlers == if Enabled(st, op) && found.Some?
                          then st.handlers[c := Accepted(found.value, r)] else st.handlers
            case ReadBase(c, month) =>
              handlers == if c in st.handlers && st.handlers[c].Accepted?
                          then st.handlers[c := AfterRead(st.handlers[c], st.servers, month)] else st.handlers
            case WriteBase(c) =>
              handlers == if c in st.handlers && st.handlers[c].Rebasing?
                          then st.handlers[c := Recorded(st.handlers[c].uuid, st.handlers[c].report)] else st.handlers
            case ReadClock(c, now) =>
              handlers == if c in st.handlers && st.handlers[c].Recorded?
                          then st.handlers[c := Timed(st.handlers[c].uuid, st.handlers[c].report, now)] else st.handlers
            case Ingest(c) =>
              handlers == if c in st.handlers && st.handlers[c].Timed? then st.handlers - {c} else st.handlers
            case _ => handlers == st.handlers
  {
    hide HubStep, SaveFlushes, Flushed, VisitOne, Tokens.Apply, Tokens.IsLookup, IsListing, IsRecent, RuleList, Seen,
      RebaseServer, Configured, AfterRead;
  }

  lemma StepTask(st: State, op: Op)
    requires !op.VisitNext?
    ensures var task := Next(st, op).task;
            match op
            case ListOffline(list, seen, now) =>
              task == if Enabled(st, op) then OfflineTask(Seen(list, seen, now), now) else st.task
            case ListRules => task == if Enabled(st, op) then RulesTask(RuleList(st.rules)) else st.task
            case ReadHistory(hist, _, now) =>
              task == if Enabled(st, op) then LoadTask(st.task.rules, hist, now) else st.task
            case ListTraffic(list, threshold) =>
              task == if Enabled(st, op) then TrafficTask(list, threshold) else st.task
            case _ => task == st.task
  {
    StepNotifier(st, op);
    hide Next, Enabled, Seen, RuleList, ExpiringOf;
  }

  /** The alerts a step sends. */
  ghost function Sends(st: State, op: Op): (out: seq<Alert>)
    ensures |out| <= 1
  {
    match op
    case VisitNext =>
      if st.task.RulesTask? || NothingLeft(st.task) then []
      else (match st.task
            case OfflineTask(todo, now) => OfflineSends(todo[0], now)
            case LoadTask(todo, hist, now) => RuleSends(todo[0], hist, now)
            case TrafficTask(todo, threshold) => TrafficSends(st.trafficState, todo[0], st.hub.latest, threshold))
    case CheckExpiry(list, days, now, day) =>
      var due := ExpiringOf(list, now, days);
      if Enabled(st, op) && due != [] && st.expiryDay != Some(day) then [ExpiryAlert(due, day)] else []
    case _ => []
  }

  lemma VisitSends(st: State)
    ensures VisitOne(st).sent == st.sent + Sends(st, VisitNext)
  {
    hide OfflineSends, RuleSends, TrafficSends, Next;
  }

  lemma StepSends(st: State, op: Op)
    ensures Next(st, op).sent == st.sent + Sends(st, op)
  {
    StepNotifier(st, op);
    if op.VisitNext? {
      VisitSends(st);
      hide Next, VisitOne, Sends;
    } else {
      hide Next, Enabled, OfflineSends, RuleSends, TrafficSends, ExpiringOf, Seen, RuleList, VisitOne;
    }
  }

  /** Who moves the notifier. */
  lemma StepNotifier(st: State, op: Op)
    ensures var st' := Next(st, op);
            match op
            case ListOffline(list, seen, now) =>
              st' == if Enabled(st, op) then st.(task := OfflineTask(Seen(list, seen, now), now)) else st
            case ListRules => st' == if Enabled(st, op) then st.(task := RulesTask(RuleList(st.rules))) else st
            case ReadHistory(hist, _, now) =>
              st' == if Enabled(st, op) then st.(task := LoadTask(st.task.rules, hist, now)) else st
            case ListTraffic(list, threshold) =>
              st' == if Enabled(st, op) then st.(task := TrafficTask(list, threshold)) else st
            case VisitNext => st' == VisitOne(st)
            case CheckExpiry(list, days, now, day) =>
              var due := ExpiringOf(list, now, days);
              st' == if Enabled(st, op) && due != [] && st.expiryDay != Some(day)
                     then st.(sent := st.sent + [ExpiryAlert(due, day)], expiryDay := Some(day)) else st
            case _ => st'.task == st.task && st'.sent == st.sent && st'.trafficState == st.trafficState
                      && st'.expiryDay == st.expiryDay
  {
    hide HubStep, SaveFlushes, Flushed, VisitOffline, VisitRule, VisitTraffic, Tokens.Apply, Tokens.IsLookup, IsListing,
      IsRecent, RuleList, Seen, RebaseServer, Configured, AfterRead, ExpiringOf;
  }

  lemma AfterLast(st0: State, ops: seq<Op>)
    requires ops != []
    ensures After(st0, ops) == Next(After(st0, Butlast(ops)), Last(ops))
  {
    hide Next;
  }

  /** A process that has just started on an existing database. */
  predicate Starts(st: State) {
    st.hub == EMPTY_HUB && st.handlers == map[] && st.task == Idle && st.trafficState == map[] && st.sent == []
  }

  /** Server u is not deleted during the run; it may be created in it. */
  predicate NeverDeleted(ops: seq<Op>, u: string) { Admin(Tokens.Delete(u)) !in ops }

  lemma NotDeletedLast(ops: seq<Op>, u: string)
    requires ops != [] && NeverDeleted(ops, u)
    ensures NeverDeleted(Butlast(ops), u) && Last(ops) != Admin(Tokens.Delete(u))
  {
    assert ops == Butlast(ops) + [Last(ops)];
  }

  // ---- Undisturbed, the steps do what the methods are proved to do ----

  lemma RunExtend(st0: State, ops: seq<Op>, op: Op)
    ensures After(st0, ops + [op]) == Next(After(st0, ops), op)
  {
    assert Butlast(ops + [op]) == ops;
  }

  lemma Accept(st: State, c: int, tok: string, r: Report, u: string)
    requires c !in st.handlers && Tokens.IsLookup(st.servers, tok, Some(u))
    ensures u in st.servers
    ensures Next(st, LookUp(c, tok, r, Some(u))) == st.(handlers := st.handlers[c := Accepted(u, r)])
  {}

  lemma Reject(st: State, c: int, tok: string, r: Report, month: int, now: int)
    requires c !in st.handlers
    ensures Next(st, LookUp(c, tok, r, None)) == st && Next(st, ReadBase(c, month)) == st
    ensures Next(st, WriteBase(c)) == st && Next(st, ReadClock(c, now)) == st && Next(st, Ingest(c)) == st
  {}

  /** Reading and writing the base, undisturbed. */
  lemma Settle(st: State, c: int, month: int)
    requires c in st.handlers && st.handlers[c].Accepted? && st.handlers[c].uuid in st.servers
    ensures var h := st.handlers[c]; var u, r := h.uuid, h.report;
            Next(Next(st, ReadBase(c, month)), WriteBase(c))
            == st.(handlers := st.handlers[c := Recorded(u, r)],
                   servers := st.servers[u := Traffic.Refresh(st.servers[u], month, r.netTotalIn, r.netTotalOut)])
  {
    var h, row := st.handlers[c], st.servers[st.handlers[c].uuid];
    var read := Next(st, ReadBase(c, month));
    assert read == st.(handlers := st.handlers[c := AfterRead(h, st.servers, month)]);
    assert st.servers[h.uuid := row] == st.servers;
    assert read.handlers[c := Recorded(h.uuid, h.report)] == st.handlers[c := Recorded(h.uuid, h.report)];
  }

  /** Taking the time and handing over, undisturbed. */
  lemma Deliver(st: State, c: int, now: int)
    requires c in st.handlers && st.handlers[c].Recorded?
    ensures var e := Entry(st.handlers[c].uuid, st.handlers[c].report, now);
            Next(Next(st, ReadClock(c, now)), Ingest(c))
            == st.(handlers := st.handlers - {c}, hub := HubStep(st.hub, e),
                   stats := SaveFlushes(st.stats, Flushed(st.hub, e)))
  {
    var h := Timed(st.handlers[c].uuid, st.handlers[c].report, now);
    assert st.handlers[c := h] - {c} == st.handlers - {c};
    hide HubStep, SaveFlushes, Flushed;
  }

  /** The steps of one handler, in order. */
  function Handling(c: int, tok: string, r: Report, found: Option<string>, month: int, now: int): seq<Op> {
    [LookUp(c, tok, r, found)] + [ReadBase(c, month)] + [WriteBase(c)] + [ReadClock(c, now)] + [Ingest(c)]
  }

  /** The five steps of one handler with nothing in between are `Api.HandleAgentReport`. */
  lemma {:induction false} UndisturbedReport(
      st: State, c: int, tok: string, r: Report, found: Option<string>, month: int, now: int)
    requires c !in st.handlers && Tokens.IsLookup(st.servers, tok, found)
    ensures var st' := After(st, Handling(c, tok, r, found, month, now));
            if found == None then st' == st
            else
              var u := found.value; var e := Entry(u, r, now);
              u in st.servers
              && st' == st.(servers := st.servers[
                              u := Traffic.Refresh(st.servers[u], month, r.netTotalIn, r.netTotalOut)],
                            hub := HubStep(st.hub, e), stats := SaveFlushes(st.stats, Flushed(st.hub, e)))
  {
    var look, read, write := LookUp(c, tok, r, found), ReadBase(c, month), WriteBase(c);
    var clock, ingest := ReadClock(c, now), Ingest(c);
    assert After(st, []) == st && [] + [look] == [look];
    RunExtend(st, [], look);
    RunExtend(st, [look], read);
    RunExtend(st, [look] + [read], write);
    RunExtend(st, [look] + [read] + [write], clock);
    RunExtend(st, [look] + [read] + [write] + [clock], ingest);
    if found == None {
      Reject(st, c, tok, r, month, now);
      hide *;
    } else {
      var u := found.value;
      Accept(st, c, tok, r, u);
      Settle(st.(handlers := st.handlers[c := Accepted(u, r)]), c, month);
      assert st.handlers[c := Accepted(u, r)][c := Recorded(u, r)] == st.handlers[c := Recorded(u, r)];
      assert st.handlers[c := Recorded(u, r)] - {c} == st.handlers;
      hide *;
      Deliver(After(st, [look] + [read] + [write]), c, now);
    }
  }

  function VisitSteps(n: nat): seq<Op> { seq(n, _ => VisitNext) }

  lemma VisitsExtend(st: State, n: nat)
    ensures After(st, VisitSteps(0)) == st
    ensures var before := After(st, VisitSteps(n));
            After(st, VisitSteps(n + 1)) == if before.task.Idle? then before else VisitOne(before)
  {
    assert VisitSteps(n + 1) == VisitSteps(n) + [VisitNext];
    RunExtend(st, VisitSteps(n), VisitNext);
    hide VisitOne, After;
  }

  lemma OneMore<T>(list: seq<T>, n: nat)
    requires 0 < n <= |list|
    ensures list[..n] == list[..n - 1] + [list[n - 1]] && list[n - 1..] == [list[n - 1]] + list[n..]
    ensures Butlast(list[..n]) == list[..n - 1] && Last(list[..n]) == list[n - 1]
    ensures list[n - 1..][0] == list[n - 1] && list[n - 1..][1..] == list[n..]
  {}

  /** The check of an offline listing after its first n visits. */
  function AfterOffline(st: State, list: seq<ServerAdmin>, now: int, n: nat): State
    requires n <= |list|
  {
    st.(task := OfflineTask(list[n..], now), sent := st.sent + OfflineAlerts(list[..n], now),
        servers := MarkOffline(st.servers, list[..n], now))
  }

  function AfterLoad(st: State, list: seq<LoadRule>, hist: History, now: int, n: nat): State
    requires n <= |list|
  {
    st.(task := LoadTask(list[n..], hist, now), sent := st.sent + LoadAlerts(list[..n], hist, now),
        rules := MarkLoad(st.rules, list[..n], hist, now))
  }

  function AfterTraffic(st: State, list: seq<ServerAdmin>, threshold: int, n: nat): State
    requires n <= |list|
  {
    st.(task := TrafficTask(list[n..], threshold),
        sent := st.sent + TrafficAlertsOf(st.trafficState, list[..n], st.hub.latest, threshold),
        trafficState := TrafficStateAfter(st.trafficState, list[..n], st.hub.latest, threshold))
  }

  lemma OfflineVisit(st: State, list: seq<ServerAdmin>, now: int, n: nat)
    requires 0 < n <= |list|
    ensures VisitOne(AfterOffline(st, list, now, n - 1)) == AfterOffline(st, list, now, n)
  {
    hide OfflineDue, VisitRule, VisitTraffic;
    OneMore(list, n);
  }

  lemma LoadVisit(st: State, list: seq<LoadRule>, hist: History, now: int, n: nat)
    requires 0 < n <= |list|
    ensures VisitOne(AfterLoad(st, list, hist, now, n - 1)) == AfterLoad(st, list, hist, now, n)
  {
    hide LoadDue, VisitOffline, VisitTraffic;
    OneMore(list, n);
  }

  lemma TrafficVisit(st: State, list: seq<ServerAdmin>, threshold: int, n: nat)
    requires 0 < n <= |list|
    ensures VisitOne(AfterTraffic(st, list, threshold, n - 1)) == AfterTraffic(st, list, threshold, n)
  {
    hide TrafficPct, TrafficAlerts.Level, TrafficAlerts.Alerts, RecordedLevel, VisitOffline, VisitRule;
    OneMore(list, n);
  }

  lemma NothingVisited(st: State)
    ensures match st.task
            case Idle => true
            case RulesTask(_) => true
            case OfflineTask(list, now) => AfterOffline(st, list, now, 0) == st
            case LoadTask(list, hist, now) => AfterLoad(st, list, hist, now, 0) == st
            case TrafficTask(list, threshold) => AfterTraffic(st, list, threshold, 0) == st
  {}

  /** A listing and its visits with nothing in between are `Notifier.CheckOfflineOf` ... */
  lemma {:induction false} UndisturbedOffline(st: State, list: seq<ServerAdmin>, now: int, n: nat)
    requires st.task == OfflineTask(list, now) && n <= |list|
    ensures After(st, VisitSteps(n)) == AfterOffline(st, list, now, n)
  {
    hide VisitOne, After, OfflineAlerts, MarkOffline;
    if n == 0 {
      VisitsExtend(st, 0);
      NothingVisited(st);
    } else {
      VisitsExtend(st, n - 1);
      UndisturbedOffline(st, list, now, n - 1);
      OfflineVisit(st, list, now, n);
    }
  }

  /** ... `Notifier.CheckRules` ... */
  lemma {:induction false} UndisturbedLoad(st: State, list: seq<LoadRule>, hist: History, now: int, n: nat)
    requires st.task == LoadTask(list, hist, now) && n <= |list|
    ensures After(st, VisitSteps(n)) == AfterLoad(st, list, hist, now, n)
  {
    hide VisitOne, After, LoadAlerts, MarkLoad;
    if n == 0 {
      VisitsExtend(st, 0);
      NothingVisited(st);
    } else {
      VisitsExtend(st, n - 1);
      UndisturbedLoad(st, list, hist, now, n - 1);
      LoadVisit(st, list, hist, now, n);
    }
  }

  /** ... and the loop of `Notifier.CheckTraffic`. */
  lemma {:induction false} UndisturbedTraffic(st: State, list: seq<ServerAdmin>, threshold: int, n: nat)
    requires st.task == TrafficTask(list, threshold) && n <= |list|
    ensures After(st, VisitSteps(n)) == AfterTraffic(st, list, threshold, n)
  {
    hide VisitOne, After, TrafficAlertsOf, TrafficStateAfter;
    if n == 0 {
      VisitsExtend(st, 0);
      NothingVisited(st);
    } else {
      VisitsExtend(st, n - 1);
      UndisturbedTraffic(st, list, threshold, n - 1);
      TrafficVisit(st, list, threshold, n);
    }
  }
}
