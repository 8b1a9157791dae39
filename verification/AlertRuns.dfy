/** The alerts of whole runs: what the notifier appends to `sent`, while reports, edits, prunes
    and other checks come between its listings and its visits. */
module AlertRuns {
  import opened GoNumbers
  import opened Records
  import opened Seqs
  import opened RateLimit
  import opened Aggregation
  import opened MinuteTable
  import opened Storage
  import opened RealtimeHub
  import opened AlertRules
  import opened ServerMachine
  import opened ServerRuns
  import Tokens
  import Traffic
  import TrafficAlerts

  // ---- Offline ----

  function OfflineTimeOf(u: string): Alert -> seq<int> {
    (a: Alert) => if a.OfflineAlert? && a.uuid == u then [a.at] else []
  }

  /** The times of the offline alerts for server u. */
  function OfflineTimes(sent: seq<Alert>, u: string): seq<int> { FlatMap(sent, OfflineTimeOf(u)) }

  /** The offline check visits server u in this step: what it wants then. */
  function OfflineVisitOf(st: State, op: Op, u: string): seq<Tick> {
    if op.VisitNext? && st.task.OfflineTask? && st.task.offline != [] && st.task.offline[0].uuid == u
    then [OfflineTick(st.task.offline[0], st.task.now)]
    else []
  }

  ghost function OfflineTicks(st0: State, ops: seq<Op>, u: string): seq<Tick> {
    if ops == [] then []
    else OfflineTicks(st0, Butlast(ops), u) + OfflineVisitOf(After(st0, Butlast(ops)), Last(ops), u)
  }

  /** Server u, if still to be visited, is in the table and was listed with this mark. */
  ghost predicate OfflineListedWith(todo: seq<ServerAdmin>, u: string, known: bool, mark: int) {
    && (forall i, j :: 0 <= i < j < |todo| ==> todo[i].uuid != todo[j].uuid)
    && forall i :: 0 <= i < |todo| && todo[i].uuid == u ==> known && todo[i].row.lastOfflineNotify == mark
  }

  lemma OfflineRest(todo: seq<ServerAdmin>, u: string, known: bool, mark: int, mark': int)
    requires todo != [] && OfflineListedWith(todo, u, known, mark)
    ensures OfflineListedWith(todo[1..], u, known, mark)
    ensures todo[0].uuid == u ==>
              known && todo[0].row.lastOfflineNotify == mark && OfflineListedWith(todo[1..], u, known, mark')
  {}

  lemma OfflineStaysListed(todo: seq<ServerAdmin>, u: string, known: bool, mark: int)
    requires OfflineListedWith(todo, u, known, mark)
    ensures OfflineListedWith(todo, u, true, mark)
  {}

  predicate TableMark(servers: Servers, u: string, mark: int) {
    if u in servers then servers[u].lastOfflineNotify == mark else mark == 0
  }

  /** The mark of u is `mark`, in the table and in what is still to be visited. */
  ghost predicate OfflineMarked(st: State, u: string, mark: int) {
    && TableMark(st.servers, u, mark)
    && (st.task.OfflineTask? ==> OfflineListedWith(st.task.offline, u, u in st.servers, mark))
  }

  /** Nothing but a visit moves a mark. */
  lemma StepKeepsMark(st: State, op: Op, u: string, mark: int)
    requires op != Admin(Tokens.Delete(u)) && !op.VisitNext? && TableMark(st.servers, u, mark)
    ensures TableMark(Next(st, op).servers, u, mark) && (u in st.servers ==> u in Next(st, op).servers)
  {
    StepServers(st, op);
    hide Next, Enabled;
  }

  /** A visit: its alert goes out exactly when the limiter with this mark is due, and moves it. */
  lemma OfflineVisited(st: State, u: string, mark: int)
    requires OfflineMarked(st, u, mark) && st.task.OfflineTask? && st.task.offline != []
    ensures var s, now := st.task.offline[0], st.task.now;
            var due := s.uuid == u && Due(OfflineTick(s, now), mark);
            OfflineMarked(VisitOffline(st, st.task.offline, now), u, if due then now else mark)
            && OfflineTimes(OfflineSends(s, now), u) == if due then [now] else []
  {
    var s, now := st.task.offline[0], st.task.now;
    OfflineDueIsLimited(s, now);
    OfflineRest(st.task.offline, u, u in st.servers, mark, now);
    FlatMapSmall(OfflineSends(s, now), OfflineTimeOf(u));
    hide OfflineDue, OfflineWanted, OfflineListedWith;
  }

  lemma OfflineListed(st: State, list: seq<ServerAdmin>, seen: map<string, int>, now: int, u: string, mark: int)
    requires OfflineMarked(st, u, mark) && IsListing(list, st.servers)
    ensures OfflineMarked(st.(task := OfflineTask(Seen(list, seen, now), now)), u, mark)
  {
    var full := Seen(list, seen, now);
    assert forall i :: 0 <= i < |full| ==> full[i].uuid == list[i].uuid && full[i].row == list[i].row;
  }

  /** The other checks send no offline alert. */
  lemma OtherChecksSend(st: State, op: Op, u: string)
    requires !(op.VisitNext? && st.task.OfflineTask?)
    ensures OfflineTimes(Sends(st, op), u) == []
  {
    FlatMapSmall(Sends(st, op), OfflineTimeOf(u));
    hide Enabled, LoadDue, TrafficPct, TrafficAlerts.Alerts, ExpiringOf;
  }

  lemma OfflineVisitStep(st: State, u: string, mark: int)
    requires OfflineMarked(st, u, mark) && st.task.OfflineTask?
    ensures var ts := OfflineVisitOf(st, VisitNext, u);
            OfflineMarked(Next(st, VisitNext), u, MarkAfterVisit(ts, mark))
            && OfflineTimes(Sends(st, VisitNext), u) == TimesOfVisit(ts, mark)
  {
    StepNotifier(st, VisitNext);
    if st.task.offline != [] { OfflineVisited(st, u, mark); }
    hide Next, VisitOffline, OfflineTimes, OfflineListedWith, OfflineSends, OfflineTick;
  }

  lemma OfflineStaysMarked(st: State, st': State, u: string, mark: int)
    requires OfflineMarked(st, u, mark) && TableMark(st'.servers, u, mark) && (u in st.servers ==> u in st'.servers)
    requires st'.task == st.task || !st'.task.OfflineTask?
    ensures OfflineMarked(st', u, mark)
  {
    if st.task.OfflineTask? { OfflineStaysListed(st.task.offline, u, u in st.servers, mark); }
    hide OfflineListedWith;
  }

  lemma OtherVisit(st: State)
    requires !st.task.OfflineTask?
    ensures Next(st, VisitNext).servers == st.servers && !Next(st, VisitNext).task.OfflineTask?
  {
    hide RuleSends, TrafficSends, TrafficMoves;
  }

  lemma OfflineQuietStep(st: State, op: Op, u: string, mark: int)
    requires op != Admin(Tokens.Delete(u)) && OfflineMarked(st, u, mark)
    requires !(op.VisitNext? && st.task.OfflineTask?)
    ensures OfflineMarked(Next(st, op), u, mark)
  {
    var st' := Next(st, op);
    if op.VisitNext? {
      OtherVisit(st);
      hide Next, OfflineListedWith;
      OfflineStaysMarked(st, st', u, mark);
    } else if op.ListOffline? && Enabled(st, op) {
      OfflineListed(st, op.list, op.seen, op.now, u, mark);
      hide Seen, OfflineListedWith;
    } else {
      StepKeepsMark(st, op, u, mark);
      StepTask(st, op);
      hide Next, Enabled, OfflineListedWith, Seen, RuleList;
      OfflineStaysMarked(st, st', u, mark);
    }
  }

  /** A due visit adds its alert and its mark, and no other step does for u. */
  lemma OfflineStep(st: State, op: Op, u: string, mark: int)
    requires op != Admin(Tokens.Delete(u)) && OfflineMarked(st, u, mark)
    ensures var ts := OfflineVisitOf(st, op, u);
            OfflineMarked(Next(st, op), u, MarkAfterVisit(ts, mark))
            && OfflineTimes(Sends(st, op), u) == TimesOfVisit(ts, mark)
  {
    hide Next, Sends, OfflineMarked, OfflineTimes, OfflineTick;
    if op.VisitNext? && st.task.OfflineTask? {
      OfflineVisitStep(st, u, mark);
    } else {
      OtherChecksSend(st, op, u);
      OfflineQuietStep(st, op, u, mark);
    }
  }

  lemma OfflineTicksLast(st0: State, ops: seq<Op>, u: string)
    requires ops != []
    ensures OfflineTicks(st0, ops, u)
         == OfflineTicks(st0, Butlast(ops), u) + OfflineVisitOf(After(st0, Butlast(ops)), Last(ops), u)
    ensures |OfflineVisitOf(After(st0, Butlast(ops)), Last(ops), u)| <= 1
  {
    hide After;
  }

  /** What the notifier has sent for u and the mark it left follow its ticks. */
  ghost predicate OfflineFollows(st0: State, ops: seq<Op>, u: string) {
    var st, ticks, mark0 := After(st0, ops), OfflineTicks(st0, ops, u), BirthRow(st0, u).lastOfflineNotify;
    OfflineMarked(st, u, MarkAfter(ticks, mark0))
    && OfflineTimes(st.sent, u) == OfflineTimes(st0.sent, u) + TimesOf(ticks, Fired(ticks, mark0))
  }

  lemma OfflineFollowsStep(st0: State, ops: seq<Op>, u: string)
    requires ops != [] && Last(ops) != Admin(Tokens.Delete(u)) && OfflineFollows(st0, Butlast(ops), u)
    ensures OfflineFollows(st0, ops, u)
  {
    var pre, op, mark0 := Butlast(ops), Last(ops), BirthRow(st0, u).lastOfflineNotify;
    var st, ticks := After(st0, pre), OfflineTicks(st0, pre, u);
    AfterLast(st0, ops);
    OfflineTicksLast(st0, ops, u);
    hide Next, After, OfflineTicks, Sends, OfflineMarked, OfflineTimes, OfflineVisitOf;
    hide MarkAfter, Fired, TimesOf, BirthRow;
    OfflineStep(st, op, u, MarkAfter(ticks, mark0));
    StepSends(st, op);
    FlatMapConcat(st.sent, Sends(st, op), OfflineTimeOf(u));
    FiredTimesStep(ticks, mark0, OfflineVisitOf(st, op, u));
    Regroup(OfflineTimes(st0.sent, u), TimesOf(ticks, Fired(ticks, mark0)), OfflineTimes(Sends(st, op), u));
  }

  lemma {:induction false} OfflineFollowsTicks(st0: State, ops: seq<Op>, u: string)
    requires !st0.task.OfflineTask? && NeverDeleted(ops, u)
    ensures OfflineFollows(st0, ops, u)
  {
    if ops == [] {
      NothingFired(BirthRow(st0, u).lastOfflineNotify);
    } else {
      hide OfflineFollows;
      NotDeletedLast(ops, u);
      OfflineFollowsTicks(st0, Butlast(ops), u);
      OfflineFollowsStep(st0, ops, u);
    }
  }

  /** Over any run, under any clock and however the rest interleaves, the offline alerts sent for
      server u go out at the greedy selection, 1800 s apart, of its visits that want one. */
  lemma {:induction false} OfflineAlertsAreGreedy(st0: State, ops: seq<Op>, u: string)
    requires Starts(st0) && NeverDeleted(ops, u)
    ensures var ticks, mark0 := OfflineTicks(st0, ops, u), BirthRow(st0, u).lastOfflineNotify;
            OfflineTimes(After(st0, ops).sent, u) == TimesOf(ticks, Fired(ticks, mark0))
            && Greedy(ticks, mark0, Fired(ticks, mark0))
            && forall i :: 0 <= i < |ticks| ==> ticks[i].gap == 1800
  {
    OfflineFollowsTicks(st0, ops, u);
    OfflineGaps(st0, ops, u);
    hide After, OfflineTicks, OfflineMarked;
    FiredIsGreedy(OfflineTicks(st0, ops, u), BirthRow(st0, u).lastOfflineNotify);
  }

  lemma {:induction false} OfflineGaps(st0: State, ops: seq<Op>, u: string)
    ensures forall i :: 0 <= i < |OfflineTicks(st0, ops, u)| ==> OfflineTicks(st0, ops, u)[i].gap == 1800
  {
    hide After, OfflineWanted;
    if ops == [] {
    } else {
      OfflineGaps(st0, Butlast(ops), u);
    }
  }

  /** Any two of them are at least 1800 s apart, and any window of w seconds holds at most
      1 + w/1800. */
  lemma {:induction false} OfflineWindowBound(st0: State, ops: seq<Op>, u: string, from: int, w: nat)
    requires Starts(st0) && NeverDeleted(ops, u)
    ensures var times := OfflineTimes(After(st0, ops).sent, u);
            Spaced(times, 1800)
            && |set i: nat | i < |times| && from <= times[i] <= from + w| <= 1 + w / 1800
  {
    hide After, OfflineTicks, Spaced;
    OfflineAlertsAreGreedy(st0, ops, u);
    FiredTimesSpaced(OfflineTicks(st0, ops, u), BirthRow(st0, u).lastOfflineNotify, 1800);
    WindowBound(OfflineTimes(After(st0, ops).sent, u), from, w, 1800);
  }

  /** The code's own listings carry no last-seen time. */
  predicate ListsUnseen(ops: seq<Op>) {
    forall i :: 0 <= i < |ops| && ops[i].ListOffline? ==> ops[i].seen == map[]
  }

  predicate TaskUnseen(task: Task) {
    task.OfflineTask? ==> forall i :: 0 <= i < |task.offline| ==> task.offline[i].lastSeen == 0
  }

  predicate NoOffline(sent: seq<Alert>) { forall i :: 0 <= i < |sent| ==> !sent[i].OfflineAlert? }

  lemma UnseenVisit(st: State)
    requires TaskUnseen(st.task)
    ensures TaskUnseen(VisitOne(st).task) && NoOffline(Sends(st, VisitNext))
  {
    hide LoadDue, TrafficPct, TrafficMoves, MarkServer, MarkRule;
  }

  lemma UnseenStep(st: State, op: Op)
    requires TaskUnseen(st.task) && (op.ListOffline? ==> op.seen == map[])
    ensures TaskUnseen(Next(st, op).task) && NoOffline(Sends(st, op))
  {
    if op.VisitNext? {
      UnseenVisit(st);
      StepNotifier(st, op);
      hide Next, VisitOne, Sends, TaskUnseen, NoOffline;
    } else {
      StepTask(st, op);
      hide Next, Enabled, RuleList, ExpiringOf;
    }
  }

  /** As the code runs it, the check never sends an offline alert, in any run. */
  lemma {:induction false} CodeSendsNoOffline(st0: State, ops: seq<Op>)
    requires Starts(st0) && ListsUnseen(ops)
    ensures TaskUnseen(After(st0, ops).task) && NoOffline(After(st0, ops).sent)
  {
    if ops == [] {
    } else {
      var st := After(st0, Butlast(ops));
      CodeSendsNoOffline(st0, Butlast(ops));
      UnseenStep(st, Last(ops));
      StepSends(st, Last(ops));
      AfterLast(st0, ops);
      hide Next, Sends, TaskUnseen, After;
    }
  }

  // ---- Load ----

  function LoadTimeOf(id: int): Alert -> seq<int> {
    (a: Alert) => if a.LoadAlert? && a.ruleId == id then [a.at] else []
  }

  /** The times of the alerts of a rule. */
  function LoadTimes(sent: seq<Alert>, id: int): seq<int> { FlatMap(sent, LoadTimeOf(id)) }

  /** The load check visits rule id in this step: what it wants then. */
  function LoadVisitOf(st: State, op: Op, id: int): seq<Tick> {
    if op.VisitNext? && st.task.LoadTask? && st.task.rules != [] && st.task.rules[0].id == id
    then [LoadTick(st.task.rules[0], PointsFor(st.task.hist, st.task.rules[0].serverUUID), st.task.now)]
    else []
  }

  ghost function LoadTicks(st0: State, ops: seq<Op>, id: int): seq<Tick> {
    if ops == [] then []
    else LoadTicks(st0, Butlast(ops), id) + LoadVisitOf(After(st0, Butlast(ops)), Last(ops), id)
  }

  ghost predicate LoadListedWith(todo: seq<LoadRule>, id: int, known: bool, mark: int) {
    && (forall i, j :: 0 <= i < j < |todo| ==> todo[i].id != todo[j].id)
    && forall i :: 0 <= i < |todo| && todo[i].id == id ==> known && todo[i].lastNotify == mark
  }

  lemma LoadRest(todo: seq<LoadRule>, id: int, known: bool, mark: int, mark': int)
    requires todo != [] && LoadListedWith(todo, id, known, mark)
    ensures LoadListedWith(todo[1..], id, known, mark)
    ensures todo[0].id == id ==> known && todo[0].lastNotify == mark && LoadListedWith(todo[1..], id, known, mark')
  {}

  lemma LoadStaysListed(todo: seq<LoadRule>, id: int, known: bool, mark: int)
    requires LoadListedWith(todo, id, known, mark)
    ensures LoadListedWith(todo, id, true, mark)
  {}

  /** A rule is stored under its id. */
  ghost predicate Keyed(rules: map<int, LoadRule>) { forall i :: i in rules ==> rules[i].id == i }

  ghost predicate RuleMark(rules: map<int, LoadRule>, id: int, mark: int) {
    Keyed(rules) && if id in rules then rules[id].lastNotify == mark else mark == 0
  }

  predicate ListsRules(task: Task) { task.RulesTask? || task.LoadTask? }

  ghost predicate LoadMarked(st: State, id: int, mark: int) {
    && RuleMark(st.rules, id, mark)
    && (ListsRules(st.task) ==> LoadListedWith(st.task.rules, id, id in st.rules, mark))
  }

  lemma LoadVisited(st: State, id: int, mark: int)
    requires LoadMarked(st, id, mark) && st.task.LoadTask? && st.task.rules != []
    ensures var rule, hist, now := st.task.rules[0], st.task.hist, st.task.now;
            var due := rule.id == id && Due(LoadTick(rule, PointsFor(hist, rule.serverUUID), now), mark);
            LoadMarked(VisitRule(st, st.task.rules, hist, now), id, if due then now else mark)
            && LoadTimes(RuleSends(rule, hist, now), id) == if due then [now] else []
  {
    var rule, now := st.task.rules[0], st.task.now;
    LoadRest(st.task.rules, id, id in st.rules, mark, now);
    FlatMapSmall(RuleSends(rule, st.task.hist, now), LoadTimeOf(id));
    hide LoadWanted, LoadListedWith;
  }

  lemma LoadListed(st: State, id: int, mark: int)
    requires LoadMarked(st, id, mark)
    ensures LoadMarked(st.(task := RulesTask(RuleList(st.rules))), id, mark)
  {
    var ids := Ascending(st.rules.Keys);
    var list := RuleList(st.rules);
    forall i | 0 <= i < |list| ensures ids[i] in st.rules && list[i] == st.rules[ids[i]] {
      assert ids[i] in ids;
    }
  }

  lemma OtherChecksSendNoLoad(st: State, op: Op, id: int)
    requires !(op.VisitNext? && st.task.LoadTask?)
    ensures LoadTimes(Sends(st, op), id) == []
  {
    FlatMapSmall(Sends(st, op), LoadTimeOf(id));
    hide Enabled, OfflineDue, TrafficPct, TrafficAlerts.Alerts, ExpiringOf;
  }

  /** Only visits and administration write the rules, and administration keeps the marks. */
  lemma StepRules(st: State, op: Op)
    ensures var rules := Next(st, op).rules;
            match op
            case Admin(a) => rules == if a.Delete? then WithoutRules(st.rules, a.uuid) else st.rules
            case CreateRule(rule) =>
              rules == if rule.id !in st.rules && rule.lastNotify == 0 then st.rules[rule.id := rule] else st.rules
            case UpdateRule(rule) =>
              rules == if rule.id in st.rules
                       then st.rules[rule.id := rule.(lastNotify := st.rules[rule.id].lastNotify)] else st.rules
            case DeleteRule(id) => rules == st.rules - {id}
            case VisitNext => rules == VisitOne(st).rules
            case _ => rules == st.rules
  {
    hide HubStep, SaveFlushes, Flushed, VisitOffline, VisitRule, VisitTraffic, Tokens.Apply, Tokens.IsLookup, IsListing,
      IsRecent, RuleList, Seen, RebaseServer, Configured, AfterRead, ExpiringOf, WithoutRules;
  }

  lemma StepKeepsRuleMark(st: State, op: Op, id: int, mark: int)
    requires !op.VisitNext? && LoadMarked(st, id, mark)
    requires id in st.rules ==> id in Next(st, op).rules
    ensures RuleMark(Next(st, op).rules, id, mark)
  {
    StepRules(st, op);
    hide Next, Enabled, LoadListedWith;
  }

  lemma LoadVisitStep(st: State, id: int, mark: int)
    requires LoadMarked(st, id, mark) && st.task.LoadTask?
    ensures var ts := LoadVisitOf(st, VisitNext, id);
            LoadMarked(Next(st, VisitNext), id, MarkAfterVisit(ts, mark))
            && LoadTimes(Sends(st, VisitNext), id) == TimesOfVisit(ts, mark)
  {
    StepNotifier(st, VisitNext);
    if st.task.rules != [] { LoadVisited(st, id, mark); }
    hide Next, VisitRule, LoadTimes, LoadListedWith, RuleSends, LoadTick, Keyed;
  }

  lemma LoadStaysMarked(st: State, st': State, id: int, mark: int)
    requires LoadMarked(st, id, mark) && RuleMark(st'.rules, id, mark) && (id in st.rules ==> id in st'.rules)
    requires ListsRules(st'.task) ==> ListsRules(st.task) && st'.task.rules == st.task.rules
    ensures LoadMarked(st', id, mark)
  {
    if ListsRules(st.task) { LoadStaysListed(st.task.rules, id, id in st.rules, mark); }
    hide LoadListedWith, RuleMark;
  }

  lemma OtherVisitKeepsRules(st: State)
    requires !st.task.LoadTask?
    ensures Next(st, VisitNext).rules == st.rules
    ensures Next(st, VisitNext).task == st.task || !ListsRules(Next(st, VisitNext).task)
  {
    hide OfflineSends, TrafficSends, TrafficMoves;
  }

  lemma LoadQuietStep(st: State, op: Op, id: int, mark: int)
    requires LoadMarked(st, id, mark) && (id in st.rules ==> id in Next(st, op).rules)
    requires !(op.VisitNext? && st.task.LoadTask?)
    ensures LoadMarked(Next(st, op), id, mark)
  {
    var st' := Next(st, op);
    if op.VisitNext? {
      OtherVisitKeepsRules(st);
      hide Next, LoadListedWith, RuleMark;
      LoadStaysMarked(st, st', id, mark);
    } else if op.ListRules? && Enabled(st, op) {
      LoadListed(st, id, mark);
      hide RuleList, LoadListedWith, RuleMark;
    } else {
      StepKeepsRuleMark(st, op, id, mark);
      StepTask(st, op);
      hide Next, Enabled, LoadListedWith, Seen, RuleList, RuleMark;
      LoadStaysMarked(st, st', id, mark);
    }
  }

  /** A due visit adds its alert and its mark, and no other step does for the rule. */
  lemma LoadStep(st: State, op: Op, id: int, mark: int)
    requires LoadMarked(st, id, mark) && (id in st.rules ==> id in Next(st, op).rules)
    ensures var ts := LoadVisitOf(st, op, id);
            LoadMarked(Next(st, op), id, MarkAfterVisit(ts, mark))
            && LoadTimes(Sends(st, op), id) == TimesOfVisit(ts, mark)
  {
    hide Next, Sends, LoadMarked, LoadTimes, LoadTick;
    if op.VisitNext? && st.task.LoadTask? {
      LoadVisitStep(st, id, mark);
    } else {
      OtherChecksSendNoLoad(st, op, id);
      LoadQuietStep(st, op, id, mark);
    }
  }

  lemma LoadTicksLast(st0: State, ops: seq<Op>, id: int)
    requires ops != []
    ensures LoadTicks(st0, ops, id)
         == LoadTicks(st0, Butlast(ops), id) + LoadVisitOf(After(st0, Butlast(ops)), Last(ops), id)
    ensures |LoadVisitOf(After(st0, Butlast(ops)), Last(ops), id)| <= 1
  {
    hide After;
  }

  /** Rule id is not deleted during the run, neither alone nor with its server. */
  ghost predicate RuleKept(st0: State, ops: seq<Op>, id: int) {
    ops == []
    || (RuleKept(st0, Butlast(ops), id) && (id in After(st0, Butlast(ops)).rules ==> id in After(st0, ops).rules))
  }

  function BirthMark(st0: State, id: int): int { if id in st0.rules then st0.rules[id].lastNotify else 0 }

  ghost predicate LoadFollows(st0: State, ops: seq<Op>, id: int) {
    var st, ticks, mark0 := After(st0, ops), LoadTicks(st0, ops, id), BirthMark(st0, id);
    LoadMarked(st, id, MarkAfter(ticks, mark0))
    && LoadTimes(st.sent, id) == LoadTimes(st0.sent, id) + TimesOf(ticks, Fired(ticks, mark0))
  }

  lemma LoadFollowsStep(st0: State, ops: seq<Op>, id: int)
    requires ops != [] && RuleKept(st0, ops, id) && LoadFollows(st0, Butlast(ops), id)
    ensures LoadFollows(st0, ops, id)
  {
    var pre, op, mark0 := Butlast(ops), Last(ops), BirthMark(st0, id);
    var st, ticks := After(st0, pre), LoadTicks(st0, pre, id);
    AfterLast(st0, ops);
    LoadTicksLast(st0, ops, id);
    hide Next, After, LoadTicks, Sends, LoadMarked, LoadTimes, LoadVisitOf, MarkAfter, Fired, TimesOf, BirthMark;
    LoadStep(st, op, id, MarkAfter(ticks, mark0));
    StepSends(st, op);
    FlatMapConcat(st.sent, Sends(st, op), LoadTimeOf(id));
    FiredTimesStep(ticks, mark0, LoadVisitOf(st, op, id));
    Regroup(LoadTimes(st0.sent, id), TimesOf(ticks, Fired(ticks, mark0)), LoadTimes(Sends(st, op), id));
  }

  lemma {:induction false} LoadFollowsTicks(st0: State, ops: seq<Op>, id: int)
    requires !ListsRules(st0.task) && Keyed(st0.rules) && RuleKept(st0, ops, id)
    ensures LoadFollows(st0, ops, id)
  {
    if ops == [] {
      NothingFired(BirthMark(st0, id));
    } else {
      hide LoadFollows;
      LoadFollowsTicks(st0, Butlast(ops), id);
      LoadFollowsStep(st0, ops, id);
    }
  }

  /** Over any run, edits of the rule included, its alerts go out at the greedy selection of its
      visits that want one, each spaced by the interval then in force. */
  lemma {:induction false} LoadAlertsAreGreedy(st0: State, ops: seq<Op>, id: int)
    requires Starts(st0) && Keyed(st0.rules) && RuleKept(st0, ops, id)
    requires Ordered(LoadTicks(st0, ops, id), BirthMark(st0, id))
    ensures var ticks, mark0 := LoadTicks(st0, ops, id), BirthMark(st0, id);
            LoadTimes(After(st0, ops).sent, id) == TimesOf(ticks, Fired(ticks, mark0))
            && Greedy(ticks, mark0, Fired(ticks, mark0))
            && forall i, j :: i in Fired(ticks, mark0) && j in Fired(ticks, mark0) && i < j ==>
                 ticks[j].now - ticks[i].now >= ticks[j].gap
  {
    LoadFollowsTicks(st0, ops, id);
    hide After, LoadTicks, LoadMarked;
    var ticks, mark0 := LoadTicks(st0, ops, id), BirthMark(st0, id);
    FiredIsGreedy(ticks, mark0);
    forall i, j | i in Fired(ticks, mark0) && j in Fired(ticks, mark0) && i < j
      ensures ticks[j].now - ticks[i].now >= ticks[j].gap
    {
      FiredSpacing(ticks, mark0, i, j);
    }
  }

  // ---- Expiry ----

  function ExpiryDayOf(a: Alert): seq<int> { if a.ExpiryAlert? then [a.day] else [] }

  /** The days reminders were sent on. */
  function ExpiryDays(sent: seq<Alert>): seq<int> { FlatMap(sent, ExpiryDayOf) }

  /** Some server of the listing has an expiry less than days + 1 days ahead. */
  predicate SomeExpire(list: seq<ServerAdmin>, now: int, days: int) {
    exists i :: 0 <= i < |list| && Expires(list[i], now, days)
  }

  ghost function ExpiryRoundOf(st: State, op: Op): seq<ExpiryRound> {
    if op.CheckExpiry? && Enabled(st, op) then [ExpiryRound(op.day, SomeExpire(op.list, op.now, op.days))] else []
  }

  lemma SomeAreNamed(list: seq<ServerAdmin>, now: int, days: nat)
    ensures ExpiringOf(list, now, days) != [] <==> SomeExpire(list, now, days)
  {
    ReminderNames(list, now, days);
    hide ExpiringOf, Expires;
    var due := ExpiringOf(list, now, days);
    if due != [] { assert due[0] in due; }
    if i :| 0 <= i < |list| && Expires(list[i], now, days) { assert list[i].uuid in due; }
  }

  lemma ReminderSent(st: State, op: Op, due: seq<string>, day: int)
    requires ExpiryAlert(due, day) in Sends(st, op)
    ensures op.CheckExpiry? && Enabled(st, op) && op.days > 0 && day == op.day
    ensures due == ExpiringOf(op.list, op.now, op.days)
  {
    hide OfflineDue, LoadDue, TrafficPct, TrafficAlerts.Alerts, ExpiringOf;
  }

  /** A reminder sent in any run names exactly the servers of the table that expire, each once. */
  lemma {:induction false} ReminderNamesExpiring(
      st0: State, ops: seq<Op>, op: Op, due: seq<string>, day: int, u: string)
    requires ExpiryAlert(due, day) in Sends(After(st0, ops), op)
    ensures op.CheckExpiry? && day == op.day && NoRepeats(due)
    ensures var servers := After(st0, ops).servers;
            u in due <==> u in servers && Expires(ServerAdmin(u, servers[u], false, 0, None), op.now, op.days)
  {
    var st := After(st0, ops);
    ReminderSent(st, op, due, day);
    hide After, Sends, ExpiringOf, Expires;
    ReminderNames(op.list, op.now, op.days);
    assert IsListing(op.list, st.servers);
  }

  ghost function ExpiryRounds(st0: State, ops: seq<Op>): seq<ExpiryRound> {
    if ops == [] then [] else ExpiryRounds(st0, Butlast(ops)) + ExpiryRoundOf(After(st0, Butlast(ops)), Last(ops))
  }

  ghost predicate ExpiryFollows(st0: State, ops: seq<Op>) {
    var st, rs := After(st0, ops), ExpiryRounds(st0, ops);
    st.expiryDay == ExpiryDayAfter(st0.expiryDay, rs)
    && ExpiryDays(st.sent) == ExpiryDays(st0.sent) + RemindDays(st0.expiryDay, rs)
  }

  lemma ExpiryStep(st: State, op: Op)
    ensures var rs := ExpiryRoundOf(st, op);
            Next(st, op).expiryDay == (if rs != [] && rs[0].wanted then Some(rs[0].day) else st.expiryDay)
            && ExpiryDays(Sends(st, op))
               == if rs != [] && rs[0].wanted && st.expiryDay != Some(rs[0].day) then [rs[0].day] else []
  {
    FlatMapSmall(Sends(st, op), ExpiryDayOf);
    StepNotifier(st, op);
    if op.CheckExpiry? && op.days > 0 {
      SomeAreNamed(op.list, op.now, op.days);
      hide Next, IsListing, ExpiringOf, SomeExpire;
      return;
    }
    hide Next, OfflineDue, LoadDue, TrafficPct, TrafficAlerts.Alerts, ExpiringOf, MarkServer, MarkRule, SomeExpire;
  }

  lemma RemindDaysStep(start: Option<int>, rs: seq<ExpiryRound>, last: seq<ExpiryRound>)
    requires |last| <= 1
    ensures ExpiryDayAfter(start, rs + last)
         == if last != [] && last[0].wanted then Some(last[0].day) else ExpiryDayAfter(start, rs)
    ensures RemindDays(start, rs + last)
         == RemindDays(start, rs)
            + if last != [] && last[0].wanted && ExpiryDayAfter(start, rs) != Some(last[0].day)
              then [last[0].day] else []
  {
    if last == [] {
      assert rs + last == rs;
    } else {
      assert Butlast(rs + last) == rs && (rs + last)[..|rs|] == rs;
    }
  }

  lemma {:induction false} ExpiryFollowsRounds(st0: State, ops: seq<Op>)
    ensures ExpiryFollows(st0, ops)
  {
    if ops == [] {
    } else {
      var pre, op := Butlast(ops), Last(ops);
      var st, rs := After(st0, pre), ExpiryRounds(st0, pre);
      ExpiryFollowsRounds(st0, pre);
      AfterLast(st0, ops);
      ExpiryStep(st, op);
      StepSends(st, op);
      FlatMapConcat(st.sent, Sends(st, op), ExpiryDayOf);
      RemindDaysStep(st0.expiryDay, rs, ExpiryRoundOf(st, op));
      Regroup(ExpiryDays(st0.sent), RemindDays(st0.expiryDay, rs), ExpiryDays(Sends(st, op)));
      hide After, Next, ExpiryRoundOf, Sends, ExpiryDays, RemindDays, ExpiryDayAfter;
    }
  }

  /** Over any run whose calendar days advance a reminder goes out for exactly the days on which
      some round finds a server expiring, except a day already reminded of before the run; each
      once, in order. */
  lemma {:induction false} RemindsOncePerDay(st0: State, ops: seq<Op>, day: int)
    requires Starts(st0)
    requires DaysAdvance(st0.expiryDay, ExpiryRounds(st0, ops))
    ensures var days := ExpiryDays(After(st0, ops).sent);
            (day in days <==> st0.expiryDay != Some(day) && WantedOn(ExpiryRounds(st0, ops), day)) && Ascends(days)
  {
    ExpiryFollowsRounds(st0, ops);
    hide After, ExpiryRounds;
    RemindDaysAscend(st0.expiryDay, ExpiryRounds(st0, ops), day);
  }
}
