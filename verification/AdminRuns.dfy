/** What administration leaves in the tables over whole runs: settings and load rules are those of
    the operations alone, whatever reports, visits and other administration come in between. */
module AdminRuns {
  import opened GoNumbers
  import opened Records
  import opened Seqs
  import opened Storage
  import opened AlertRules
  import opened ServerMachine
  import opened ServerRuns
  import opened AlertRuns
  import Tokens

  // ---- Settings ----

  function SettingsIn(row: ServerRow): Settings {
    Settings(row.name, row.expiredAt, row.trafficLimit, row.trafficType, row.offlineNotify, row.offlineGrace)
  }

  function SettingsAt(servers: Servers, u: string): Option<Settings> {
    if u in servers then Some(SettingsIn(servers[u])) else None
  }

  /** The settings of server u: those it was configured with last, or at first its name, no expiry,
      no limit, traffic counted both ways, and notification after 60 s. */
  function SettingsAfter(st0: State, ops: seq<Op>, u: string): Option<Settings> {
    if ops == [] then SettingsAt(st0.servers, u)
    else
      var before := SettingsAfter(st0, Butlast(ops), u);
      match Last(ops)
      case Configure(v, c) => if v == u && c.name != "" && before.Some? then Some(c) else before
      case Admin(Create(v, name, _)) =>
        if v == u && name != "" && before == None then Some(Settings(name, 0, 0, "sum", true, 60)) else before
      case Admin(Delete(v)) => if v == u then None else before
      case _ => before
  }

  lemma StepSettings(st: State, op: Op, u: string)
    ensures var before := SettingsAt(st.servers, u);
            SettingsAt(Next(st, op).servers, u)
            == match op
               case Configure(v, c) => if v == u && c.name != "" && before.Some? then Some(c) else before
               case Admin(Create(v, name, _)) =>
                 if v == u && name != "" && before == None then Some(Settings(name, 0, 0, "sum", true, 60)) else before
               case Admin(Delete(v)) => if v == u then None else before
               case _ => before
  {
    StepServers(st, op);
    VisitKeepsColumns(st);
    hide Next, VisitOne;
  }

  /** After any run, a server exists with exactly these settings. */
  lemma {:induction false} SettingsFollow(st0: State, ops: seq<Op>, u: string)
    ensures SettingsAt(After(st0, ops).servers, u) == SettingsAfter(st0, ops, u)
  {
    if ops == [] {
    } else {
      SettingsFollow(st0, Butlast(ops), u);
      StepSettings(After(st0, Butlast(ops)), Last(ops), u);
      AfterLast(st0, ops);
      hide After, Next, SettingsAt;
    }
  }

  // ---- Load rules ----

  /** A rule without its mark. */
  function RuleAt(rules: map<int, LoadRule>, id: int): Option<LoadRule> {
    if id in rules then Some(rules[id].(lastNotify := 0)) else None
  }

  function RuleAfter(st0: State, ops: seq<Op>, id: int): Option<LoadRule> {
    if ops == [] then RuleAt(st0.rules, id)
    else
      var before := RuleAfter(st0, Butlast(ops), id);
      match Last(ops)
      case CreateRule(rule) => if rule.id == id && rule.lastNotify == 0 && before == None then Some(rule) else before
      case UpdateRule(rule) => if rule.id == id && before.Some? then Some(rule.(lastNotify := 0)) else before
      case DeleteRule(i) => if i == id then None else before
      case Admin(Delete(u)) => if before.Some? && before.value.serverUUID == u then None else before
      case _ => before
  }

  lemma VisitKeepsRule(st: State, id: int)
    ensures RuleAt(VisitOne(st).rules, id) == RuleAt(st.rules, id)
  {
    hide VisitOffline, VisitTraffic, LoadDue;
  }

  lemma StepRule(st: State, op: Op, id: int)
    ensures var before := RuleAt(st.rules, id);
            RuleAt(Next(st, op).rules, id)
            == match op
               case CreateRule(rule) =>
                 if rule.id == id && rule.lastNotify == 0 && before == None then Some(rule) else before
               case UpdateRule(rule) => if rule.id == id && before.Some? then Some(rule.(lastNotify := 0)) else before
               case DeleteRule(i) => if i == id then None else before
               case Admin(Delete(u)) => if before.Some? && before.value.serverUUID == u then None else before
               case _ => before
  {
    StepRules(st, op);
    VisitKeepsRule(st, id);
    hide Next, VisitOne;
  }

  /** After any run, a rule is in the table exactly as it was created or edited last, unless it was
      deleted or its server was. */
  lemma {:induction false} RulesFollow(st0: State, ops: seq<Op>, id: int)
    ensures RuleAt(After(st0, ops).rules, id) == RuleAfter(st0, ops, id)
  {
    if ops == [] {
    } else {
      RulesFollow(st0, Butlast(ops), id);
      StepRule(After(st0, Butlast(ops)), Last(ops), id);
      AfterLast(st0, ops);
      hide After, Next, RuleAt;
    }
  }
}
