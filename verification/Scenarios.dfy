/** Runs of one server, "a" with the token "t", from an empty database. */
module Scenarios {
  import opened GoNumbers
  import opened Records
  import opened Seqs
  import opened Aggregation
  import opened MinuteTable
  import opened Storage
  import opened RealtimeHub
  import opened ServerMachine
  import opened ServerRuns
  import Tokens
  import Traffic

  const EMPTY := State(map[], map[], map[], None, EMPTY_HUB, map[], Idle, map[], [])

  const CREATE := Admin(Tokens.Create("a", "n", "t"))

  const NEW_ROW := Tokens.NewRow("n", "t")

  /** The only server is "a". */
  predicate OnlyA(st: State) { st.servers.Keys == {"a"} && st.servers["a"].token == "t" }

  function Refreshed(row: ServerRow, month: int, r: Report): ServerRow {
    Traffic.Refresh(row, month, r.netTotalIn, r.netTotalOut)
  }

  lemma {:induction false} AfterConcat(st0: State, a: seq<Op>, b: seq<Op>)
    ensures After(st0, a + b) == After(After(st0, a), b)
  {
    if b == [] {
      assert a + b == a;
    } else {
      hide Next;
      AfterConcat(st0, a, Butlast(b));
      assert Butlast(a + b) == a + Butlast(b) && Last(a + b) == Last(b);
    }
  }

  lemma AfterOne(st: State, op: Op)
    ensures After(st, [op]) == Next(st, op)
  {
    RunExtend(st, [], op);
    assert After(st, []) == st && [] + [op] == [op];
    hide After, Next;
  }

  lemma Created()
    ensures After(EMPTY, [CREATE]) == EMPTY.(servers := map["a" := NEW_ROW])
  {
    AfterOne(EMPTY, CREATE);
    hide After;
  }

  /** One report of "a" from token to hub. */
  function Reporting(r: Report, month: int, now: int): seq<Op> { Handling(0, "t", r, Some("a"), month, now) }

  lemma Reported(st: State, r: Report, month: int, now: int)
    requires 0 !in st.handlers && OnlyA(st)
    ensures var e := Entry("a", r, now);
            After(st, Reporting(r, month, now))
            == st.(servers := map["a" := Refreshed(st.servers["a"], month, r)],
                   hub := HubStep(st.hub, e), stats := SaveFlushes(st.stats, Flushed(st.hub, e)))
  {
    assert Tokens.ByToken(st.servers, "t", "a");
    assert st.servers["a" := Refreshed(st.servers["a"], month, r)] == map["a" := Refreshed(st.servers["a"], month, r)];
    UndisturbedReport(st, 0, "t", r, Some("a"), month, now);
    hide After, HubStep, SaveFlushes, Flushed;
  }

  // ---- A report up to the hub ----

  /** One report of "a" up to the reading of the clock; the hub has yet to take it. */
  function Preparing(c: int, r: Report, now: int): seq<Op> {
    [LookUp(c, "t", r, Some("a"))] + [ReadBase(c, 0)] + [WriteBase(c)] + [ReadClock(c, now)]
  }

  lemma Overwritten(handlers: map<int, Handler>, c: int, h: Handler, h': Handler)
    ensures handlers[c := h][c := h'] == handlers[c := h']
  {}

  /** Up to the write of the base. */
  lemma Settled(st: State, c: int, r: Report)
    requires c !in st.handlers && OnlyA(st)
    ensures After(st, [LookUp(c, "t", r, Some("a"))] + [ReadBase(c, 0)] + [WriteBase(c)])
         == st.(servers := map["a" := Refreshed(st.servers["a"], 0, r)], handlers := st.handlers[c := Recorded("a", r)])
  {
    var look, read, write := LookUp(c, "t", r, Some("a")), ReadBase(c, 0), WriteBase(c);
    assert Tokens.ByToken(st.servers, "t", "a");
    assert st.servers["a" := Refreshed(st.servers["a"], 0, r)] == map["a" := Refreshed(st.servers["a"], 0, r)];
    Overwritten(st.handlers, c, Accepted("a", r), Recorded("a", r));
    Accept(st, c, "t", r, "a");
    Settle(st.(handlers := st.handlers[c := Accepted("a", r)]), c, 0);
    hide After, Next, Tokens.IsLookup;
    AfterOne(st, look);
    RunExtend(st, [look], read);
    RunExtend(st, [look] + [read], write);
  }

  lemma Prepared(st: State, c: int, r: Report, now: int)
    requires c !in st.handlers && OnlyA(st)
    ensures After(st, Preparing(c, r, now))
         == st.(servers := map["a" := Refreshed(st.servers["a"], 0, r)],
                handlers := st.handlers[c := Timed("a", r, now)])
  {
    var three := [LookUp(c, "t", r, Some("a"))] + [ReadBase(c, 0)] + [WriteBase(c)];
    Settled(st, c, r);
    RunExtend(st, three, ReadClock(c, now));
    Overwritten(st.handlers, c, Recorded("a", r), Timed("a", r, now));
    hide After, Refreshed;
  }

  // ---- What a run logs ----

  lemma {:induction false} LogConcat(st0: State, a: seq<Op>, b: seq<Op>)
    ensures Log(st0, a + b) == Log(st0, a) + Log(After(st0, a), b)
  {
    if b == [] {
      assert a + b == a;
    } else {
      LogConcat(st0, a, Butlast(b));
      AfterConcat(st0, a, Butlast(b));
      assert Butlast(a + b) == a + Butlast(b) && Last(a + b) == Last(b);
      hide After, Arriving;
      Regroup(Log(st0, a), Log(After(st0, a), Butlast(b)), Arriving(After(st0, a + Butlast(b)), Last(b)));
    }
  }

  lemma {:induction false} ReadingsConcat(st0: State, a: seq<Op>, b: seq<Op>, u: string)
    ensures Readings(st0, a + b, u) == Readings(st0, a, u) + Readings(After(st0, a), b, u)
  {
    if b == [] {
      assert a + b == a;
    } else {
      ReadingsConcat(st0, a, Butlast(b), u);
      AfterConcat(st0, a, Butlast(b));
      assert Butlast(a + b) == a + Butlast(b) && Last(a + b) == Last(b);
      hide After, ReadingOf;
      var last := ReadingOf(After(st0, a + Butlast(b)), Last(b), u);
      Regroup(Readings(st0, a, u), Readings(After(st0, a), Butlast(b), u), last);
    }
  }

  /** Steps that hand nothing to the hub, and read no clock, leave no trace in the log. */
  lemma {:induction false} NothingLogged(st0: State, ops: seq<Op>, u: string)
    ensures (forall i :: 0 <= i < |ops| ==> !ops[i].Ingest?) ==> Log(st0, ops) == []
    ensures (forall i :: 0 <= i < |ops| ==> !ops[i].ReadClock?) ==> Readings(st0, ops, u) == []
  {
    hide After;
    if ops == [] {
    } else {
      NothingLogged(st0, Butlast(ops), u);
      assert Last(ops) == ops[|ops| - 1];
    }
  }

  lemma LoggedOne(st: State, op: Op, u: string)
    ensures Log(st, [op]) == Arriving(st, op) && Readings(st, [op], u) == ReadingOf(st, op, u)
  {
    assert Butlast([op]) == [] && After(st, []) == st && Log(st, []) == [] && Readings(st, [], u) == [];
    hide After, Arriving, ReadingOf;
  }

  lemma PreparedLogs(st: State, c: int, r: Report, now: int)
    requires c !in st.handlers && OnlyA(st)
    ensures Log(st, Preparing(c, r, now)) == [] && Readings(st, Preparing(c, r, now), "a") == [now]
  {
    var three := [LookUp(c, "t", r, Some("a"))] + [ReadBase(c, 0)] + [WriteBase(c)];
    Settled(st, c, r);
    NothingLogged(st, Preparing(c, r, now), "a");
    NothingLogged(st, three, "a");
    hide After, Log, Refreshed;
    ReadingsConcat(st, three, [ReadClock(c, now)], "a");
    LoggedOne(After(st, three), ReadClock(c, now), "a");
  }

  /** The hub takes a prepared report. */
  lemma Taken(st: State, c: int)
    requires c in st.handlers && st.handlers[c].Timed?
    ensures var e := Entry(st.handlers[c].uuid, st.handlers[c].report, st.handlers[c].now);
            After(st, [Ingest(c)]) == st.(handlers := st.handlers - {c}, hub := HubStep(st.hub, e),
                                          stats := SaveFlushes(st.stats, Flushed(st.hub, e)))
            && Log(st, [Ingest(c)]) == [e] && Readings(st, [Ingest(c)], "a") == []
  {
    AfterOne(st, Ingest(c));
    LoggedOne(st, Ingest(c), "a");
    hide After, Log, Readings, HubStep, SaveFlushes, Flushed;
  }

  // ---- A run of two minutes ----

  /** A server and a rule are created, and the server reports in minute t and in
      the next one. */
  function Setup(rule: LoadRule, r: Report, t: int): seq<Op> {
    [CREATE] + [CreateRule(rule)] + Reporting(r, 0, t + 1) + Reporting(r, 0, t + 61)
  }

  /** t begins a minute. */
  predicate IsMinute(t: int) { t >= 0 && t % 60 == 0 }

  function FirstMinute(r: Report, t: int): MinutePoint { Average(t, Plus(ZERO, Sample(r)), 1) }

  function HubAfterOne(r: Report, t: int): HubView { HubStep(EMPTY_HUB, Entry("a", r, t + 1)) }

  lemma WithRule(rule: LoadRule)
    requires rule.id == 1 && rule.lastNotify == 0
    ensures After(EMPTY, [CREATE] + [CreateRule(rule)])
         == EMPTY.(servers := map["a" := NEW_ROW], rules := map[1 := rule])
  {
    Created();
    RunExtend(EMPTY, [CREATE], CreateRule(rule));
    hide After;
  }

  /** What the two reports flush: nothing, then the first minute. */
  lemma FlushedByBoth(r: Report, t: int)
    requires IsMinute(t)
    ensures Flushed(EMPTY_HUB, Entry("a", r, t + 1)) == []
    ensures Flushed(HubAfterOne(r, t), Entry("a", r, t + 61)) == [Flush("a", Ring(t, Plus(ZERO, Sample(r)), 1))]
  {
    assert Bucket(t + 1) == t && Bucket(t + 61) == t + 60;
    hide Sample, Plus, Bucket;
  }

  /** The state after the first report. */
  function AfterFirst(rule: LoadRule, r: Report, t: int): State {
    EMPTY.(servers := map["a" := Refreshed(NEW_ROW, 0, r)], rules := map[1 := rule], hub := HubAfterOne(r, t))
  }

  lemma FirstLeadsTo(rule: LoadRule, r: Report, t: int)
    requires IsMinute(t) && rule.id == 1 && rule.lastNotify == 0
    ensures After(EMPTY, [CREATE] + [CreateRule(rule)] + Reporting(r, 0, t + 1)) == AfterFirst(rule, r, t)
  {
    var create := [CREATE] + [CreateRule(rule)];
    hide After, Flushed, Reporting, HubStep, Refreshed;
    WithRule(rule);
    FlushedByBoth(r, t);
    AfterConcat(EMPTY, create, Reporting(r, 0, t + 1));
    Reported(After(EMPTY, create), r, 0, t + 1);
  }

  lemma SecondFlush(r: Report, t: int)
    requires IsMinute(t)
    ensures SaveFlushes(map[], Flushed(HubAfterOne(r, t), Entry("a", r, t + 61))) == map[("a", t) := FirstMinute(r, t)]
  {
    FlushedByBoth(r, t);
    OneFlush(map[], "a", Ring(t, Plus(ZERO, Sample(r)), 1));
    assert FirstMinute(r, t).time == t;
    assert map[][("a", t) := FirstMinute(r, t)] == map[("a", t) := FirstMinute(r, t)];
    hide Flushed, SaveFlushes, HubStep, Sample, Plus, Average;
  }

  lemma SecondLeadsTo(rule: LoadRule, r: Report, t: int)
    requires IsMinute(t)
    ensures var st, e := AfterFirst(rule, r, t), Entry("a", r, t + 61);
            After(st, Reporting(r, 0, t + 61))
            == st.(servers := map["a" := Refreshed(Refreshed(NEW_ROW, 0, r), 0, r)],
                   hub := HubStep(HubAfterOne(r, t), e), stats := map[("a", t) := FirstMinute(r, t)])
  {
    assert OnlyA(AfterFirst(rule, r, t));
    hide After, Flushed, Reporting, HubStep, HubAfterOne, SaveFlushes, FirstMinute, Refreshed, OnlyA;
    SecondFlush(r, t);
    Reported(AfterFirst(rule, r, t), r, 0, t + 61);
  }

  /** The state it leads to. */
  lemma SetupLeadsTo(rule: LoadRule, r: Report, t: int)
    requires IsMinute(t) && rule.id == 1 && rule.lastNotify == 0
    ensures var st := After(EMPTY, Setup(rule, r, t));
            st.servers == map["a" := Refreshed(Refreshed(NEW_ROW, 0, r), 0, r)] && st.rules == map[1 := rule]
            && st.stats == map[("a", t) := FirstMinute(r, t)]
            && st.hub.lastSeen == map["a" := t + 61] && st.task == Idle && st.sent == []
  {
    hide After, Reporting, NextRing, Flushed, Refreshed, FirstMinute;
    FirstLeadsTo(rule, r, t);
    SecondLeadsTo(rule, r, t);
    AfterConcat(EMPTY, [CREATE] + [CreateRule(rule)] + Reporting(r, 0, t + 1), Reporting(r, 0, t + 61));
  }

  // ---- The load check ----

  lemma HistoryOfOne(p: MinutePoint, u: string, since: int)
    requires since <= p.time
    ensures var t: Table := map[("a", p.time) := p];
            WellKeyed(t) && HistorySince(t, u, since) == if u == "a" then [p] else []
  {
    var t: Table, out := map[("a", p.time) := p], if u == "a" then [p] else [];
    forall q ensures q in out <==> Selected(t, u, since, q) {}
    hide HistorySince;
    HistoryUnique(out, t, u, since);
  }

  lemma OnlyMinute(p: MinutePoint, hist: History, since: int)
    requires since <= p.time && IsRecent(hist, map[("a", p.time) := p], since)
    ensures hist == map["a" := [p]]
  {
    hide HistorySince;
    forall u ensures u in hist <==> u == "a" { HistoryOfOne(p, u, since); }
    HistoryOfOne(p, "a", since);
  }

  /** The load check of the code: list the rules, read the history, visit the one rule. */
  function LoadCheck(hist: History, since: int, now: int): seq<Op> {
    [ListRules] + [ReadHistory(hist, since, now)] + [VisitNext]
  }

  lemma LoadCheckListed(st: State, hist: History, since: int, now: int, rule: LoadRule)
    requires st.task == Idle && st.rules != map[] && IsRecent(hist, st.stats, since) && RuleList(st.rules) == [rule]
    ensures Next(st, ListRules) == st.(task := RulesTask([rule]))
    ensures Next(st.(task := RulesTask([rule])), ReadHistory(hist, since, now))
         == st.(task := LoadTask([rule], hist, now))
  {
    hide IsRecent, RuleList;
  }

  /** The three steps of a check of one rule. */
  lemma LoadCheckSteps(st: State, hist: History, since: int, now: int, rule: LoadRule)
    requires st.task == Idle && st.rules != map[] && IsRecent(hist, st.stats, since) && RuleList(st.rules) == [rule]
    ensures After(st, LoadCheck(hist, since, now)) == Next(st.(task := LoadTask([rule], hist, now)), VisitNext)
  {
    hide Next, After, IsRecent, RuleList;
    LoadCheckListed(st, hist, since, now, rule);
    AfterOne(st, ListRules);
    RunExtend(st, [ListRules], ReadHistory(hist, since, now));
    RunExtend(st, [ListRules] + [ReadHistory(hist, since, now)], VisitNext);
  }

  lemma OneRule(rule: LoadRule)
    requires rule.id == 1
    ensures RuleList(map[1 := rule]) == [rule]
  {
    var rules := map[1 := rule];
    assert rules[1] in RuleList(rules);
    assert |rules| == 1;
  }
}
