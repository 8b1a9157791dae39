/** What holds over all runs of the server, however its goroutines interleave: which reports are
    taken as whose, what the hub and the stored minutes are, and what the listing shows. */
module ServerRuns {
  import opened GoNumbers
  import opened Records
  import opened Seqs
  import opened Aggregation
  import opened StreamBatch
  import opened MinuteTable
  import opened Storage
  import opened RealtimeHub
  import opened Traffic
  import opened ApiHandlers
  import opened ServerMachine
  import MonthlyRace
  import Tokens

  // ---- Attribution ----

  function AdminOps(ops: seq<Op>): seq<Tokens.Op> {
    if ops == [] then []
    else AdminOps(Butlast(ops)) + if Last(ops).Admin? then [Last(ops).op] else []
  }

  /** Two tables that differ in no token column. */
  ghost predicate SameTokens(s: Servers, t: Servers) {
    s.Keys == t.Keys && forall u :: u in s ==> s[u].token == t[u].token && s[u].tokenHash == t[u].tokenHash
  }

  lemma SameLookup(s: Servers, t: Servers, tok: string, r: Option<string>)
    requires SameTokens(s, t) && Tokens.IsLookup(s, tok, r)
    ensures Tokens.IsLookup(t, tok, r)
  {
    assert forall u :: Tokens.ByToken(s, tok, u) <==> Tokens.ByToken(t, tok, u);
    assert forall u :: Tokens.ByDigest(s, tok, u) <==> Tokens.ByDigest(t, tok, u);
  }

  lemma AdminKeepsSame(s: Servers, t: Servers, op: Tokens.Op)
    requires SameTokens(s, t)
    ensures SameTokens(Tokens.Apply(s, op), Tokens.Apply(t, op))
  {}

  /** Only administration touches the token columns. */
  lemma StepKeepsTokens(st: State, op: Op)
    ensures op.Admin? ==> Next(st, op).servers == Tokens.Apply(st.servers, op.op)
    ensures !op.Admin? ==> SameTokens(Next(st, op).servers, st.servers)
  {
    StepServers(st, op);
    VisitKeepsColumns(st);
    hide Next, VisitOne, Tokens.Apply;
  }

  lemma {:induction false} RunKeepsTokens(st0: State, ops: seq<Op>)
    ensures SameTokens(After(st0, ops).servers, Tokens.Run(st0.servers, AdminOps(ops)))
  {
    if ops == [] {
    } else {
      var pre, op := Butlast(ops), Last(ops);
      RunKeepsTokens(st0, pre);
      StepKeepsTokens(After(st0, pre), op);
      hide Next, Tokens.Apply;
      if op.Admin? {
        assert Butlast(AdminOps(ops)) == AdminOps(pre);
        AdminKeepsSame(After(st0, pre).servers, Tokens.Run(st0.servers, AdminOps(pre)), op.op);
      } else {
        assert AdminOps(ops) == AdminOps(pre);
      }
    }
  }

  /** After any run a lookup finds server u exactly when the token is the one issued last to u
      and u still exists. */
  lemma {:induction false} LookUpIsAttributed(
      st0: State, ops: seq<Op>, c: int, tok: string, r: Report, found: Option<string>, u: string)
    requires Tokens.Wellformed(st0.servers) && Tokens.Fresh(st0.servers, AdminOps(ops))
    requires Enabled(After(st0, ops), LookUp(c, tok, r, found))
    ensures found == Some(u) <==> Tokens.Current(st0.servers, AdminOps(ops), u) == Some(tok)
  {
    RunKeepsTokens(st0, ops);
    assert Tokens.IsLookup(After(st0, ops).servers, tok, found);
    hide Enabled, After, Tokens.IsLookup, SameTokens;
    SameLookup(After(st0, ops).servers, Tokens.Run(st0.servers, AdminOps(ops)), tok, found);
    Tokens.LookupFindsCurrentOwner(st0.servers, AdminOps(ops), tok, found, u);
  }

  /** The report the hub takes in this step, if it takes one. */
  function Arriving(st: State, op: Op): seq<Entry> {
    if op.Ingest? && op.call in st.handlers && st.handlers[op.call].Timed?
    then [Entry(st.handlers[op.call].uuid, st.handlers[op.call].report, st.handlers[op.call].now)]
    else []
  }

  /** The reports taken, in the order the hub took them. */
  ghost function Log(st0: State, ops: seq<Op>): seq<Entry> {
    if ops == [] then [] else Log(st0, Butlast(ops)) + Arriving(After(st0, Butlast(ops)), Last(ops))
  }

  /** Operation k looked call c up and found server u. */
  ghost predicate Found(st0: State, ops: seq<Op>, k: int, c: int, u: string, r: Report)
    requires 0 <= k < |ops|
  {
    ops[k].LookUp? && ops[k].call == c && ops[k].report == r && ops[k].found == Some(u)
    && Enabled(After(st0, ops[..k]), ops[k])
  }

  /** The lookup that the handler of call c stems from. */
  ghost function Origin(st0: State, ops: seq<Op>, c: int): Option<nat> {
    if ops == [] then None
    else
      var st, op := After(st0, Butlast(ops)), Last(ops);
      if op.LookUp? && op.call == c && op.found.Some? && Enabled(st, op) then Some(|ops| - 1)
      else if Arriving(st, op) != [] && op.call == c then None
      else Origin(st0, Butlast(ops), c)
  }

  lemma StepHandler(st: State, op: Op, c: int)
    ensures var st' := Next(st, op);
            if op.LookUp? && op.call == c && op.found.Some? && Enabled(st, op)
            then c !in st.handlers && c in st'.handlers && st'.handlers[c] == Accepted(op.found.value, op.report)
            else if Arriving(st, op) != [] && op.call == c then c in st.handlers && c !in st'.handlers
            else (c in st'.handlers <==> c in st.handlers)
                 && (c in st.handlers ==>
                       st'.handlers[c].uuid == st.handlers[c].uuid && st'.handlers[c].report == st.handlers[c].report)
  {
    StepHandlers(st, op);
    hide Next, Tokens.IsLookup;
  }

  /** No report of call c was taken after operation o. */
  ghost predicate NotTakenSince(st0: State, ops: seq<Op>, o: int, c: int) {
    forall j :: o < j < |ops| && 0 <= j && ops[j].Ingest? && ops[j].call == c ==>
      Arriving(After(st0, ops[..j]), ops[j]) == []
  }

  /** Handler c comes from its origin, and was not taken since. */
  ghost predicate WasFound(st0: State, ops: seq<Op>, c: int) {
    var st, o := After(st0, ops), Origin(st0, ops, c);
    (c in st.handlers <==> o.Some?)
    && (o.Some? ==>
          o.value < |ops| && Found(st0, ops, o.value, c, st.handlers[c].uuid, st.handlers[c].report)
          && NotTakenSince(st0, ops, o.value, c))
  }

  lemma FoundLater(st0: State, ops: seq<Op>, o: nat, c: int, u: string, r: Report)
    requires ops != [] && o < |ops| - 1
    requires Found(st0, Butlast(ops), o, c, u, r) && NotTakenSince(st0, Butlast(ops), o, c)
    requires Arriving(After(st0, Butlast(ops)), Last(ops)) == [] || Last(ops).call != c
    ensures Found(st0, ops, o, c, u, r) && NotTakenSince(st0, ops, o, c)
  {
    var pre := Butlast(ops);
    hide After, Enabled;
    assert ops[..o] == pre[..o] && ops[..|pre|] == pre;
    forall j | o < j < |ops| && ops[j].Ingest? && ops[j].call == c
      ensures Arriving(After(st0, ops[..j]), ops[j]) == [] {
      if j < |pre| { assert ops[..j] == pre[..j]; }
    }
  }

  lemma {:induction false} HandlersWereFound(st0: State, ops: seq<Op>, c: int)
    requires st0.handlers == map[]
    ensures WasFound(st0, ops, c)
  {
    if ops == [] {
    } else {
      var pre, op := Butlast(ops), Last(ops);
      var st := After(st0, pre);
      HandlersWereFound(st0, pre, c);
      StepHandler(st, op, c);
      AfterLast(st0, ops);
      assert ops[..|ops| - 1] == pre;
      var o, o' := Origin(st0, pre, c), Origin(st0, ops, c);
      hide After, Next, Enabled, Arriving;
      if o'.Some? && o' == o {
        if o.value < |pre| { FoundLater(st0, ops, o.value, c, st.handlers[c].uuid, st.handlers[c].report); }
      }
    }
  }

  lemma {:induction false} AdminOpsPrefix(ops: seq<Op>, k: nat)
    requires k <= |ops|
    ensures AdminOps(ops[..k]) <= AdminOps(ops)
  {
    if k < |ops| {
      AdminOpsPrefix(Butlast(ops), k);
      assert Butlast(ops)[..k] == ops[..k];
    } else {
      assert ops[..k] == ops;
    }
  }

  lemma FreshPrefix(s0: Servers, a: seq<Tokens.Op>, b: seq<Tokens.Op>)
    requires Tokens.Fresh(s0, b) && a <= b
    ensures Tokens.Fresh(s0, a)
  {
    assert forall k :: 0 <= k < |a| ==> a[k] == b[k];
  }

  /** A report the hub takes as server u's was brought under the token that was u's when it was
      looked up; and no other report was taken from that lookup. Between the two the server may
      have been deleted or given another token. */
  lemma {:induction false} ReportIsAttributed(st0: State, ops: seq<Op>, u: string)
    requires Tokens.Wellformed(st0.servers) && Tokens.Fresh(st0.servers, AdminOps(ops)) && st0.handlers == map[]
    requires ops != [] && Arriving(After(st0, Butlast(ops)), Last(ops)) != []
    requires Arriving(After(st0, Butlast(ops)), Last(ops))[0].uuid == u
    ensures var c, e := Last(ops).call, Arriving(After(st0, Butlast(ops)), Last(ops))[0];
            exists o: nat :: o < |ops| - 1 && Found(st0, ops, o, c, u, e.report)
              && Tokens.Current(st0.servers, AdminOps(ops[..o]), u) == Some(ops[o].token)
              && NotTakenSince(st0, Butlast(ops), o, c)
  {
    var pre, c := Butlast(ops), Last(ops).call;
    var e := Arriving(After(st0, pre), Last(ops))[0];
    HandlersWereFound(st0, pre, c);
    var o := Origin(st0, pre, c).value;
    assert ops[..o] == pre[..o] && ops[o] == pre[o];
    AdminOpsPrefix(ops, o);
    FreshPrefix(st0.servers, AdminOps(ops[..o]), AdminOps(ops));
    LookUpIsAttributed(st0, ops[..o], c, ops[o].token, ops[o].report, ops[o].found, u);
    assert Found(st0, ops, o, c, u, e.report);
  }

  // ---- The hub and the stored minutes follow the log ----

  lemma StepHub(st: State, op: Op)
    ensures var es := Arriving(st, op);
            Next(st, op).hub == if es == [] then st.hub else HubStep(st.hub, es[0])
  {
    hide HubStep, SaveFlushes, Flushed, VisitOne, Tokens.Apply, Tokens.IsLookup, IsListing, IsRecent, RuleList, Seen;
  }

  /** The live maps, the recent buffers and the rings are those of the log alone. */
  lemma {:induction false} HubFollowsLog(st0: State, ops: seq<Op>)
    requires Starts(st0)
    ensures After(st0, ops).hub == Aggregation.Run(Log(st0, ops))
  {
    if ops == [] {
    } else {
      var pre := Butlast(ops);
      var es := Arriving(After(st0, pre), Last(ops));
      HubFollowsLog(st0, pre);
      StepHub(After(st0, pre), Last(ops));
      hide HubStep, Next, Arriving;
      if es == [] {
        assert Log(st0, ops) == Log(st0, pre);
      } else {
        assert es == [es[0]] && Butlast(Log(st0, ops)) == Log(st0, pre);
      }
    }
  }

  lemma LogLast(st0: State, ops: seq<Op>)
    requires ops != []
    ensures var es := Arriving(After(st0, Butlast(ops)), Last(ops));
            |es| <= 1 && Log(st0, ops) == Log(st0, Butlast(ops)) + es
  {
    hide After;
  }

  /** The operation removes the row of minute b of server u. */
  predicate Removes(op: Op, u: string, b: int) {
    op == Admin(Tokens.Delete(u)) || (op.Prune? && b < Cutoff(op.now, op.keepDays))
  }

  /** The row of minute b of server u, as the run's history has it: the average of the visit that
      a report of u ended last, or what was found at the start; gone once deleted or pruned. */
  ghost function Expected(st0: State, ops: seq<Op>, u: string, b: int): Option<MinutePoint> {
    if ops == [] then if (u, b) in st0.stats then Some(st0.stats[(u, b)]) else None
    else
      var pre, op := Butlast(ops), Last(ops);
      var v := Ending(st0, pre, op, u, b);
      if Removes(op, u, b) then None
      else if v != [] then Some(MeanRow(b, v))
      else Expected(st0, pre, u, b)
  }

  /** The visit to minute b of server u that one more operation ends, if it ends one. */
  ghost function Ending(st0: State, pre: seq<Op>, op: Op, u: string, b: int): seq<Report> {
    var es := Arriving(After(st0, pre), op);
    if es == [] then [] else Closing(Log(st0, pre), es[0], u, b)
  }

  function RowAt(t: Table, u: string, b: int): Option<MinutePoint> {
    if (u, b) in t then Some(t[(u, b)]) else None
  }

  lemma StepStatsPruned(st: State, op: Op, u: string, b: int)
    requires op.Admin? || op.Prune?
    ensures if Removes(op, u, b) then (u, b) !in Next(st, op).stats else SameAt(Next(st, op).stats, st.stats, (u, b))
  {
    hide VisitOne, Tokens.Apply, WithoutRules;
  }

  lemma StepStats(st: State, op: Op, u: string, b: int)
    ensures var es, t' := Arriving(st, op), Next(st, op).stats;
            if Removes(op, u, b) then (u, b) !in t'
            else SameAt(t', if es == [] then st.stats else SaveFlushes(st.stats, Flushed(st.hub, es[0])), (u, b))
  {
    if op.Admin? || op.Prune? {
      StepStatsPruned(st, op, u, b);
      hide Next, SameAt;
    } else {
      hide HubStep, SaveFlushes, Flushed, VisitOne, Tokens.IsLookup, IsListing, IsRecent, RuleList, Seen;
    }
  }

  /** Over all runs, under any clocks and however handlers overlap, every minute of every server is
      stored exactly as its history has it. */
  lemma {:induction false} StoredMinutesOfServer(st0: State, ops: seq<Op>, u: string, b: int)
    requires Starts(st0)
    ensures RowAt(After(st0, ops).stats, u, b) == Expected(st0, ops, u, b)
  {
    if ops == [] {
    } else {
      var pre, op := Butlast(ops), Last(ops);
      var st, log := After(st0, pre), Log(st0, pre);
      StoredMinutesOfServer(st0, pre, u, b);
      HubFollowsLog(st0, pre);
      StepStats(st, op, u, b);
      AfterLast(st0, ops);
      var es := Arriving(st, op);
      hide After, SaveFlushes, Flushed, Next, Arriving, Log, Aggregation.Run, MeanRow, Closing;
      if es != [] { ReportWrites(st.stats, log, es[0], u, b); }
    }
  }

  /** No prune of the run removed minute b. */
  predicate NeverPruned(ops: seq<Op>, b: int) {
    forall i :: 0 <= i < |ops| && ops[i].Prune? ==> Cutoff(ops[i].now, ops[i].keepDays) <= b
  }

  lemma ClosedVisitExtend(log: seq<Entry>, es: seq<Entry>, u: string, b: int)
    requires |es| <= 1
    ensures var v := if es == [] then [] else Closing(log, es[0], u, b);
            ClosedVisit(log + es, u, b) == if v != [] then v else ClosedVisit(log, u, b)
  {
    hide Closing;
    if es == [] {
      assert log + es == log;
    } else {
      assert es == [es[0]] && Butlast(log + es) == log;
    }
  }

  /** Without a deletion or a prune it is the last visit of the log. */
  lemma {:induction false} ExpectedIsLastVisit(st0: State, ops: seq<Op>, u: string, b: int)
    requires NeverDeleted(ops, u) && NeverPruned(ops, b)
    ensures var v := ClosedVisit(Log(st0, ops), u, b);
            Expected(st0, ops, u, b) == if v != [] then Some(MeanRow(b, v)) else RowAt(st0.stats, u, b)
  {
    if ops == [] {
    } else {
      var pre, op := Butlast(ops), Last(ops);
      NotDeletedLast(ops, u);
      ExpectedIsLastVisit(st0, pre, u, b);
      LogLast(st0, ops);
      hide After, Arriving, Log, MeanRow, Closing, ClosedVisit;
      ClosedVisitExtend(Log(st0, pre), Arriving(After(st0, pre), op), u, b);
    }
  }

  /** ... and once the minute is left it is the batch average exactly when its clock entered the
      minute once. */
  lemma {:induction false} StoredIsBatchIff(st0: State, ops: seq<Op>, u: string, b: int)
    requires Starts(st0) && NeverDeleted(ops, u) && NeverPruned(ops, b)
    requires InMinute(Log(st0, ops), u, b) != [] && OpenBucket(Log(st0, ops), u) != Some(b)
    ensures var log, stats := Log(st0, ops), After(st0, ops).stats; var v := ClosedVisit(log, u, b);
            v != [] && (u, b) in stats && stats[(u, b)] == MeanRow(b, v)
            && (|v| == |InMinute(log, u, b)| <==> Visits(log, u, b) == 1)
            && (Visits(log, u, b) == 1 ==> stats[(u, b)] == Batch(log, u, b))
  {
    StoredMinutesOfServer(st0, ops, u, b);
    ExpectedIsLastVisit(st0, ops, u, b);
    RowCompleteIffVisitedOnce(map[], Log(st0, ops), u, b);
    hide After, Log, Expected, Average, Total, InMinute, ClosedVisit, Visits, OpenBucket, Stored;
  }

  /** p averages reports that were taken as server u's in minute b, and lies between their extremes. */
  ghost predicate Averages(p: MinutePoint, log: seq<Entry>, u: string, b: int) {
    exists rs :: rs != [] && p == MeanRow(b, rs) && Bounded(p, rs)
                 && forall r :: r in rs ==> r in InMinute(log, u, b)
  }

  lemma {:induction false} InMinuteGrows(log: seq<Entry>, es: seq<Entry>, u: string, b: int, r: Report)
    requires |es| <= 1 && r in InMinute(log, u, b)
    ensures r in InMinute(log + es, u, b)
  {
    if es == [] {
      assert log + es == log;
    } else {
      assert Butlast(log + es) == log;
    }
  }

  lemma AveragesStill(p: MinutePoint, log: seq<Entry>, es: seq<Entry>, u: string, b: int)
    requires |es| <= 1 && Averages(p, log, u, b)
    ensures Averages(p, log + es, u, b)
  {
    var rs :| rs != [] && p == MeanRow(b, rs) && Bounded(p, rs) && forall r :: r in rs ==> r in InMinute(log, u, b);
    forall r | r in rs ensures r in InMinute(log + es, u, b) { InMinuteGrows(log, es, u, b, r); }
  }

  lemma {:induction false} ExpectedAverages(st0: State, ops: seq<Op>, u: string, b: int)
    ensures var p := Expected(st0, ops, u, b);
            p.Some? ==> p == RowAt(st0.stats, u, b) || Averages(p.value, Log(st0, ops), u, b)
  {
    if ops == [] {
    } else {
      var pre, op := Butlast(ops), Last(ops);
      var log, v := Log(st0, pre), Ending(st0, pre, op, u, b);
      ExpectedAverages(st0, pre, u, b);
      LogLast(st0, ops);
      var es := Arriving(After(st0, pre), op);
      if v != [] {
        RowBounds(b, v);
        forall r | r in v ensures r in InMinute(log, u, b) { VisitInMinute(log, u, b, r); }
        assert Averages(MeanRow(b, v), log, u, b);
      }
      hide After, Arriving, Log, MeanRow, Closing, Averages, Ending;
      forall p: MinutePoint | Averages(p, log, u, b) ensures Averages(p, log + es, u, b) {
        AveragesStill(p, log, es, u, b);
      }
    }
  }

  /** Over all runs: every stored row was found at the start, or lies field by field between the
      least and the greatest of reports taken as its server's in its minute, and averages them. */
  lemma {:induction false} EveryStoredRow(st0: State, ops: seq<Op>, u: string, b: int)
    requires Starts(st0) && (u, b) in After(st0, ops).stats
    ensures var p := After(st0, ops).stats[(u, b)];
            Some(p) == RowAt(st0.stats, u, b) || Averages(p, Log(st0, ops), u, b)
  {
    StoredMinutesOfServer(st0, ops, u, b);
    ExpectedAverages(st0, ops, u, b);
    hide After, Log, Expected, Averages;
  }

  // ---- The monthly base follows the calls that record it ----

  /** What this step does to the base of server u, as a step of MonthlyTrafficRecord. */
  function RecordStep(st: State, op: Op, u: string): seq<MonthlyRace.Step> {
    if op.ReadBase? && op.call in st.handlers && st.handlers[op.call].Accepted? && st.handlers[op.call].uuid == u then
      var r := st.handlers[op.call].report;
      [MonthlyRace.Read(op.call, Meter(op.month, r.netTotalIn, r.netTotalOut))]
    else if op.WriteBase? && op.call in st.handlers && st.handlers[op.call].Rebasing?
            && st.handlers[op.call].uuid == u then
      [MonthlyRace.Write(op.call)]
    else []
  }

  ghost function RecordSteps(st0: State, ops: seq<Op>, u: string): seq<MonthlyRace.Step> {
    if ops == [] then []
    else RecordSteps(st0, Butlast(ops), u) + RecordStep(After(st0, Butlast(ops)), Last(ops), u)
  }

  /** The columns of the base. */
  ghost predicate SameBase(a: ServerRow, b: ServerRow) {
    a.monthlyBaseIn == b.monthlyBaseIn && a.monthlyBaseOut == b.monthlyBaseOut && a.monthlyReset == b.monthlyReset
  }

  /** The row server u has at the start, or will be created with. */
  function BirthRow(st0: State, u: string): ServerRow {
    if u in st0.servers then st0.servers[u] else Tokens.NewRow("", "")
  }

  function RebasingOf(handlers: map<int, Handler>, u: string): map<int, Meter> {
    map c | c in handlers && handlers[c].uuid == u && handlers[c].Rebasing?
      :: Meter(handlers[c].month, handlers[c].report.netTotalIn, handlers[c].report.netTotalOut)
  }

  ghost predicate IsRecorder(st: State, u: string, s: MonthlyRace.State) {
    && (u in st.servers ==> SameBase(st.servers[u], s.row))
    && s.pending == RebasingOf(st.handlers, u)
    && forall c :: c in st.handlers && st.handlers[c].uuid == u ==> u in st.servers
  }

  lemma RebasingAfter(handlers: map<int, Handler>, c: int, h: Handler, u: string)
    ensures RebasingOf(handlers - {c}, u) == RebasingOf(handlers, u) - {c}
    ensures RebasingOf(handlers[c := h], u)
         == if h.Rebasing? && h.uuid == u
            then RebasingOf(handlers, u)[c := Meter(h.month, h.report.netTotalIn, h.report.netTotalOut)]
            else RebasingOf(handlers, u) - {c}
    ensures !(c in handlers && handlers[c].uuid == u && handlers[c].Rebasing?) ==>
              RebasingOf(handlers, u) - {c} == RebasingOf(handlers, u)
  {}

  /** MonthlyTrafficRecord's view of the step. */
  function RecorderAfter(st: State, op: Op, u: string, s: MonthlyRace.State): MonthlyRace.State {
    var rs := RecordStep(st, op, u);
    if rs == [] then s else MonthlyRace.Apply(s, rs[0])
  }

  lemma PendingFollows(st: State, op: Op, u: string, s: MonthlyRace.State)
    requires IsRecorder(st, u, s)
    ensures RecorderAfter(st, op, u, s).pending == RebasingOf(Next(st, op).handlers, u)
  {
    StepHandlers(st, op);
    hide Next, Enabled, RebasingOf;
    match op
    case LookUp(c, _, r, found) =>
      if Next(st, op).handlers != st.handlers {
        RebasingAfter(st.handlers, c, Accepted(found.value, r), u);
        assert c !in st.handlers by { StepHandler(st, op, c); }
      }
    case ReadBase(c, month) =>
      if c in st.handlers && st.handlers[c].Accepted? {
        RebasingAfter(st.handlers, c, AfterRead(st.handlers[c], st.servers, month), u);
      }
    case WriteBase(c) =>
      if c in st.handlers && st.handlers[c].Rebasing? {
        RebasingAfter(st.handlers, c, Recorded(st.handlers[c].uuid, st.handlers[c].report), u);
        IsPending(st.handlers, c, u);
      }
    case ReadClock(c, now) =>
      if c in st.handlers && st.handlers[c].Recorded? {
        RebasingAfter(st.handlers, c, Timed(st.handlers[c].uuid, st.handlers[c].report, now), u);
      }
    case Ingest(c) =>
      if c in st.handlers && st.handlers[c].Timed? {
        RebasingAfter(st.handlers, c, st.handlers[c], u);
      }
    case _ =>
  }

  lemma IsPending(handlers: map<int, Handler>, c: int, u: string)
    ensures c in RebasingOf(handlers, u) <==> c in handlers && handlers[c].uuid == u && handlers[c].Rebasing?
  {}

  /** Only the update statement writes the columns of the base. */
  lemma StepBase(st: State, op: Op, u: string)
    requires op != Admin(Tokens.Delete(u))
    ensures var servers := Next(st, op).servers;
            if u !in st.servers then u in servers ==> SameBase(servers[u], Tokens.NewRow("", ""))
            else u in servers
                 && if op.WriteBase? && RecordStep(st, op, u) != []
                    then SameBase(servers[u], MonthlyRace.RebaseOn(st.servers[u], RebasingOf(st.handlers, u)[op.call]))
                    else SameBase(servers[u], st.servers[u])
  {
    StepServers(st, op);
    VisitKeepsColumns(st);
    hide Next, Enabled, VisitOne;
  }

  lemma RowFollows(st: State, op: Op, u: string, s: MonthlyRace.State)
    requires IsRecorder(st, u, s) && op != Admin(Tokens.Delete(u))
    requires u !in st.servers ==> SameBase(s.row, Tokens.NewRow("", ""))
    ensures var st', s' := Next(st, op), RecorderAfter(st, op, u, s);
            if u in st'.servers then SameBase(st'.servers[u], s'.row)
            else u !in st.servers && SameBase(s'.row, Tokens.NewRow("", ""))
  {
    StepBase(st, op, u);
    hide Next, RebasingOf;
    if op.WriteBase? { IsPending(st.handlers, op.call, u); }
  }

  lemma HandlersHaveRows(st: State, op: Op, u: string)
    requires op != Admin(Tokens.Delete(u))
    requires forall c :: c in st.handlers && st.handlers[c].uuid == u ==> u in st.servers
    ensures forall c :: c in Next(st, op).handlers && Next(st, op).handlers[c].uuid == u ==> u in Next(st, op).servers
  {
    StepServers(st, op);
    StepHandlers(st, op);
    VisitKeepsColumns(st);
    hide Next, VisitOne;
  }

  /** In every interleaving the base of server u is what its calls of MonthlyTrafficRecord make
      of it, and the handlers about to write are the calls still pending there. */
  lemma {:induction false} BaseFollowsCalls(st0: State, ops: seq<Op>, u: string)
    requires st0.handlers == map[] && NeverDeleted(ops, u)
    ensures var st := After(st0, ops);
            var s := MonthlyRace.Run(MonthlyRace.State(BirthRow(st0, u), map[]), RecordSteps(st0, ops, u));
            IsRecorder(st, u, s)
            && (u !in st.servers ==> SameBase(s.row, Tokens.NewRow("", "")))
  {
    var s0 := MonthlyRace.State(BirthRow(st0, u), map[]);
    if ops == [] {
    } else {
      var pre, op := Butlast(ops), Last(ops);
      assert ops == pre + [op];
      BaseFollowsCalls(st0, pre, u);
      var st, s := After(st0, pre), MonthlyRace.Run(s0, RecordSteps(st0, pre, u));
      var rs := RecordStep(st, op, u);
      PendingFollows(st, op, u, s);
      RowFollows(st, op, u, s);
      HandlersHaveRows(st, op, u);
      hide Next, RebasingOf, MonthlyRace.Apply;
      if rs == [] {
        assert RecordSteps(st0, ops, u) == RecordSteps(st0, pre, u);
      } else {
        assert rs == [rs[0]] && Butlast(RecordSteps(st0, ops, u)) == RecordSteps(st0, pre, u);
      }
    }
  }

  // ---- A server whose reports do not overlap ----

  ghost predicate AtMostOne(handlers: map<int, Handler>, u: string) {
    forall c, d :: c in handlers && d in handlers && handlers[c].uuid == u && handlers[d].uuid == u ==> c == d
  }

  /** No two reports of server u are ever handled at once: its agent waits for each answer. */
  ghost predicate OneAtATime(st0: State, ops: seq<Op>, u: string) {
    AtMostOne(After(st0, ops).handlers, u) && (ops != [] ==> OneAtATime(st0, Butlast(ops), u))
  }

  lemma StepKind(st: State, op: Op, u: string)
    ensures |RecordStep(st, op, u)| <= 1
    ensures RecordStep(st, op, u) != [] ==> (RecordStep(st, op, u)[0].Read? <==> op.ReadBase?)
  {}

  lemma ReaderIsAlone(st: State, op: Op, u: string)
    requires AtMostOne(st.handlers, u) && op.ReadBase? && RecordStep(st, op, u) != []
    ensures RebasingOf(st.handlers, u) == map[]
  {
    forall c ensures c !in RebasingOf(st.handlers, u) { IsPending(st.handlers, c, u); }
  }

  /** Months and counters of server u's reports, in the order they were recorded. */
  ghost function Meters(st0: State, ops: seq<Op>, u: string): seq<Meter> { MonthlyRace.Reads(RecordSteps(st0, ops, u)) }

  lemma {:induction false} OneAtATimeDoesNotOverlap(st0: State, ops: seq<Op>, u: string)
    requires st0.handlers == map[] && NeverDeleted(ops, u) && OneAtATime(st0, ops, u)
    ensures MonthlyRace.NoOverlap(MonthlyRace.State(BirthRow(st0, u), map[]), RecordSteps(st0, ops, u))
  {
    if ops == [] {
    } else {
      var pre, op := Butlast(ops), Last(ops);
      assert ops == pre + [op];
      OneAtATimeDoesNotOverlap(st0, pre, u);
      BaseFollowsCalls(st0, pre, u);
      var st, rs := After(st0, pre), RecordStep(After(st0, pre), op, u);
      if op.ReadBase? && rs != [] { ReaderIsAlone(st, op, u); }
      hide After, MonthlyRace.Run, RecordStep, RebasingOf, AtMostOne;
      if rs == [] {
        assert RecordSteps(st0, ops, u) == RecordSteps(st0, pre, u);
      } else {
        StepKind(st, op, u);
        assert rs == [rs[0]] && Butlast(RecordSteps(st0, ops, u)) == RecordSteps(st0, pre, u);
        assert rs[0].Read? ==> op.ReadBase?;
      }
    }
  }

  /** No report of server u is being handled. */
  ghost predicate Quiet(st: State, u: string) {
    forall c :: c in st.handlers ==> st.handlers[c].uuid != u
  }

  /** At rest the base is that of the recorded reports one after the other. */
  lemma {:induction false} BaseFollowsMeters(st0: State, ops: seq<Op>, u: string)
    requires st0.handlers == map[] && NeverDeleted(ops, u) && OneAtATime(st0, ops, u)
    requires Quiet(After(st0, ops), u) && u in After(st0, ops).servers
    ensures SameBase(After(st0, ops).servers[u], RowAfter(BirthRow(st0, u), Meters(st0, ops, u)))
  {
    OneAtATimeDoesNotOverlap(st0, ops, u);
    BaseFollowsCalls(st0, ops, u);
    MonthlyRace.SerialCallsRefresh(BirthRow(st0, u), RecordSteps(st0, ops, u));
    assert RebasingOf(After(st0, ops).handlers, u) == map[];
    hide After, RecordSteps, MonthlyRace.Run;
  }

  predicate SameTotals(r: Report, m: Meter) { r.netTotalIn == m.totalIn && r.netTotalOut == m.totalOut }

  /** The hub's latest report of u is the last of these. */
  ghost predicate LatestIs(st: State, u: string, ms: seq<Meter>) {
    (u in st.hub.latest <==> ms != []) && (ms != [] ==> SameTotals(st.hub.latest[u], Last(ms)))
  }

  /** Handler c has recorded a report of u that the hub has yet to take. */
  predicate OnItsWay(st: State, u: string, c: int) {
    c in st.handlers && st.handlers[c].uuid == u && !st.handlers[c].Accepted?
  }

  /** The hub has taken every recorded report of u, except the last while a handler still has it. */
  ghost predicate LatestFollows(st: State, u: string, ms: seq<Meter>) {
    && (forall c :: OnItsWay(st, u, c) ==>
          ms != [] && SameTotals(st.handlers[c].report, Last(ms)) && LatestIs(st, u, Butlast(ms)))
    && ((forall c :: !OnItsWay(st, u, c)) ==> LatestIs(st, u, ms))
  }

  /** What the step records of u. */
  function Recording(st: State, op: Op, u: string): seq<Meter> {
    if op.ReadBase? && op.call in st.handlers && st.handlers[op.call].Accepted? && st.handlers[op.call].uuid == u
    then [Meter(op.month, st.handlers[op.call].report.netTotalIn, st.handlers[op.call].report.netTotalOut)]
    else []
  }

  lemma MetersExtend(st0: State, ops: seq<Op>, u: string)
    requires ops != []
    ensures Meters(st0, ops, u) == Meters(st0, Butlast(ops), u) + Recording(After(st0, Butlast(ops)), Last(ops), u)
  {
    var steps, rs := RecordSteps(st0, Butlast(ops), u), RecordStep(After(st0, Butlast(ops)), Last(ops), u);
    hide After;
    if rs == [] {
      assert steps + rs == steps;
    } else {
      assert Butlast(steps + rs) == steps;
    }
  }

  lemma NothingMoves(st: State, st': State, u: string, ms: seq<Meter>)
    requires LatestFollows(st, u, ms) && st'.hub.latest == st.hub.latest
    requires forall c :: OnItsWay(st', u, c) <==> OnItsWay(st, u, c)
    requires forall c :: OnItsWay(st, u, c) && OnItsWay(st', u, c) ==> st'.handlers[c].report == st.handlers[c].report
    ensures LatestFollows(st', u, ms)
  {}

  lemma ReadStarts(st: State, st': State, c: int, month: int, u: string, ms: seq<Meter>)
    requires AtMostOne(st.handlers, u) && LatestFollows(st, u, ms)
    requires c in st.handlers && st.handlers[c].Accepted? && st.handlers[c].uuid == u
    requires st'.hub == st.hub && st'.handlers == st.handlers[c := AfterRead(st.handlers[c], st.servers, month)]
    ensures var r := st.handlers[c].report; LatestFollows(st', u, ms + [Meter(month, r.netTotalIn, r.netTotalOut)])
  {
    var ms' := ms + [Meter(month, st.handlers[c].report.netTotalIn, st.handlers[c].report.netTotalOut)];
    assert Butlast(ms') == ms;
    assert forall d :: !OnItsWay(st, u, d);
    assert OnItsWay(st', u, c) && forall d :: OnItsWay(st', u, d) ==> d == c;
  }

  lemma ReportArrives(st: State, st': State, c: int, u: string, ms: seq<Meter>)
    requires AtMostOne(st.handlers, u) && LatestFollows(st, u, ms)
    requires c in st.handlers && st.handlers[c].Timed? && st'.handlers == st.handlers - {c}
    requires st'.hub.latest == st.hub.latest[st.handlers[c].uuid := st.handlers[c].report]
    ensures LatestFollows(st', u, ms)
  {
    if st.handlers[c].uuid == u {
      assert OnItsWay(st, u, c);
      assert forall d :: !OnItsWay(st', u, d);
      assert LatestIs(st', u, ms);
    } else {
      assert forall d :: OnItsWay(st', u, d) <==> OnItsWay(st, u, d);
    }
  }

  lemma StepLatest(st: State, op: Op, u: string, ms: seq<Meter>)
    requires AtMostOne(st.handlers, u) && LatestFollows(st, u, ms)
    ensures LatestFollows(Next(st, op), u, ms + Recording(st, op, u))
  {
    StepHandlers(st, op);
    StepHub(st, op);
    var st' := Next(st, op);
    hide Next, Enabled, NextRing, LatestFollows;
    if Recording(st, op, u) != [] {
      ReadStarts(st, st', op.call, op.month, u, ms);
    } else {
      assert ms + Recording(st, op, u) == ms;
      if Arriving(st, op) != [] {
        ReportArrives(st, st', op.call, u, ms);
      } else {
        StaysOnItsWay(st, op, u);
        NothingMoves(st, st', u, ms);
      }
    }
  }

  lemma StaysOnItsWay(st: State, op: Op, u: string)
    requires Recording(st, op, u) == [] && Arriving(st, op) == []
    ensures forall c :: OnItsWay(Next(st, op), u, c) <==> OnItsWay(st, u, c)
    ensures forall c :: OnItsWay(st, u, c) ==> Next(st, op).handlers[c].report == st.handlers[c].report
  {
    StepHandlers(st, op);
    if op.LookUp? { StepHandler(st, op, op.call); }
    hide Next, Enabled;
  }

  lemma {:induction false} LatestFollowsMeters(st0: State, ops: seq<Op>, u: string)
    requires Starts(st0) && OneAtATime(st0, ops, u)
    ensures LatestFollows(After(st0, ops), u, Meters(st0, ops, u))
  {
    if ops == [] {
    } else {
      var pre := Butlast(ops);
      LatestFollowsMeters(st0, pre, u);
      StepLatest(After(st0, pre), Last(ops), u, Meters(st0, pre, u));
      MetersExtend(st0, ops, u);
      hide Next, LatestFollows, Meters, Recording;
    }
  }

  // ---- The minutes of a server whose reports do not overlap ----

  /** The clock readings made for reports of u, in the order they were made. */
  function ReadingOf(st: State, op: Op, u: string): seq<int> {
    if op.ReadClock? && op.call in st.handlers && st.handlers[op.call].Recorded? && st.handlers[op.call].uuid == u
    then [op.now] else []
  }

  ghost function Readings(st0: State, ops: seq<Op>, u: string): seq<int> {
    if ops == [] then [] else Readings(st0, Butlast(ops), u) + ReadingOf(After(st0, Butlast(ops)), Last(ops), u)
  }

  /** The times of u's reports, in the order the hub took them. */
  function TimesTaken(log: seq<Entry>, u: string): seq<int> {
    if log == [] then [] else TimesTaken(Butlast(log), u) + if Last(log).uuid == u then [Last(log).now] else []
  }

  ghost predicate NeverBack(times: seq<int>) { forall i, j :: 0 <= i < j < |times| ==> times[i] <= times[j] }

  /** The time that handler c has for a report of u which the hub has yet to take. */
  function TimeOnWay(st: State, u: string, c: int): Option<int> {
    if c in st.handlers && st.handlers[c].uuid == u && st.handlers[c].Timed? then Some(st.handlers[c].now) else None
  }

  /** The hub has taken every reading of u, except the last while a handler still has it. */
  ghost predicate TimesFollow(st: State, u: string, readings: seq<int>, taken: seq<int>) {
    && (forall c :: TimeOnWay(st, u, c).Some? ==> readings == taken + [TimeOnWay(st, u, c).value])
    && ((forall c :: TimeOnWay(st, u, c) == None) ==> readings == taken)
  }

  /** What the step takes of u. */
  function TimeTaken(st: State, op: Op, u: string): seq<int> {
    var es := Arriving(st, op);
    if es != [] && es[0].uuid == u then [es[0].now] else []
  }

  lemma StepTime(st: State, op: Op, u: string, c: int)
    requires AtMostOne(st.handlers, u)
    ensures var before, after := TimeOnWay(st, u, c), TimeOnWay(Next(st, op), u, c);
            if ReadingOf(st, op, u) != [] then before == None && after == if c == op.call then Some(op.now) else None
            else if TimeTaken(st, op, u) != [] then
              after == None && before == if c == op.call then Some(TimeTaken(st, op, u)[0]) else None
            else after == before
  {
    StepHandlers(st, op);
    if op.LookUp? { StepHandler(st, op, op.call); }
    hide Next, Enabled, AfterRead;
  }

  lemma TimeRead(st: State, op: Op, u: string, readings: seq<int>, taken: seq<int>)
    requires AtMostOne(st.handlers, u) && TimesFollow(st, u, readings, taken) && ReadingOf(st, op, u) != []
    ensures TimesFollow(Next(st, op), u, readings + [op.now], taken)
  {
    assert op.ReadClock?;
    hide Next, TimeOnWay, ReadingOf, AtMostOne;
    forall c { StepTime(st, op, u, c); }
    assert TimeOnWay(Next(st, op), u, op.call).Some?;
  }

  lemma TimeHandedOver(st: State, op: Op, u: string, readings: seq<int>, taken: seq<int>)
    requires AtMostOne(st.handlers, u) && TimesFollow(st, u, readings, taken)
    requires ReadingOf(st, op, u) == [] && TimeTaken(st, op, u) != []
    ensures TimesFollow(Next(st, op), u, readings, taken + [TimeTaken(st, op, u)[0]])
  {
    assert op.Ingest?;
    hide Next, TimeOnWay, ReadingOf, TimeTaken, AtMostOne;
    forall c { StepTime(st, op, u, c); }
    assert TimeOnWay(st, u, op.call).Some?;
  }

  lemma TimesStep(st: State, op: Op, u: string, readings: seq<int>, taken: seq<int>)
    requires AtMostOne(st.handlers, u) && TimesFollow(st, u, readings, taken)
    ensures TimesFollow(Next(st, op), u, readings + ReadingOf(st, op, u), taken + TimeTaken(st, op, u))
  {
    ReadsOrTakes(st, op, u);
    assert readings + [] == readings && taken + [] == taken;
    if ReadingOf(st, op, u) != [] {
      hide *;
      TimeRead(st, op, u, readings, taken);
    } else if TimeTaken(st, op, u) != [] {
      hide *;
      TimeHandedOver(st, op, u, readings, taken);
    } else {
      hide Next, TimeOnWay, ReadingOf, TimeTaken, AtMostOne;
      forall c ensures TimeOnWay(Next(st, op), u, c) == TimeOnWay(st, u, c) { StepTime(st, op, u, c); }
    }
  }

  lemma ReadsOrTakes(st: State, op: Op, u: string)
    ensures ReadingOf(st, op, u) != [] ==> ReadingOf(st, op, u) == [op.now] && TimeTaken(st, op, u) == []
    ensures TimeTaken(st, op, u) != [] ==> |TimeTaken(st, op, u)| == 1
  {}

  lemma TakenExtend(log: seq<Entry>, es: seq<Entry>, u: string)
    requires |es| <= 1
    ensures TimesTaken(log + es, u) == TimesTaken(log, u) + if es != [] && es[0].uuid == u then [es[0].now] else []
  {
    if es == [] {
      assert log + es == log;
    } else {
      assert es == [es[0]] && Butlast(log + es) == log;
    }
  }

  lemma {:induction false} TakenAreReadings(st0: State, ops: seq<Op>, u: string)
    requires Starts(st0) && OneAtATime(st0, ops, u)
    ensures TimesFollow(After(st0, ops), u, Readings(st0, ops, u), TimesTaken(Log(st0, ops), u))
  {
    if ops == [] {
    } else {
      var pre, op := Butlast(ops), Last(ops);
      var st := After(st0, pre);
      TakenAreReadings(st0, pre, u);
      AfterLast(st0, ops);
      LogLast(st0, ops);
      hide After, Next, TimesFollow, Arriving, ReadingOf, TimesTaken, Log, AtMostOne;
      TimesStep(st, op, u, Readings(st0, pre, u), TimesTaken(Log(st0, pre), u));
      TakenExtend(Log(st0, pre), Arriving(st, op), u);
    }
  }

  lemma {:induction false} TakenInOrder(log: seq<Entry>, u: string)
    requires NeverBack(TimesTaken(log, u))
    ensures Monotone(log, u)
    ensures forall i :: 0 <= i < |log| && log[i].uuid == u ==> log[i].now in TimesTaken(log, u)
  {
    if log == [] {
    } else {
      var pre, e, times := Butlast(log), Last(log), TimesTaken(Butlast(log), u);
      assert times == TimesTaken(log, u)[..|times|];
      TakenInOrder(pre, u);
      assert forall i :: 0 <= i < |pre| ==> pre[i] == log[i];
      if e.uuid == u {
        forall i | 0 <= i < |pre| && log[i].uuid == u ensures log[i].now <= e.now && log[i].now in TimesTaken(log, u) {
          var k :| 0 <= k < |times| && times[k] == log[i].now;
          assert TimesTaken(log, u)[k] == log[i].now && TimesTaken(log, u)[|times|] == e.now;
        }
        assert TimesTaken(log, u)[|times|] == e.now;
      }
    }
  }

  /** A clock that never goes back gives u's reports in order, if they do not overlap. */
  lemma {:induction false} ReportsInOrder(st0: State, ops: seq<Op>, u: string)
    requires Starts(st0) && OneAtATime(st0, ops, u) && NeverBack(Readings(st0, ops, u))
    ensures Monotone(Log(st0, ops), u)
  {
    TakenAreReadings(st0, ops, u);
    var st, readings, taken := After(st0, ops), Readings(st0, ops, u), TimesTaken(Log(st0, ops), u);
    hide After, Readings, TimesTaken, Log;
    if c :| TimeOnWay(st, u, c).Some? {
      assert readings == taken + [TimeOnWay(st, u, c).value];
      assert taken == readings[..|taken|];
    }
    TakenInOrder(Log(st0, ops), u);
  }

  /** So for a server never deleted or pruned, whose reports do not overlap and whose clock never
      goes back, the stored minutes are the batch averages of its reports, as soon as they are
      left; whatever other servers, clocks, handlers, administration and the notifier do. */
  lemma {:induction false} StoredMinutesAreBatches(st0: State, ops: seq<Op>, u: string, b: int)
    requires Starts(st0) && NeverDeleted(ops, u) && NeverPruned(ops, b)
    requires OneAtATime(st0, ops, u) && NeverBack(Readings(st0, ops, u))
    ensures var log, stats := Log(st0, ops), After(st0, ops).stats;
            RowAt(stats, u, b) == if Closed(log, u, b) then Some(Batch(log, u, b)) else RowAt(st0.stats, u, b)
  {
    ReportsInOrder(st0, ops, u);
    StoredMinutesOfServer(st0, ops, u, b);
    ExpectedIsLastVisit(st0, ops, u, b);
    LastVisitIsBatch(Log(st0, ops), u, b);
    hide After, Log, Expected, Readings, MeanRow, InMinute, ClosedVisit, OpenBucket, NeverBack, OneAtATime, RowAt;
  }

  // ---- The monthly usage shown ----

  lemma {:induction false} RowAfterKeepsBilling(a: ServerRow, b: ServerRow, ms: seq<Meter>)
    requires SameBase(a, b)
    ensures SameBase(RowAfter(a, ms), RowAfter(b, ms))
    ensures RowAfter(a, ms).trafficType == a.trafficType
  {
    if ms == [] {
    } else {
      RowAfterKeepsBilling(a, b, Butlast(ms));
    }
  }

  lemma UsedReadsBase(a: ServerRow, b: ServerRow, totalIn: uint64, totalOut: uint64)
    requires SameBase(a, b) && a.trafficType == b.trafficType
    ensures Used(a, totalIn, totalOut) == Used(b, totalIn, totalOut)
  {}

  /** At rest the listing shows the usage after the recorded reports, metered as now configured. */
  lemma ListingFollowsMeters(st0: State, ops: seq<Op>, u: string)
    requires Starts(st0) && NeverDeleted(ops, u) && OneAtATime(st0, ops, u)
    requires Quiet(After(st0, ops), u) && Meters(st0, ops, u) != []
    ensures var st, ms := After(st0, ops), Meters(st0, ops, u);
            u in st.servers
            && Filled(PublicServer(u, 0, 0), st.servers, st.hub.latest).trafficUsed
               == UsedAfter(BirthRow(st0, u).(trafficType := st.servers[u].trafficType), ms)
  {
    var st, ms := After(st0, ops), Meters(st0, ops, u);
    RecordedServersExist(st0, ops, u);
    BaseFollowsMeters(st0, ops, u);
    LatestFollowsMeters(st0, ops, u);
    var row0 := BirthRow(st0, u).(trafficType := st.servers[u].trafficType);
    assert forall c :: !OnItsWay(st, u, c);
    assert LatestIs(st, u, ms);
    hide After, Meters, Used, RowAfter, OneAtATime, LatestFollows;
    RowAfterKeepsBilling(row0, BirthRow(st0, u), ms);
    UsedReadsBase(st.servers[u], RowAfter(row0, ms), Last(ms).totalIn, Last(ms).totalOut);
  }

  lemma {:induction false} RecordedServersExist(st0: State, ops: seq<Op>, u: string)
    requires st0.handlers == map[] && NeverDeleted(ops, u) && Meters(st0, ops, u) != []
    ensures u in After(st0, ops).servers
  {
    var pre, op := Butlast(ops), Last(ops);
    assert ops == pre + [op];
    MetersExtend(st0, ops, u);
    var st := After(st0, pre);
    BaseFollowsCalls(st0, pre, u);
    StepServers(st, op);
    VisitKeepsColumns(st);
    hide Next, Meters, RecordSteps;
    if Recording(st, op, u) == [] {
      RecordedServersExist(st0, pre, u);
    }
  }

  /** End to end: after any run, from whatever database it started, the listing shows for a server
      whose reports do not overlap what its counters gained less what they lost since its first
      recorded report of the current month, or since the base found in the database if that month
      was already running; no less than nothing, and modulo 2^64. Where that fits in 64 bits it is
      the traffic gained exactly when no counter dropped or nothing was gained, so always with
      counters that grow within the month. Servers created in the run are included. */
  lemma {:induction false} ListingShowsMonthlyDeltas(st0: State, ops: seq<Op>, u: string)
    requires Starts(st0) && NeverDeleted(ops, u) && OneAtATime(st0, ops, u)
    requires Quiet(After(st0, ops), u) && u in After(st0, ops).servers && Meters(st0, ops, u) != []
    ensures var st, ms := After(st0, ops), Billed(BirthRow(st0, u), Meters(st0, ops, u));
            var kind, month := st.servers[u].trafficType, ms[MonthStart(ms)..];
            var gained, dropped := GainSum(kind, month), DropSum(kind, month);
            var used := Filled(PublicServer(u, 0, 0), st.servers, st.hub.latest).trafficUsed;
            used == Clamp(Int64(gained - dropped))
            && (-TWO_63 <= gained - dropped < TWO_63 ==>
                  used == Clamp(gained - dropped) && (used == gained <==> dropped == 0 || gained == 0))
            && (CountersGrow(month) ==> dropped == 0)
  {
    hide After, Meters, Used, MeterOf, GainSum, DropSum, MonthStart, RowAfter, OneAtATime, CountersGrow;
    var kind := After(st0, ops).servers[u].trafficType;
    var row0 := BirthRow(st0, u).(trafficType := kind);
    var ms := Billed(row0, Meters(st0, ops, u));
    ListingFollowsMeters(st0, ops, u);
    BilledFromUnbilled(row0, Meters(st0, ops, u));
    UsageIsWrappedGains(Unbilled(row0), ms);
    Int64Exact(GainSum(kind, ms[MonthStart(ms)..]) - DropSum(kind, ms[MonthStart(ms)..]));
    hide Int64;
    if CountersGrow(ms[MonthStart(ms)..]) { NoDrops(kind, ms[MonthStart(ms)..]); }
  }

  // ---- Ids ----

  /** No server has the empty id. */
  ghost predicate NoEmptyId(st: State) {
    && "" !in st.servers && "" !in st.hub.rings
    && (forall k :: k in st.stats ==> k.0 != "")
    && forall c :: c in st.handlers ==> st.handlers[c].uuid != ""
  }

  /** Ids are random and never empty. */
  predicate CreatesNamed(ops: seq<Op>) {
    forall i :: 0 <= i < |ops| && ops[i].Admin? && ops[i].op.Create? ==> ops[i].op.uuid != ""
  }

  lemma StepNames(st: State, op: Op)
    requires NoEmptyId(st) && (op.Admin? && op.op.Create? ==> op.op.uuid != "")
    ensures "" !in Next(st, op).servers && "" !in Next(st, op).hub.rings
    ensures forall c :: c in Next(st, op).handlers ==> Next(st, op).handlers[c].uuid != ""
  {
    StepServers(st, op);
    StepHandlers(st, op);
    StepHub(st, op);
    VisitKeepsColumns(st);
    hide Next, VisitOne, NextRing;
  }

  lemma StepStatsNames(st: State, op: Op)
    requires NoEmptyId(st)
    ensures forall k :: k in Next(st, op).stats ==> k.0 != ""
  {
    if Arriving(st, op) != [] {
      SaveLeavesOut(st.stats, Flushed(st.hub, Arriving(st, op)[0]), "");
    }
    hide HubStep, SaveFlushes, VisitOne, Tokens.Apply, Tokens.IsLookup, IsListing, IsRecent, RuleList, Seen;
  }

  lemma {:induction false} IdsStayNonEmpty(st0: State, ops: seq<Op>)
    requires NoEmptyId(st0) && CreatesNamed(ops)
    ensures NoEmptyId(After(st0, ops))
  {
    if ops == [] {
    } else {
      var pre := Butlast(ops);
      IdsStayNonEmpty(st0, pre);
      StepNames(After(st0, pre), Last(ops));
      StepStatsNames(After(st0, pre), Last(ops));
      hide Next;
    }
  }

  lemma NoEmptyIdInHistory(st: State, hist: History, since: int)
    requires NoEmptyId(st) && IsRecent(hist, st.stats, since)
    ensures "" !in hist
  {
    HasElement(HistorySince(st.stats, "", since));
  }

  // ---- A deleted server ----

  /** Server u has no row, no stored minute and no handler; its ring may still be in memory. */
  ghost predicate Gone(st: State, u: string) {
    && u !in st.servers && (forall k :: k in st.stats ==> k.0 != u)
    && forall c :: c in st.handlers ==> st.handlers[c].uuid != u
  }

  predicate NeverCreated(ops: seq<Op>, u: string) {
    forall i :: 0 <= i < |ops| && ops[i].Admin? && ops[i].op.Create? ==> ops[i].op.uuid != u
  }

  lemma {:induction false} SaveLeavesOut(t: Table, fs: seq<Flush>, u: string)
    requires forall k :: k in t ==> k.0 != u
    requires forall i :: 0 <= i < |fs| ==> fs[i].uuid != u
    ensures forall k :: k in SaveFlushes(t, fs) ==> k.0 != u
  {
    hide Average;
    if fs == [] {
    } else {
      SaveLeavesOut(t, Butlast(fs), u);
    }
  }

  lemma StepStatsLeavesOut(st: State, op: Op, u: string)
    requires Gone(st, u)
    ensures forall k :: k in Next(st, op).stats ==> k.0 != u
  {
    if Arriving(st, op) != [] {
      SaveLeavesOut(st.stats, Flushed(st.hub, Arriving(st, op)[0]), u);
    }
    hide HubStep, SaveFlushes, VisitOne, Tokens.Apply, Tokens.IsLookup, IsListing, IsRecent, RuleList, Seen;
  }

  lemma StepStaysGone(st: State, op: Op, u: string)
    requires Gone(st, u) && (op.Admin? && op.op.Create? ==> op.op.uuid != u)
    ensures Gone(Next(st, op), u)
  {
    StepStatsLeavesOut(st, op, u);
    StepServers(st, op);
    StepHandlers(st, op);
    VisitKeepsColumns(st);
    hide Next, VisitOne;
  }

  /** Once no handler of a deleted server is left, nothing of it is stored again, unless a server
      of that id is created. */
  lemma {:induction false} DeletedStaysGone(st0: State, ops: seq<Op>, u: string)
    requires Gone(st0, u) && NeverCreated(ops, u)
    ensures Gone(After(st0, ops), u)
  {
    if ops == [] {
    } else {
      DeletedStaysGone(st0, Butlast(ops), u);
      StepStaysGone(After(st0, Butlast(ops)), Last(ops), u);
      AfterLast(st0, ops);
      hide After, Next, Gone;
    }
  }
}
