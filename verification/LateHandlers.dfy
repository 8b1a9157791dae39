/** What handlers that reach the hub late can do: two runs from an empty database. */
module LateHandlers {
  import opened Records
  import opened Seqs
  import opened Aggregation
  import opened StreamBatch
  import opened ServerMachine
  import opened ServerRuns
  import opened Scenarios
  import Tokens

  lemma ThenPrepared(ops: seq<Op>, c: int, r: Report, now: int)
    requires var st := After(EMPTY, ops); OnlyA(st) && c !in st.handlers
    ensures var st, st' := After(EMPTY, ops), After(EMPTY, ops + Preparing(c, r, now));
            OnlyA(st') && st'.handlers == st.handlers[c := Timed("a", r, now)] && st'.hub == st.hub
    ensures Log(EMPTY, ops + Preparing(c, r, now)) == Log(EMPTY, ops)
    ensures Readings(EMPTY, ops + Preparing(c, r, now), "a") == Readings(EMPTY, ops, "a") + [now]
  {
    hide After, Log, Readings, Preparing;
    AfterConcat(EMPTY, ops, Preparing(c, r, now));
    LogConcat(EMPTY, ops, Preparing(c, r, now));
    ReadingsConcat(EMPTY, ops, Preparing(c, r, now), "a");
    Prepared(After(EMPTY, ops), c, r, now);
    PreparedLogs(After(EMPTY, ops), c, r, now);
  }

  lemma ThenTaken(ops: seq<Op>, c: int)
    requires var st := After(EMPTY, ops); c in st.handlers && st.handlers[c].Timed?
    ensures var st, st' := After(EMPTY, ops), After(EMPTY, ops + [Ingest(c)]); var h := st.handlers[c];
            st'.servers == st.servers && st'.handlers == st.handlers - {c}
            && Log(EMPTY, ops + [Ingest(c)]) == Log(EMPTY, ops) + [Entry(h.uuid, h.report, h.now)]
            && Readings(EMPTY, ops + [Ingest(c)], "a") == Readings(EMPTY, ops, "a")
  {
    hide After, Log, Readings;
    AfterConcat(EMPTY, ops, [Ingest(c)]);
    LogConcat(EMPTY, ops, [Ingest(c)]);
    ReadingsConcat(EMPTY, ops, [Ingest(c)], "a");
    Taken(After(EMPTY, ops), c);
  }

  lemma JustCreated()
    ensures var st := After(EMPTY, [CREATE]);
            OnlyA(st) && st.handlers == map[] && Log(EMPTY, [CREATE]) == [] && Readings(EMPTY, [CREATE], "a") == []
  {
    Created();
    NothingLogged(EMPTY, [CREATE], "a");
    hide After, Log, Readings;
  }

  // ---- Two handlers overtake each other at the end of a minute ----

  /** Server "a" reports at 59; then two handlers of it read 59 and 60, and the later one enters
      the hub first; then it reports at 60 again. */
  function Overtaking(r0: Report, r1: Report, r2: Report, r3: Report): seq<Op> {
    [CREATE] + Preparing(0, r0, 59) + [Ingest(0)] + Preparing(1, r1, 59) + Preparing(2, r2, 60)
    + [Ingest(2)] + [Ingest(1)] + Preparing(3, r3, 60) + [Ingest(3)]
  }

  lemma OvertakingLogs(r0: Report, r1: Report, r2: Report, r3: Report)
    ensures Log(EMPTY, Overtaking(r0, r1, r2, r3))
         == [Entry("a", r0, 59)] + [Entry("a", r2, 60)] + [Entry("a", r1, 59)] + [Entry("a", r3, 60)]
    ensures Readings(EMPTY, Overtaking(r0, r1, r2, r3), "a") == [59, 59, 60, 60]
  {
    var x1 := [CREATE] + Preparing(0, r0, 59);
    var x2 := x1 + [Ingest(0)];
    var x3 := x2 + Preparing(1, r1, 59);
    var x4 := x3 + Preparing(2, r2, 60);
    var x5 := x4 + [Ingest(2)];
    var x6 := x5 + [Ingest(1)];
    var x7 := x6 + Preparing(3, r3, 60);
    hide After, Log, Readings, Preparing, OnlyA;
    JustCreated();
    ThenPrepared([CREATE], 0, r0, 59);
    ThenTaken(x1, 0);
    TakenKeepsOnlyA(x1, 0);
    ThenPrepared(x2, 1, r1, 59);
    ThenPrepared(x3, 2, r2, 60);
    ThenTaken(x4, 2);
    TakenKeepsOnlyA(x4, 2);
    ThenTaken(x5, 1);
    TakenKeepsOnlyA(x5, 1);
    ThenPrepared(x6, 3, r3, 60);
    ThenTaken(x7, 3);
  }

  lemma TakenKeepsOnlyA(ops: seq<Op>, c: int)
    requires OnlyA(After(EMPTY, ops)) && After(EMPTY, ops + [Ingest(c)]).servers == After(EMPTY, ops).servers
    ensures OnlyA(After(EMPTY, ops + [Ingest(c)]))
  {
    hide After;
  }

  /** The clock never goes back, yet minute 0 is entered twice, and its stored row averages the
      late report alone: the first report of the minute is lost. */
  lemma {:induction false} OvertakingLosesReports(r0: Report, r1: Report, r2: Report, r3: Report)
    ensures var ops := Overtaking(r0, r1, r2, r3);
            NeverBack(Readings(EMPTY, ops, "a"))
            && InMinute(Log(EMPTY, ops), "a", 0) == [r0, r1] && Visits(Log(EMPTY, ops), "a", 0) == 2
            && RowAt(After(EMPTY, ops).stats, "a", 0) == Some(MeanRow(0, [r1]))
  {
    var ops := Overtaking(r0, r1, r2, r3);
    NothingRemoved(r0, r1, r2, r3);
    OvertakenMinute(r0, r1, r2, r3);
    OvertakingLogs(r0, r1, r2, r3);
    assert NeverBack([59, 59, 60, 60]) && EMPTY.stats == map[];
    hide *;
    StoredMinutesOfServer(EMPTY, ops, "a", 0);
    ExpectedIsLastVisit(EMPTY, ops, "a", 0);
  }

  lemma NothingRemoved(r0: Report, r1: Report, r2: Report, r3: Report)
    ensures NeverDeleted(Overtaking(r0, r1, r2, r3), "a") && NeverPruned(Overtaking(r0, r1, r2, r3), 0)
    ensures Starts(EMPTY)
  {}

  /** The log of that run: minute 0 is entered twice. */
  lemma OvertakenMinute(r0: Report, r1: Report, r2: Report, r3: Report)
    ensures var log := [Entry("a", r0, 59)] + [Entry("a", r2, 60)] + [Entry("a", r1, 59)] + [Entry("a", r3, 60)];
            InMinute(log, "a", 0) == [r0, r1] && Visits(log, "a", 0) == 2 && ClosedVisit(log, "a", 0) == [r1]
  {
    assert Bucket(59) == 0 && Bucket(60) == 60;
    hide Bucket, InMinute, Visits, ClosedVisit, OpenBucket;
    StepBackMinute("a", 59, 60, r0, r2, r1, r3);
    StepBackVisit("a", 59, 60, r0, r2, r1, r3);
  }

  // ---- A handler outlives its server ----

  const DELETE := Admin(Tokens.Delete("a"))

  /** Server "a" reports at 1; while a second report of it is on its way, it is deleted. */
  function Outliving(r0: Report, r1: Report): seq<Op> {
    [CREATE] + Preparing(0, r0, 1) + [Ingest(0)] + Preparing(1, r1, 61) + [DELETE]
  }

  lemma OutlivingLogs(r0: Report, r1: Report)
    ensures Log(EMPTY, Outliving(r0, r1)) == [Entry("a", r0, 1)]
    ensures var st := After(EMPTY, Outliving(r0, r1));
            st.servers == map[] && st.handlers == map[1 := Timed("a", r1, 61)]
  {
    var x1 := [CREATE] + Preparing(0, r0, 1);
    var x2 := x1 + [Ingest(0)];
    var x3 := x2 + Preparing(1, r1, 61);
    hide After, Next, Log, Readings, Preparing, OnlyA;
    JustCreated();
    ThenPrepared([CREATE], 0, r0, 1);
    ThenTaken(x1, 0);
    TakenKeepsOnlyA(x1, 0);
    ThenPrepared(x2, 1, r1, 61);
    Deleted(After(EMPTY, x3));
    RunExtend(EMPTY, x3, DELETE);
    LogConcat(EMPTY, x3, [DELETE]);
    NothingLogged(After(EMPTY, x3), [DELETE], "a");
  }

  lemma Deleted(st: State)
    requires OnlyA(st)
    ensures Next(st, DELETE).servers == map[] && Next(st, DELETE).handlers == st.handlers
  {
    hide WithoutServer, WithoutRules;
  }

  /** The late report restores a row: minute 0 of a server that no longer exists is stored. */
  lemma {:induction false} LateHandlerRestoresRow(r0: Report, r1: Report)
    ensures var st := After(EMPTY, Outliving(r0, r1) + [Ingest(1)]);
            "a" !in st.servers && RowAt(st.stats, "a", 0) == Some(MeanRow(0, [r0]))
  {
    var pre := Outliving(r0, r1);
    var log := [Entry("a", r0, 1)];
    OutlivingLogs(r0, r1);
    ThenTaken(pre, 1);
    assert Butlast(pre + [Ingest(1)]) == pre;
    assert Butlast(log) == [] && Bucket(1) == 0 && Bucket(61) == 60;
    assert OpenVisit(log, "a") == [r0] && OpenBucket(log, "a") == Some(0);
    hide After, Outliving, Log, MeanRow, Bucket, OpenVisit, OpenBucket;
    StoredMinutesOfServer(EMPTY, pre + [Ingest(1)], "a", 0);
    assert Ending(EMPTY, pre, Ingest(1), "a", 0) == [r0];
  }
}
