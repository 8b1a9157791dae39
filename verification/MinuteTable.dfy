/** Queries over the table of stored minutes. A SQL statement is replaced by its effect;
    the loops around it are kept. */
module MinuteTable {
  import opened Records
  import opened Seqs
  import opened Aggregation

  /** The time column of a row is part of its key. */
  ghost predicate WellKeyed(t: Table) { forall k :: k in t ==> t[k].time == k.1 }

  lemma {:induction false} SaveFlushesWellKeyed(t0: Table, fs: seq<Flush>)
    requires WellKeyed(t0)
    ensures WellKeyed(SaveFlushes(t0, fs))
  {
    hide Average;
    if fs == [] {
    } else {
      SaveFlushesWellKeyed(t0, Butlast(fs));
    }
  }

  function TimeOf(p: MinutePoint): int { p.time }

  /** p is a row of server u at or after `since`. */
  predicate Selected(t: Table, u: string, since: int, p: MinutePoint) {
    (u, p.time) in t && t[(u, p.time)] == p && since <= p.time
  }

  /** The answer of the history query: exactly the selected rows, ordered by time. */
  ghost predicate IsHistory(out: seq<MinutePoint>, t: Table, u: string, since: int) {
    AscendingBy(out, TimeOf) && forall p :: p in out <==> Selected(t, u, since, p)
  }

  function TimesSince(t: Table, u: string, since: int): set<int> {
    set k | k in t && k.0 == u && since <= k.1 :: k.1
  }

  /** The rows of server u at the given times, ascending. */
  function RowsAt(t: Table, u: string, times: set<int>): (out: seq<MinutePoint>)
    requires WellKeyed(t)
    requires forall b :: b in times ==> (u, b) in t
    ensures AscendingBy(out, TimeOf)
    ensures forall p :: p in out <==> p.time in times && t[(u, p.time)] == p
  {
    if times == {} then []
    else
      var m := Max(times);
      var out := RowsAt(t, u, times - {m});
      assert forall p :: p in out + [t[(u, m)]] <==> p in out || p == t[(u, m)];
      out + [t[(u, m)]]
  }

  function HistorySince(t: Table, u: string, since: int): (out: seq<MinutePoint>)
    requires WellKeyed(t)
    ensures IsHistory(out, t, u, since)
  {
    var times := TimesSince(t, u, since);
    assert forall b :: b in times <==> (u, b) in t && since <= b by {
      assert forall b :: (u, b) in t ==> (u, b).0 == u && (u, b).1 == b;
    }
    RowsAt(t, u, times)
  }

  lemma HistoryUnique(out: seq<MinutePoint>, t: Table, u: string, since: int)
    requires WellKeyed(t) && IsHistory(out, t, u, since)
    ensures out == HistorySince(t, u, since)
  {
    AscendingUnique(out, HistorySince(t, u, since), TimeOf);
  }

  type History = map<string, seq<MinutePoint>>

  /** The recent history of all servers that have any. */
  ghost predicate IsRecent(hist: History, t: Table, since: int) {
    WellKeyed(t)
    && (forall u :: u in hist <==> HistorySince(t, u, since) != [])
    && forall u :: u in hist ==> hist[u] == HistorySince(t, u, since)
  }

  // ---- AllRecentHistory: group one time-ordered result by server ----

  type Row = (string, MinutePoint)

  /** rows is the result of the all-servers query: every row at or after `since` once, in
      time order; rows of equal time come in any order. */
  ghost predicate IsQueryResult(rows: seq<Row>, t: Table, since: int) {
    && (forall r :: r in rows <==> Selected(t, r.0, since, r.1))
    && (forall i, j :: 0 <= i < j < |rows| ==> rows[i].1.time <= rows[j].1.time)
    && (forall i, j :: 0 <= i < j < |rows| ==> rows[i] != rows[j])
  }

  function OfServer(rows: seq<Row>, u: string): seq<MinutePoint> {
    if rows == [] then []
    else OfServer(Butlast(rows), u) + if Last(rows).0 == u then [Last(rows).1] else []
  }

  method GroupByServer(rows: seq<Row>) returns (out: History)
    ensures forall u :: u in out <==> OfServer(rows, u) != []
    ensures forall u :: u in out ==> out[u] == OfServer(rows, u)
  {
    out := map[];
    for i := 0 to |rows|
      invariant forall u :: u in out <==> OfServer(rows[..i], u) != []
      invariant forall u :: u in out ==> out[u] == OfServer(rows[..i], u)
    {
      var (sid, p) := rows[i];
      assert Butlast(rows[..i + 1]) == rows[..i];
      out := out[sid := (if sid in out then out[sid] else []) + [p]];
    }
    assert rows[..|rows|] == rows;
  }

  lemma {:induction false} OfServerMembers(rows: seq<Row>, u: string, p: MinutePoint)
    ensures p in OfServer(rows, u) <==> (u, p) in rows
  {
    if rows == [] {
    } else {
      OfServerMembers(Butlast(rows), u, p);
      assert rows == Butlast(rows) + [Last(rows)];
    }
  }

  lemma {:induction false} OfServerAscending(rows: seq<Row>, t: Table, u: string)
    requires forall r :: r in rows ==> (r.0, r.1.time) in t && t[(r.0, r.1.time)] == r.1
    requires forall i, j :: 0 <= i < j < |rows| ==> rows[i].1.time <= rows[j].1.time
    requires forall i, j :: 0 <= i < j < |rows| ==> rows[i] != rows[j]
    ensures AscendingBy(OfServer(rows, u), TimeOf)
  {
    if rows != [] && Last(rows).0 == u {
      var pre := OfServer(Butlast(rows), u);
      OfServerAscending(Butlast(rows), t, u);
      forall i | 0 <= i < |pre| ensures pre[i].time < Last(rows).1.time {
        OfServerMembers(Butlast(rows), u, pre[i]);
        assert (u, pre[i]) in Butlast(rows);
        var k :| 0 <= k < |rows| - 1 && rows[k] == (u, pre[i]);
        assert rows[k] != rows[|rows| - 1];
        assert rows[|rows| - 1] in rows && rows[k] in rows;
      }
    } else if rows != [] {
      OfServerAscending(Butlast(rows), t, u);
    }
  }

  /** Grouping the query result gives each server its own history, whatever order the
      database returns rows of equal time in. */
  lemma {:induction false} GroupedIsHistory(rows: seq<Row>, t: Table, u: string, since: int)
    requires WellKeyed(t) && IsQueryResult(rows, t, since)
    ensures OfServer(rows, u) == HistorySince(t, u, since)
  {
    OfServerAscending(rows, t, u);
    forall p ensures p in OfServer(rows, u) <==> Selected(t, u, since, p) {
      OfServerMembers(rows, u, p);
    }
    HistoryUnique(OfServer(rows, u), t, u, since);
  }

  // ---- PruneHistory ----

  const SECONDS_PER_DAY: int := 86400

  function EffectiveKeepDays(keepDays: int): int { if keepDays <= 0 then 30 else keepDays }

  function Cutoff(now: int, keepDays: int): int { now - EffectiveKeepDays(keepDays) * SECONDS_PER_DAY }

  /** Thirty days by default, in seconds. */
  lemma {:induction false} CutoffInSeconds(now: int, keepDays: int)
    ensures Cutoff(now, keepDays) == if keepDays <= 0 then now - 2_592_000 else now - 86_400 * keepDays
  {
    assert keepDays * SECONDS_PER_DAY == 86_400 * keepDays;
  }

  function Prune(t: Table, cutoff: int): Table {
    map k | k in t && cutoff <= k.1 :: t[k]
  }

  /** Pruning goes unnoticed by a history query exactly when the server has no row that the
      query asks for and the cutoff removes. */
  lemma {:induction false} PruneInvisibleIff(t: Table, u: string, since: int, cutoff: int)
    requires WellKeyed(t)
    ensures HistorySince(Prune(t, cutoff), u, since) == HistorySince(t, u, since)
            <==> forall b :: since <= b < cutoff ==> (u, b) !in t
  {
    var t' := Prune(t, cutoff);
    if forall b :: since <= b < cutoff ==> (u, b) !in t {
      forall p ensures Selected(t', u, since, p) <==> Selected(t, u, since, p) {}
      HistoryUnique(HistorySince(t', u, since), t, u, since);
    } else {
      var b :| since <= b < cutoff && (u, b) in t;
      assert Selected(t, u, since, t[(u, b)]) && !Selected(t', u, since, t[(u, b)]);
    }
  }

  /** A query made no earlier than the prune, over a window no longer than the retention,
      sees the same rows before and after, for the one-server and the all-servers query. */
  lemma {:induction false} PruneInsideRetention(
      t: Table, u: string, hist: History, window: int, keepDays: int, prunedAt: int, askedAt: int)
    requires WellKeyed(t)
    requires prunedAt <= askedAt
    requires window <= if keepDays <= 0 then 2_592_000 else 86_400 * keepDays
    ensures HistorySince(Prune(t, Cutoff(prunedAt, keepDays)), u, askedAt - window)
         == HistorySince(t, u, askedAt - window)
    ensures IsRecent(hist, Prune(t, Cutoff(prunedAt, keepDays)), askedAt - window)
            <==> IsRecent(hist, t, askedAt - window)
  {
    var t', since := Prune(t, Cutoff(prunedAt, keepDays)), askedAt - window;
    CutoffInSeconds(prunedAt, keepDays);
    hide HistorySince, Cutoff;
    forall v ensures HistorySince(t', v, since) == HistorySince(t, v, since) {
      PruneInvisibleIff(t, v, since, Cutoff(prunedAt, keepDays));
    }
  }

  /** A window longer than the retention loses rows as soon as one falls in the gap. */
  lemma {:induction false} PruneCutsLongWindows(t: Table, u: string, window: int, keepDays: int, at: int, b: int)
    requires WellKeyed(t) && (u, b) in t
    requires at - window <= b < if keepDays <= 0 then at - 2_592_000 else at - 86_400 * keepDays
    ensures HistorySince(Prune(t, Cutoff(at, keepDays)), u, at - window) != HistorySince(t, u, at - window)
  {
    CutoffInSeconds(at, keepDays);
    hide HistorySince, Prune, Cutoff;
    PruneInvisibleIff(t, u, at - window, Cutoff(at, keepDays));
  }
}
