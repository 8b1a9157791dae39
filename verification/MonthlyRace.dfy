/** MonthlyTrafficRecord reads the stored month before it takes the lock, and writes the new
    base under the lock without reading again. The calls for one server, interleaved: a call
    that found another month will write its totals, whatever has been written since. */
module MonthlyRace {
  import opened GoNumbers
  import opened Records
  import opened Seqs
  import opened Traffic

  /** A call reads the row, with its month and totals at hand, or writes them as the base. */
  datatype Step = Read(call: int, m: Meter) | Write(call: int)

  /** The row, and the calls that found another month and have yet to write. */
  datatype State = State(row: ServerRow, pending: map<int, Meter>)

  function RebaseOn(row: ServerRow, m: Meter): ServerRow { Rebase(row, m.month, m.totalIn, m.totalOut) }

  function Apply(s: State, a: Step): State {
    match a
    case Read(c, m) => if s.row.monthlyReset == Some(m.month) then s else s.(pending := s.pending[c := m])
    case Write(c) => if c in s.pending then State(RebaseOn(s.row, s.pending[c]), s.pending - {c}) else s
  }

  function Run(s0: State, steps: seq<Step>): State {
    if steps == [] then s0 else Apply(Run(s0, Butlast(steps)), Last(steps))
  }

  /** The totals read, call by call. */
  function Reads(steps: seq<Step>): seq<Meter> {
    if steps == [] then [] else Reads(Butlast(steps)) + if Last(steps).Read? then [Last(steps).m] else []
  }

  // ---- Calls that do not overlap ----

  /** A call reads only when no other call has yet to write. */
  ghost predicate NoOverlap(s0: State, steps: seq<Step>) {
    steps == []
    || (NoOverlap(s0, Butlast(steps)) && (Last(steps).Read? ==> Run(s0, Butlast(steps)).pending == map[]))
  }

  /** Without overlap the row follows the reports as if each call were one step; the last call
      may still have to write. */
  lemma {:induction false} SerialCallsRefresh(row0: ServerRow, steps: seq<Step>)
    requires NoOverlap(State(row0, map[]), steps)
    ensures var s, ms := Run(State(row0, map[]), steps), Reads(steps);
            if s.pending == map[] then s.row == RowAfter(row0, ms)
            else ms != [] && s.row == RowAfter(row0, Butlast(ms)) && s.row.monthlyReset != Some(Last(ms).month)
                 && exists c :: s.pending == map[c := Last(ms)]
  {
    if steps == [] {
    } else {
      var pre, a := Butlast(steps), Last(steps);
      SerialCallsRefresh(row0, pre);
      var s, ms := Run(State(row0, map[]), pre), Reads(pre);
      if a.Read? {
        assert Butlast(ms + [a.m]) == ms;
        assert s.pending[a.call := a.m] == map[a.call := a.m];
      } else {
        assert Reads(steps) == ms;
        if a.call in s.pending { assert s.pending - {a.call} == map[]; }
      }
    }
  }

  // ---- Calls that do ----

  /** The calls pending in s end, one of them writing first; calls that begin meanwhile are of
      the same month. */
  ghost predicate Finishes(s: State, rest: seq<Step>, month: int) {
    && rest != [] && rest[0].Write? && rest[0].call in s.pending
    && (forall i :: 0 <= i < |rest| && rest[i].Read? ==> rest[i].m.month == month)
    && Run(s, rest).pending == map[]
  }

  ghost predicate OfMonth(s: State, month: int) {
    forall c :: c in s.pending ==> s.pending[c].month == month
  }

  /** Once one call has written, the rest only finish: the row holds the totals of one of the
      pending calls, and no further call will write. */
  lemma {:induction false} OnlyPendingCallsWrite(s: State, rest: seq<Step>, month: int) returns (c: int)
    requires OfMonth(s, month)
    requires rest != [] && rest[0].Write? && rest[0].call in s.pending
    requires forall i :: 0 <= i < |rest| && rest[i].Read? ==> rest[i].m.month == month
    ensures c in s.pending && Run(s, rest).row == RebaseOn(s.row, s.pending[c])
    ensures forall d :: d in Run(s, rest).pending ==> d in s.pending && Run(s, rest).pending[d] == s.pending[d]
  {
    var pre, a := Butlast(rest), Last(rest);
    if pre == [] {
      c := a.call;
    } else {
      c := OnlyPendingCallsWrite(s, pre, month);
      if a.Write? && a.call in Run(s, pre).pending { c := a.call; }
    }
  }

  /** The writes in a given order. */
  function Writes(order: seq<int>): seq<Step> {
    if order == [] then [] else Writes(Butlast(order)) + [Write(Last(order))]
  }

  lemma {:induction false} WritesInOrder(s: State, order: seq<int>)
    requires forall i :: 0 <= i < |order| ==> order[i] in s.pending
    requires forall i, j :: 0 <= i < j < |order| ==> order[i] != order[j]
    ensures var s' := Run(s, Writes(order));
            (forall c :: c in s'.pending <==> c in s.pending && c !in order)
            && (forall c :: c in s'.pending ==> s'.pending[c] == s.pending[c])
            && (order != [] ==> s'.row == RebaseOn(s.row, s.pending[Last(order)]))
    ensures |Writes(order)| == |order| && forall i :: 0 <= i < |order| ==> Writes(order)[i] == Write(order[i])
  {
    if order == [] {
    } else {
      var pre, c := Butlast(order), Last(order);
      WritesInOrder(s, pre);
      assert order == pre + [c];
      assert Butlast(Writes(order)) == Writes(pre);
      assert c !in pre && forall x :: x in order <==> x in pre || x == c;
    }
  }

  /** All pending calls, c first and d last. */
  lemma OrderFromTo(s: State, c: int, d: int) returns (order: seq<int>)
    requires c in s.pending && d in s.pending && c != d
    ensures |order| >= 2 && order[0] == c && Last(order) == d
    ensures forall x :: x in order <==> x in s.pending
    ensures forall i, j :: 0 <= i < j < |order| ==> order[i] != order[j]
  {
    var others := s.pending.Keys - {c, d};
    var middle := Ascending(others);
    order := [c] + middle + [d];
    forall x ensures x in order <==> x in s.pending {
      assert x in order <==> x == c || x in middle || x == d;
    }
    DistinctEnds(middle, c, d);
  }

  lemma DistinctEnds(middle: seq<int>, c: int, d: int)
    requires c !in middle && d !in middle && c != d
    requires forall i, j :: 0 <= i < j < |middle| ==> middle[i] < middle[j]
    ensures var order := [c] + middle + [d];
            forall i, j :: 0 <= i < j < |order| ==> order[i] != order[j]
  {
    var order := [c] + middle + [d];
    assert forall k :: 0 < k < |order| - 1 ==> order[k] == middle[k - 1] && order[k] in middle;
  }

  /** Calls that found the old month together leave the totals written first as the base, in
      whichever order they write, exactly when they all carry the same totals; so it takes
      either a single such call or counters that stood still. */
  lemma {:induction false} BaseIsFirstIff(s: State, month: int)
    requires OfMonth(s, month)
    ensures (forall rest: seq<Step> :: Finishes(s, rest, month) ==>
               Run(s, rest).row == RebaseOn(s.row, s.pending[rest[0].call]))
            <==> forall c, d :: c in s.pending && d in s.pending ==> s.pending[c] == s.pending[d]
  {
    if forall c, d :: c in s.pending && d in s.pending ==> s.pending[c] == s.pending[d] {
      forall rest: seq<Step> | Finishes(s, rest, month)
        ensures Run(s, rest).row == RebaseOn(s.row, s.pending[rest[0].call])
      {
        var c := OnlyPendingCallsWrite(s, rest, month);
      }
    } else {
      var c, d :| c in s.pending && d in s.pending && s.pending[c] != s.pending[d];
      var order := OrderFromTo(s, c, d);
      hide Run;
      WritesInOrder(s, order);
      var p := Run(s, Writes(order)).pending;
      assert forall x :: x !in p;
      assert p == map[];
      assert Finishes(s, Writes(order), month);
      assert s.pending[c].month == s.pending[d].month;
    }
  }

  /** What the move costs: at any later report whose difference to both bases fits, the usage
      shown is short of the traffic since the first totals by exactly what was counted between
      the two calls; with growing counters that is never negative. */
  lemma {:induction false} LaterBaseHidesTraffic(row: ServerRow, first: Meter, last: Meter, now: Meter)
    requires first.totalIn <= last.totalIn <= now.totalIn && first.totalOut <= last.totalOut <= now.totalOut
    requires MeterOf(row.trafficType, now) - MeterOf(row.trafficType, first) < TWO_63
    ensures Used(RebaseOn(row, last), now.totalIn, now.totalOut)
         == Used(RebaseOn(row, first), now.totalIn, now.totalOut)
            - (MeterOf(row.trafficType, last) - MeterOf(row.trafficType, first))
    ensures MeterOf(row.trafficType, last) >= MeterOf(row.trafficType, first)
  {
    hide Used;
    UsedExactIff(RebaseOn(row, last), now.totalIn, now.totalOut);
    UsedExactIff(RebaseOn(row, first), now.totalIn, now.totalOut);
  }

  /** Two overlapping calls: the month's first report carried 100 bytes, the second 130, both
      found the old month; at 150 bytes the month shows 20 instead of 50. */
  lemma {:induction false} OverlapMovesBase(row0: ServerRow)
    requires row0.monthlyReset == None && row0.trafficType == "down"
    ensures var steps := [Read(0, Meter(1, 100, 0)), Read(1, Meter(1, 130, 0)), Write(0), Write(1)];
            var row := Run(State(row0, map[]), steps).row;
            row == RebaseOn(row0, Meter(1, 130, 0)) && Used(row, 150, 0) == 20
            && Used(RebaseOn(row0, Meter(1, 100, 0)), 150, 0) == 50
  {
    var m0, m1 := Meter(1, 100, 0), Meter(1, 130, 0);
    var s4 := [Read(0, m0), Read(1, m1), Write(0), Write(1)];
    var s3, s2, s1 := s4[..3], s4[..2], s4[..1];
    assert Butlast(s4) == s3 && Butlast(s3) == s2 && Butlast(s2) == s1 && Butlast(s1) == [];
    assert Run(State(row0, map[]), s1) == State(row0, map[0 := m0]);
    assert Run(State(row0, map[]), s2) == State(row0, map[0 := m0, 1 := m1]);
    assert Run(State(row0, map[]), s3).pending == map[1 := m1];
    hide Used;
    UsedExactIff(RebaseOn(row0, m0), 150, 0);
    UsedExactIff(RebaseOn(row0, m1), 150, 0);
  }
}
