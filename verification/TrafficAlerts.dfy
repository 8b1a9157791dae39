/** Traffic alerts: the percentage in 64-bit arithmetic, and the 5% bands with the
    in-memory level that is never cleared. */
module TrafficAlerts {
  import opened GoNumbers
  import opened Records
  import opened Seqs
  import opened Arithmetic

  function Pct(used: int64, limit: int64): int
    requires limit > 0
  {
    Quo(Mul64(used, 100), limit)
  }

  /** The percentage is the exact one, rounded down, if and only if used*100 does not overflow. */
  lemma {:induction false} PctExactIff(used: int64, limit: int64)
    requires used >= 0 && limit > 0
    ensures Pct(used, limit) == used * 100 / limit <==> used * 100 < TWO_63
  {
    var exact: int, wrapped: int := used * 100, Mul64(used, 100);
    Int64Exact(exact);
    if exact >= TWO_63 {
      var k := (exact - wrapped) / TWO_64;
      assert exact - wrapped == k * TWO_64;
      assert exact - wrapped >= TWO_64;
      if wrapped >= 0 {
        DivStrict(wrapped, exact, limit);
      } else {
        DivMonotone(limit, exact, limit);
        assert limit / limit == 1;
        DivMonotone(0, -wrapped, limit);
      }
    }
  }

  // ---- The bands ----

  function Level(pct: int): int { Quo(pct, 5) }

  /** A band is five percent wide. */
  lemma {:induction false} LevelIsBand(pct: int)
    requires pct >= 0
    ensures Level(pct) == pct / 5 && 5 * Level(pct) <= pct < 5 * Level(pct) + 5
  {
    QuoRem(pct, 5);
  }

  /** One check of one server that has a limit and a report: the percentage is compared with
      the threshold, then its level with the recorded one, which it replaces. */
  predicate Alerts(recorded: Option<int>, pct: int, threshold: int) {
    pct >= threshold && recorded != Some(Level(pct))
  }

  function Record(recorded: Option<int>, pct: int, threshold: int): Option<int> {
    if pct < threshold then recorded else Some(Level(pct))
  }

  function RecordAfter(start: Option<int>, pcts: seq<int>, threshold: int): Option<int> {
    if pcts == [] then start else Record(RecordAfter(start, Butlast(pcts), threshold), Last(pcts), threshold)
  }

  predicate AlertsAt(start: Option<int>, pcts: seq<int>, threshold: int, i: nat)
    requires i < |pcts|
  {
    Alerts(RecordAfter(start, pcts[..i], threshold), pcts[i], threshold)
  }

  /** The recorded level is that of the last check that reached the threshold. */
  lemma {:induction false} RecordIsLastReached(start: Option<int>, pcts: seq<int>, threshold: int, n: nat)
    requires n <= |pcts|
    ensures var r := RecordAfter(start, pcts[..n], threshold);
            ((forall j :: 0 <= j < n ==> pcts[j] < threshold) && r == start)
            || exists k :: 0 <= k < n && pcts[k] >= threshold && r == Some(Level(pcts[k]))
                           && forall j :: k < j < n ==> pcts[j] < threshold
  {
    if n == 0 {
    } else {
      RecordIsLastReached(start, pcts, threshold, n - 1);
      assert Butlast(pcts[..n]) == pcts[..n - 1];
    }
  }

  ghost predicate Rising(pcts: seq<int>) { forall i, j :: 0 <= i < j < |pcts| ==> pcts[i] <= pcts[j] }

  /** Check i is the first to reach its band. */
  ghost predicate EntersBand(pcts: seq<int>, threshold: int, i: nat)
    requires i < |pcts|
  {
    pcts[i] >= threshold && forall j :: 0 <= j < i && pcts[j] >= threshold ==> pcts[j] / 5 != pcts[i] / 5
  }

  /** Of two checks in a row over the threshold the second alerts exactly when it finds another
      five percent. */
  lemma {:induction false} NextBandAlerts(start: Option<int>, pcts: seq<int>, threshold: int, i: nat)
    requires threshold > 0 && i + 1 < |pcts| && pcts[i] >= threshold && pcts[i + 1] >= threshold
    ensures AlertsAt(start, pcts, threshold, i + 1) <==> pcts[i] / 5 != pcts[i + 1] / 5
  {
    assert Butlast(pcts[..i + 1]) == pcts[..i];
    LevelIsBand(pcts[i]);
    LevelIsBand(pcts[i + 1]);
  }

  /** While usage only rises and the threshold stays, a check alerts exactly when it is the
      first in its band, except that the very first check over the threshold stays silent
      when the level left over from before happens to be its own. */
  lemma {:induction false} AlertsOncePerBand(start: Option<int>, pcts: seq<int>, threshold: int, i: nat)
    requires threshold > 0 && Rising(pcts) && i < |pcts|
    ensures AlertsAt(start, pcts, threshold, i)
            <==> EntersBand(pcts, threshold, i)
                 && !(start == Some(pcts[i] / 5) && forall j :: 0 <= j < i ==> pcts[j] < threshold)
    ensures pcts[i] >= threshold ==> RecordAfter(start, pcts[..i + 1], threshold) == Some(pcts[i] / 5)
  {
    assert Butlast(pcts[..i + 1]) == pcts[..i];
    RecordIsLastReached(start, pcts, threshold, i);
    forall j | 0 <= j <= i && pcts[j] >= threshold ensures Level(pcts[j]) == pcts[j] / 5 { LevelIsBand(pcts[j]); }
    hide Level;
  }

  /** Alerted levels strictly increase, so no band alerts twice, whatever was left over. */
  lemma {:induction false} AlertedLevelsIncrease(start: Option<int>, pcts: seq<int>, threshold: int, i: nat, j: nat)
    requires threshold > 0 && Rising(pcts) && i < j < |pcts|
    requires AlertsAt(start, pcts, threshold, i) && AlertsAt(start, pcts, threshold, j)
    ensures pcts[i] / 5 < pcts[j] / 5
  {
    AlertsOncePerBand(start, pcts, threshold, i);
    AlertsOncePerBand(start, pcts, threshold, j);
    assert pcts[i] <= pcts[j];
  }

  /** Every band reached is announced exactly when the level left over from before is not
      the level of the first check over the threshold. */
  lemma {:induction false} EveryBandAnnouncedIff(start: Option<int>, pcts: seq<int>, threshold: int, first: nat)
    requires threshold > 0 && Rising(pcts)
    requires first < |pcts| && pcts[first] >= threshold && forall j :: 0 <= j < first ==> pcts[j] < threshold
    ensures (forall i: nat :: i < |pcts| && EntersBand(pcts, threshold, i) ==> AlertsAt(start, pcts, threshold, i))
            <==> start != Some(pcts[first] / 5)
  {
    assert EntersBand(pcts, threshold, first);
    AlertsOncePerBand(start, pcts, threshold, first);
    forall i: nat | i < |pcts| && EntersBand(pcts, threshold, i)
      ensures start != Some(pcts[first] / 5) ==> AlertsAt(start, pcts, threshold, i)
    {
      AlertsOncePerBand(start, pcts, threshold, i);
    }
  }

  // ---- The alerts of a run of checks ----

  /** The percentages alerted. */
  function Announced(start: Option<int>, pcts: seq<int>, threshold: int): seq<int> {
    if pcts == [] then []
    else Announced(start, Butlast(pcts), threshold)
         + if Alerts(RecordAfter(start, Butlast(pcts), threshold), Last(pcts), threshold) then [Last(pcts)] else []
  }

  lemma AlertsAtPrefix(start: Option<int>, pcts: seq<int>, threshold: int, i: nat)
    requires i < |pcts|
    ensures i < |pcts| - 1 ==> (AlertsAt(start, pcts, threshold, i) <==> AlertsAt(start, Butlast(pcts), threshold, i))
    ensures i == |pcts| - 1 ==>
              (AlertsAt(start, pcts, threshold, i)
               <==> Alerts(RecordAfter(start, Butlast(pcts), threshold), Last(pcts), threshold))
  {
    if i < |pcts| - 1 { assert pcts[..i] == Butlast(pcts)[..i]; }
    hide Alerts, RecordAfter;
  }

  lemma {:induction false} AnnouncedAt(start: Option<int>, pcts: seq<int>, threshold: int, p: int)
    ensures p in Announced(start, pcts, threshold)
            <==> exists i: nat :: i < |pcts| && AlertsAt(start, pcts, threshold, i) && pcts[i] == p
  {
    if pcts == [] {
    } else {
      AnnouncedAt(start, Butlast(pcts), threshold, p);
      forall i: nat | i < |pcts| { AlertsAtPrefix(start, pcts, threshold, i); }
      hide AlertsAt, Alerts, RecordAfter;
      if i: nat :| i < |pcts| - 1 && AlertsAt(start, Butlast(pcts), threshold, i) && Butlast(pcts)[i] == p {
        assert AlertsAt(start, pcts, threshold, i) && pcts[i] == p;
      }
    }
  }

  ghost predicate LevelsAscend(pcts: seq<int>) {
    forall i, j :: 0 <= i < j < |pcts| ==> pcts[i] / 5 < pcts[j] / 5
  }

  lemma {:induction false} AnnouncedAscends(start: Option<int>, pcts: seq<int>, threshold: int)
    requires threshold > 0 && Rising(pcts)
    ensures LevelsAscend(Announced(start, pcts, threshold))
  {
    if pcts == [] {
    } else {
      var n, out := |pcts| - 1, Announced(start, Butlast(pcts), threshold);
      AnnouncedAscends(start, Butlast(pcts), threshold);
      AlertsAtPrefix(start, pcts, threshold, n);
      hide Level, AlertsAt, RecordAfter, Alerts;
      if AlertsAt(start, pcts, threshold, n) {
        forall k | 0 <= k < |out| ensures out[k] / 5 < pcts[n] / 5 {
          AnnouncedAt(start, Butlast(pcts), threshold, out[k]);
          var i: nat :| i < n && AlertsAt(start, Butlast(pcts), threshold, i) && Butlast(pcts)[i] == out[k];
          AlertsAtPrefix(start, pcts, threshold, i);
          AlertedLevelsIncrease(start, pcts, threshold, i, n);
        }
      }
    }
  }

  /** Some check finds that band at or over the threshold. */
  ghost predicate Reaches(pcts: seq<int>, threshold: int, level: int) {
    exists i: nat :: i < |pcts| && pcts[i] >= threshold && pcts[i] / 5 == level
  }

  /** The first check at or over the threshold finds that band. */
  ghost predicate ReachesFirst(pcts: seq<int>, threshold: int, level: int) {
    exists i: nat :: i < |pcts| && pcts[i] >= threshold && pcts[i] / 5 == level
                     && forall j :: 0 <= j < i ==> pcts[j] < threshold
  }

  lemma {:induction false} FirstOfBand(pcts: seq<int>, threshold: int, level: int, i: nat) returns (k: nat)
    requires i < |pcts| && pcts[i] >= threshold && pcts[i] / 5 == level
    ensures k <= i && EntersBand(pcts, threshold, k) && pcts[k] / 5 == level
  {
    if EntersBand(pcts, threshold, i) {
      k := i;
    } else {
      var j :| 0 <= j < i && pcts[j] >= threshold && pcts[j] / 5 == level;
      k := FirstOfBand(pcts, threshold, level, j);
    }
  }

  /** A band of five percent is announced. */
  ghost predicate Announces(announced: seq<int>, level: int) { exists p :: p in announced && p / 5 == level }

  /** Over a rising usage the bands are announced in rising order, each once, and they are all
      the bands that some check finds at or over the threshold, except the first of them when it
      is the level left over from before. */
  lemma {:induction false} BandsAnnounced(start: Option<int>, pcts: seq<int>, threshold: int, level: int)
    requires threshold > 0 && Rising(pcts)
    ensures LevelsAscend(Announced(start, pcts, threshold))
    ensures Announces(Announced(start, pcts, threshold), level)
            <==> Reaches(pcts, threshold, level) && !(start == Some(level) && ReachesFirst(pcts, threshold, level))
  {
    AnnouncedAscends(start, pcts, threshold);
    hide Level, AlertsAt;
    if Announces(Announced(start, pcts, threshold), level) {
      var p :| p in Announced(start, pcts, threshold) && p / 5 == level;
      AnnouncedAt(start, pcts, threshold, p);
      var i: nat :| i < |pcts| && AlertsAt(start, pcts, threshold, i) && pcts[i] == p;
      AlertsOncePerBand(start, pcts, threshold, i);
    }
    if i: nat :| i < |pcts| && pcts[i] >= threshold && pcts[i] / 5 == level {
      var k := FirstOfBand(pcts, threshold, level, i);
      AlertsOncePerBand(start, pcts, threshold, k);
      AnnouncedAt(start, pcts, threshold, pcts[k]);
      if AlertsAt(start, pcts, threshold, k) {
        assert pcts[k] in Announced(start, pcts, threshold);
      }
    }
  }

  /** The level is not cleared at month rollover: a month that ended in the 80% band silences
      the 80% alert of the next month. */
  lemma {:induction false} StaleLevelSilencesNextMonth()
    ensures var lastMonth, thisMonth := [82], [10, 81];
            AlertsAt(None, lastMonth, 80, 0)
            && EntersBand(thisMonth, 80, 1)
            && !AlertsAt(RecordAfter(None, lastMonth, 80), thisMonth, 80, 1)
  {
    var lastMonth, thisMonth := [82], [10, 81];
    assert Butlast(lastMonth) == [];
    assert lastMonth[..0] == [];
    AlertsOncePerBand(RecordAfter(None, lastMonth, 80), thisMonth, 80, 1);
  }
}
