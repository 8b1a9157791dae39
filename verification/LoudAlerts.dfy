/** A rule on memory alerts on memory alone: a run from an empty database. */
module LoudAlerts {
  import opened Records
  import opened Seqs
  import opened Aggregation
  import opened StreamBatch
  import opened MinuteTable
  import opened Storage
  import opened RateLimit
  import opened AlertRules
  import opened ServerMachine
  import opened ServerRuns
  import opened Scenarios

  /** Server "a", memory at 90% in 80% of the minutes, every minute. */
  const MEMORY := LoadRule(1, "a", "ram", 90.0, 0.8, 1, 0)

  /** 95 of 100 bytes are in use. */
  predicate NearlyFull(r: Report) { r.memTotal == 100 && r.memUsed == 95 }

  lemma MinuteIsDue(r: Report, t: int, now: int)
    requires NearlyFull(r) && now >= 60
    ensures LoadDue(MEMORY, map["a" := [FirstMinute(r, t)]], now)
  {
    var p := FirstMinute(r, t);
    assert p.memPct == 95.0;
    assert Butlast([p]) == [];
    assert CountOver([p], "ram", 90.0) == 1;
    hide FirstMinute;
  }

  lemma RuleIsDue(st: State, hist: History, since: int, now: int, rule: LoadRule)
    requires st.task == Idle && st.rules != map[] && IsRecent(hist, st.stats, since)
    requires RuleList(st.rules) == [rule] && LoadDue(rule, hist, now)
    ensures After(st, LoadCheck(hist, since, now)).sent == st.sent + [LoadAlert(rule.id, now)]
  {
    hide After, Next, Enabled, LoadDue, RuleList, IsRecent, LoadCheck;
    LoadCheckSteps(st, hist, since, now, rule);
    StepSends(st.(task := LoadTask([rule], hist, now)), VisitNext);
  }

  /** Over any window that reaches back to minute t the one stored minute has its memory nearly
      full, whatever its CPU, and the check sends the alert. */
  lemma {:induction false} MemoryAlone(r: Report, t: int, hist: History, since: int, now: int)
    requires IsMinute(t) && NearlyFull(r) && since <= t && now >= 60
    requires IsRecent(hist, After(EMPTY, Setup(MEMORY, r, t)).stats, since)
    ensures After(EMPTY, Setup(MEMORY, r, t) + LoadCheck(hist, since, now)).sent == [LoadAlert(1, now)]
  {
    assert FirstMinute(r, t).time == t;
    hide After, Setup, LoadCheck, LoadDue, FirstMinute, Refreshed, RuleList, IsRecent;
    SetupLeadsTo(MEMORY, r, t);
    OnlyMinute(FirstMinute(r, t), hist, since);
    MinuteIsDue(r, t, now);
    OneRule(MEMORY);
    AfterConcat(EMPTY, Setup(MEMORY, r, t), LoadCheck(hist, since, now));
    RuleIsDue(After(EMPTY, Setup(MEMORY, r, t)), hist, since, now, MEMORY);
  }
}
