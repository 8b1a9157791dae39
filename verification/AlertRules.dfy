/** What one round of each check decides. */
module AlertRules {
  import opened GoNumbers
  import opened Records
  import opened Seqs
  import opened RateLimit
  import opened MinuteTable
  import opened Storage
  import opened RealtimeHub
  import Traffic
  import TrafficAlerts
  import opened Arithmetic

  // ---- Offline ----

  const OFFLINE_COOLDOWN: int := 1800

  /** The guards of checkOffline, in order. */
  predicate OfflineDue(s: ServerAdmin, now: int) {
    && s.row.offlineNotify
    && !(now - s.lastSeen < 60)
    && s.lastSeen != 0
    && !(now - s.lastSeen < s.row.offlineGrace)
    && !(now - s.row.lastOfflineNotify < OFFLINE_COOLDOWN)
  }

  /** An alert is wanted: notification is on, the server has reported, and has been silent
      for a minute and for its grace period. */
  predicate OfflineWanted(s: ServerAdmin, now: int) {
    s.row.offlineNotify && s.lastSeen != 0
    && now - s.lastSeen >= (if s.row.offlineGrace > 60 then s.row.offlineGrace else 60)
  }

  function OfflineTick(s: ServerAdmin, now: int): Tick { Tick(now, OfflineWanted(s, now), OFFLINE_COOLDOWN) }

  lemma OfflineDueIsLimited(s: ServerAdmin, now: int)
    ensures OfflineDue(s, now) <==> Due(OfflineTick(s, now), s.row.lastOfflineNotify)
  {}

  function OfflineAlerts(list: seq<ServerAdmin>, now: int): seq<Alert> {
    if list == [] then []
    else OfflineAlerts(Butlast(list), now)
         + if OfflineDue(Last(list), now) then [OfflineAlert(Last(list).uuid, now)] else []
  }

  function MarkOffline(servers: Servers, list: seq<ServerAdmin>, now: int): Servers {
    if list == [] then servers
    else
      var s' := MarkOffline(servers, Butlast(list), now);
      var u := Last(list).uuid;
      if OfflineDue(Last(list), now) && u in s' then s'[u := s'[u].(lastOfflineNotify := now)] else s'
  }

  /** The round marks exactly the servers it alerts for. */
  lemma {:induction false} MarkedWhenAlerted(servers: Servers, list: seq<ServerAdmin>, now: int, u: string)
    ensures var s' := MarkOffline(servers, list, now);
            (u in s' <==> u in servers)
            && (OfflineAlert(u, now) in OfflineAlerts(list, now)
                <==> exists i :: 0 <= i < |list| && list[i].uuid == u && OfflineDue(list[i], now))
            && (u in servers ==>
                  s'[u] == if OfflineAlert(u, now) in OfflineAlerts(list, now)
                           then servers[u].(lastOfflineNotify := now) else servers[u])
  {
    if list == [] {
    } else {
      var pre, s := Butlast(list), Last(list);
      MarkedWhenAlerted(servers, pre, now, u);
      if s.uuid == u && OfflineDue(s, now) {
        assert list[|list| - 1] == s;
        assert OfflineAlerts(list, now)[|OfflineAlerts(list, now)| - 1] == OfflineAlert(u, now);
      } else {
        assert OfflineAlert(u, now) in OfflineAlerts(list, now) <==> OfflineAlert(u, now) in OfflineAlerts(pre, now);
        if i :| 0 <= i < |list| && list[i].uuid == u && OfflineDue(list[i], now) {
          assert pre[i] == list[i];
        }
        if i :| 0 <= i < |pre| && pre[i].uuid == u && OfflineDue(pre[i], now) {
          assert list[i] == pre[i];
        }
      }
    }
  }

  /** A listing straight from the table carries no last-seen time, so no server in it is due. */
  lemma {:induction false} ListedServersAreNeverDue(list: seq<ServerAdmin>, now: int)
    requires forall i :: 0 <= i < |list| ==> list[i].lastSeen == 0
    ensures OfflineAlerts(list, now) == []
  {
    if list == [] {
    } else {
      ListedServersAreNeverDue(Butlast(list), now);
      assert Last(list) == list[|list| - 1];
    }
  }

  /** The listing the rule is documented for: with the hub's live part. */
  function AugmentedAll(
      list: seq<ServerAdmin>, latest: map<string, Report>, lastSeen: map<string, int>, now: int): seq<ServerAdmin>
  {
    seq(|list|, i requires 0 <= i < |list| => Augmented(list[i], latest, lastSeen, now))
  }

  lemma {:induction false} NoAlertIff(list: seq<ServerAdmin>, now: int)
    ensures OfflineAlerts(list, now) == [] <==> forall i :: 0 <= i < |list| ==> !OfflineDue(list[i], now)
  {
    hide OfflineDue;
    if list == [] {
    } else {
      NoAlertIff(Butlast(list), now);
      assert forall i :: 0 <= i < |list| - 1 ==> Butlast(list)[i] == list[i];
      assert Last(list) == list[|list| - 1];
    }
  }

  /** The check on the table's listing does what the rule says on the completed listing exactly
      when no listed server is due: wanted by its silence and not cooling down. */
  lemma {:induction false} OfflineAsDocumentedIff(
      list: seq<ServerAdmin>, servers: Servers, latest: map<string, Report>, lastSeen: map<string, int>, now: int)
    requires IsListing(list, servers)
    ensures OfflineAlerts(list, now) == OfflineAlerts(AugmentedAll(list, latest, lastSeen, now), now)
            <==> forall i :: 0 <= i < |list| ==>
                   !(OfflineWanted(Augmented(list[i], latest, lastSeen, now), now)
                     && now - list[i].row.lastOfflineNotify >= 1800)
  {
    ListedServersAreNeverDue(list, now);
    var full := AugmentedAll(list, latest, lastSeen, now);
    NoAlertIff(full, now);
    forall i | 0 <= i < |list|
      ensures OfflineDue(full[i], now)
              <==> OfflineWanted(Augmented(list[i], latest, lastSeen, now), now)
                   && now - list[i].row.lastOfflineNotify >= 1800
    {
      OfflineDueIsLimited(full[i], now);
    }
  }

  // ---- Load ----

  function Metric(metric: string, p: MinutePoint): real { if metric == "ram" then p.memPct else p.cpu }

  /** The point reaches the threshold of a rule: by memory for "ram", else by CPU. */
  predicate OverThreshold(p: MinutePoint, metric: string, threshold: real) {
    (metric == "ram" && p.memPct >= threshold) || (metric != "ram" && p.cpu >= threshold)
  }

  function CountOver(points: seq<MinutePoint>, metric: string, threshold: real): nat {
    if points == [] then 0
    else CountOver(Butlast(points), metric, threshold) + if Metric(metric, Last(points)) >= threshold then 1 else 0
  }

  /** At least the share `ratio` of the points reaches the threshold. */
  predicate LoadWanted(rule: LoadRule, points: seq<MinutePoint>) {
    points != []
    && CountOver(points, rule.metric, rule.threshold) as real / |points| as real >= rule.ratio
  }

  ghost function IndicesOver(points: seq<MinutePoint>, metric: string, threshold: real): set<nat> {
    set i: nat | i < |points| && OverThreshold(points[i], metric, threshold)
  }

  /** A rule wants an alert exactly when there are points and the share of those over its threshold
      is at least its ratio. */
  lemma {:induction false} LoadWantedIff(rule: LoadRule, points: seq<MinutePoint>)
    ensures LoadWanted(rule, points)
            <==> points != []
                 && |IndicesOver(points, rule.metric, rule.threshold)| as real / |points| as real >= rule.ratio
  {
    CountOverIsShare(points, rule.metric, rule.threshold);
  }

  lemma {:induction false} CountOverIsShare(points: seq<MinutePoint>, metric: string, threshold: real)
    ensures CountOver(points, metric, threshold) == |IndicesOver(points, metric, threshold)|
  {
    if points == [] {
    } else {
      var pre, l := IndicesOver(Butlast(points), metric, threshold), |points| - 1;
      CountOverIsShare(Butlast(points), metric, threshold);
      assert IndicesOver(points, metric, threshold)
          == if OverThreshold(Last(points), metric, threshold) then pre + {l} else pre;
    }
  }

  function PointsFor(hist: History, u: string): seq<MinutePoint> { if u in hist then hist[u] else [] }

  function LoadTick(rule: LoadRule, points: seq<MinutePoint>, now: int): Tick {
    Tick(now, LoadWanted(rule, points), rule.intervalMin * 60)
  }

  predicate LoadDue(rule: LoadRule, hist: History, now: int) {
    Due(LoadTick(rule, PointsFor(hist, rule.serverUUID), now), rule.lastNotify)
  }

  function LoadAlerts(rules: seq<LoadRule>, hist: History, now: int): seq<Alert> {
    if rules == [] then []
    else LoadAlerts(Butlast(rules), hist, now)
         + if LoadDue(Last(rules), hist, now) then [LoadAlert(Last(rules).id, now)] else []
  }

  function MarkLoad(table: map<int, LoadRule>, rules: seq<LoadRule>, hist: History, now: int): map<int, LoadRule> {
    if rules == [] then table
    else
      var t := MarkLoad(table, Butlast(rules), hist, now);
      var id := Last(rules).id;
      if LoadDue(Last(rules), hist, now) && id in t then t[id := t[id].(lastNotify := now)] else t
  }

  /** The round marks exactly the rules it alerts for. */
  lemma {:induction false} RuleMarkedWhenAlerted(
      table: map<int, LoadRule>, rules: seq<LoadRule>, hist: History, now: int, id: int)
    ensures var t := MarkLoad(table, rules, hist, now);
            (id in t <==> id in table)
            && (LoadAlert(id, now) in LoadAlerts(rules, hist, now)
                <==> exists i :: 0 <= i < |rules| && rules[i].id == id && LoadDue(rules[i], hist, now))
            && (id in table ==>
                  t[id] == if LoadAlert(id, now) in LoadAlerts(rules, hist, now)
                           then table[id].(lastNotify := now) else table[id])
  {
    hide LoadDue;
    if rules == [] {
    } else {
      var pre, rule := Butlast(rules), Last(rules);
      RuleMarkedWhenAlerted(table, pre, hist, now, id);
      if rule.id == id && LoadDue(rule, hist, now) {
        assert rules[|rules| - 1] == rule;
        assert LoadAlerts(rules, hist, now)[|LoadAlerts(rules, hist, now)| - 1] == LoadAlert(id, now);
      } else {
        assert LoadAlert(id, now) in LoadAlerts(rules, hist, now) <==> LoadAlert(id, now) in LoadAlerts(pre, hist, now);
        if i :| 0 <= i < |rules| && rules[i].id == id && LoadDue(rules[i], hist, now) {
          assert pre[i] == rules[i];
        }
        if i :| 0 <= i < |pre| && pre[i].id == id && LoadDue(pre[i], hist, now) {
          assert rules[i] == pre[i];
        }
      }
    }
  }

  lemma {:induction false} CountOverGrows(a: seq<MinutePoint>, b: seq<MinutePoint>, metric: string, hi: real, lo: real)
    requires |a| == |b| && lo <= hi
    requires forall i :: 0 <= i < |a| ==> Metric(metric, a[i]) <= Metric(metric, b[i])
    ensures CountOver(a, metric, hi) <= CountOver(b, metric, lo)
  {
    if a == [] {
    } else {
      CountOverGrows(Butlast(a), Butlast(b), metric, hi, lo);
      assert Metric(metric, Last(a)) <= Metric(metric, Last(b));
    }
  }

  lemma RatioGrows(a: nat, b: nat, d: nat, r: real)
    requires a <= b && d > 0 && a as real / d as real >= r
    ensures b as real / d as real >= r
  {
    var x, y := a as real / d as real, b as real / d as real;
    assert x * d as real == a as real && y * d as real == b as real;
    assert (y - x) * d as real >= 0.0;
  }

  /** Higher samples and a lower threshold can only make a rule want an alert more. */
  lemma {:induction false} LoadWantedGrows(rule: LoadRule, a: seq<MinutePoint>, b: seq<MinutePoint>, lower: real)
    requires |a| == |b| && lower <= rule.threshold
    requires forall i :: 0 <= i < |a| ==>
               if rule.metric == "ram" then a[i].memPct <= b[i].memPct else a[i].cpu <= b[i].cpu
    ensures LoadWanted(rule, a) ==> LoadWanted(rule.(threshold := lower), b)
  {
    CountOverGrows(a, b, rule.metric, rule.threshold, lower);
    if LoadWanted(rule, a) {
      RatioGrows(CountOver(a, rule.metric, rule.threshold), CountOver(b, rule.metric, lower), |a|, rule.ratio);
    }
  }

  /** What a rule is documented to watch: its server, or with the empty id every server. */
  ghost predicate MeantWanted(rule: LoadRule, hist: History) {
    if rule.serverUUID == "" then exists u :: u in hist && LoadWanted(rule, hist[u])
    else LoadWanted(rule, PointsFor(hist, rule.serverUUID))
  }

  ghost predicate MeantDue(rule: LoadRule, hist: History, now: int) {
    Due(Tick(now, MeantWanted(rule, hist), rule.intervalMin * 60), rule.lastNotify)
  }

  /** The code looks the empty id up as if it were a server's. Where no server has that id, it
      does what is documented exactly when the rule names a server, or its interval is not over,
      or no server at all wants the alert. */
  lemma {:induction false} LoadAsDocumentedIff(rule: LoadRule, hist: History, now: int)
    requires "" !in hist
    ensures (LoadDue(rule, hist, now) <==> MeantDue(rule, hist, now))
            <==> rule.serverUUID != "" || now - rule.lastNotify < rule.intervalMin * 60
                 || forall u :: u in hist ==> !LoadWanted(rule, hist[u])
  {
    assert !LoadWanted(rule, []);
    hide LoadWanted;
  }

  // ---- Expiry ----

  const NANOS_PER_SECOND: int := 1_000_000_000
  const NANOS_PER_DAY: int := 24 * 3600 * NANOS_PER_SECOND

  /** What remains is less than days + 1 days, or no duration is as long as days days. */
  predicate Expires(s: ServerAdmin, now: int, days: int) {
    s.row.expiredAt > 0
    && (s.row.expiredAt * 1_000_000_000 - now < (days + 1) * 86_400_000_000_000 || days >= 106_751)
  }

  /** A duration saturates at the ends of int64. */
  function Saturate(d: int): int64 {
    if d >= TWO_63 then TWO_63 - 1 else if d < -TWO_63 then -TWO_63 else d
  }

  function DaysLeft(expiredAt: int, now: int): int {
    Quo(Saturate(expiredAt * NANOS_PER_SECOND - now), NANOS_PER_DAY)
  }

  predicate Expiring(s: ServerAdmin, now: int, days: int) {
    s.row.expiredAt > 0 && DaysLeft(s.row.expiredAt, now) <= days
  }

  function ExpiringOf(list: seq<ServerAdmin>, now: int, days: int): seq<string> {
    if list == [] then []
    else ExpiringOf(Butlast(list), now, days) + if Expiring(Last(list), now, days) then [Last(list).uuid] else []
  }

  /** Days are counted by dropping the fraction, so a server is listed exactly when it has an
      expiry and less than days + 1 full days remain; one already expired always is. From 106751
      days on every server with an expiry is, as durations end there. */
  lemma {:induction false} ExpiringIff(s: ServerAdmin, now: int, days: nat)
    ensures Expiring(s, now, days) <==> Expires(s, now, days)
  {
    var d := Saturate(s.row.expiredAt * NANOS_PER_SECOND - now);
    if d >= 0 { QuotientAtMost(d, NANOS_PER_DAY, days); }
  }

  /** A server expires in a listing when it is the last and expires, or expires before it. */
  lemma NamedBefore(list: seq<ServerAdmin>, now: int, days: int, u: string)
    requires list != []
    ensures (exists i :: 0 <= i < |list| && list[i].uuid == u && Expires(list[i], now, days))
            <==> (Last(list).uuid == u && Expires(Last(list), now, days))
                 || exists i :: 0 <= i < |list| - 1
                                && Butlast(list)[i].uuid == u && Expires(Butlast(list)[i], now, days)
  {
    hide Expires;
    assert Last(list) == list[|list| - 1];
    assert forall i :: 0 <= i < |list| - 1 ==> Butlast(list)[i] == list[i];
    if i :| 0 <= i < |list| - 1 && list[i].uuid == u && Expires(list[i], now, days) {
      assert Butlast(list)[i].uuid == u && Expires(Butlast(list)[i], now, days);
    }
  }

  lemma {:induction false} NamedIffExpires(list: seq<ServerAdmin>, now: int, days: nat, u: string)
    ensures u in ExpiringOf(list, now, days)
            <==> exists i :: 0 <= i < |list| && list[i].uuid == u && Expires(list[i], now, days)
  {
    hide Expiring, Expires;
    if list == [] {
    } else {
      NamedIffExpires(Butlast(list), now, days, u);
      ExpiringIff(Last(list), now, days);
      NamedBefore(list, now, days, u);
    }
  }

  /** The listing has u somewhere before v. */
  ghost predicate Before(list: seq<ServerAdmin>, u: string, v: string) {
    exists i, j :: 0 <= i < j < |list| && list[i].uuid == u && list[j].uuid == v
  }

  lemma BeforeGrows(list: seq<ServerAdmin>, u: string, v: string)
    requires list != [] && Before(Butlast(list), u, v)
    ensures Before(list, u, v)
  {
    var pre := Butlast(list);
    var i, j :| 0 <= i < j < |pre| && pre[i].uuid == u && pre[j].uuid == v;
    assert list[i] == pre[i] && list[j] == pre[j];
  }

  /** Any two names stand in the order of the listing. */
  ghost predicate InListingOrder(due: seq<string>, list: seq<ServerAdmin>) {
    forall a, b :: 0 <= a < b < |due| ==> Before(list, due[a], due[b])
  }

  lemma {:induction false} NamedInOrder(list: seq<ServerAdmin>, now: int, days: nat)
    ensures InListingOrder(ExpiringOf(list, now, days), list)
  {
    if list == [] {
    } else {
      var pre, due, all := Butlast(list), ExpiringOf(Butlast(list), now, days), ExpiringOf(list, now, days);
      NamedInOrder(pre, now, days);
      assert all == due || all == due + [Last(list).uuid];
      hide ExpiringOf, Expires, Before;
      forall a, b | 0 <= a < b < |all| ensures Before(list, all[a], all[b]) {
        if b < |due| {
          BeforeGrows(list, due[a], due[b]);
        } else {
          NamedBeforeLast(list, now, days, all[a]);
        }
      }
    }
  }

  lemma NamedBeforeLast(list: seq<ServerAdmin>, now: int, days: nat, u: string)
    requires list != [] && u in ExpiringOf(Butlast(list), now, days)
    ensures Before(list, u, Last(list).uuid)
  {
    var pre := Butlast(list);
    NamedIffExpires(pre, now, days, u);
    var i :| 0 <= i < |pre| && pre[i].uuid == u;
    assert list[i] == pre[i] && list[|pre|] == Last(list);
  }

  /** due names exactly the servers of the listing that expire, in its order. */
  ghost predicate Names(due: seq<string>, list: seq<ServerAdmin>, now: int, days: int) {
    && (forall u :: u in due <==> exists i :: 0 <= i < |list| && list[i].uuid == u && Expires(list[i], now, days))
    && InListingOrder(due, list)
  }

  /** The reminder names exactly the servers that expire, in the order of the listing, and each
      once, as a listing has every server once. */
  lemma {:induction false} ReminderNames(list: seq<ServerAdmin>, now: int, days: nat)
    ensures Names(ExpiringOf(list, now, days), list, now, days)
    ensures (forall i, j :: 0 <= i < j < |list| ==> list[i].uuid != list[j].uuid) ==>
              NoRepeats(ExpiringOf(list, now, days))
  {
    NamedInOrder(list, now, days);
    forall u { NamedIffExpires(list, now, days, u); }
    hide ExpiringOf, Expires;
    if forall i, j :: 0 <= i < j < |list| ==> list[i].uuid != list[j].uuid {
      assert forall u :: !Before(list, u, u);
    }
  }

  /** One round of the reminder: the calendar day and whether anything is expiring. */
  datatype ExpiryRound = ExpiryRound(day: int, wanted: bool)

  function ExpiryDayAfter(start: Option<int>, rs: seq<ExpiryRound>): Option<int> {
    if rs == [] then start
    else if Last(rs).wanted then Some(Last(rs).day)
    else ExpiryDayAfter(start, Butlast(rs))
  }

  predicate Reminds(start: Option<int>, rs: seq<ExpiryRound>, i: nat)
    requires i < |rs|
  {
    rs[i].wanted && ExpiryDayAfter(start, rs[..i]) != Some(rs[i].day)
  }

  /** The calendar never goes back, nor behind the day already reminded of. */
  ghost predicate DaysAdvance(start: Option<int>, rs: seq<ExpiryRound>) {
    && (forall j, k :: 0 <= j < k < |rs| ==> rs[j].day <= rs[k].day)
    && (start.Some? ==> forall j :: 0 <= j < |rs| ==> start.value <= rs[j].day)
  }

  /** Some round of that day found a server expiring. */
  ghost predicate WantedOn(rs: seq<ExpiryRound>, day: int) {
    exists i :: 0 <= i < |rs| && rs[i].wanted && rs[i].day == day
  }

  lemma {:induction false} ExpiryDayIsLastWanted(start: Option<int>, rs: seq<ExpiryRound>, n: nat)
    requires n <= |rs|
    ensures var d := ExpiryDayAfter(start, rs[..n]);
            ((forall j :: 0 <= j < n ==> !rs[j].wanted) && d == start)
            || exists k :: 0 <= k < n && rs[k].wanted && d == Some(rs[k].day)
                           && forall j :: k < j < n ==> !rs[j].wanted
  {
    if n == 0 {
    } else {
      ExpiryDayIsLastWanted(start, rs, n - 1);
      assert Butlast(rs[..n]) == rs[..n - 1];
    }
  }

  /** With days that only advance, a day's reminder goes out exactly at the first round of the
      day that wants one, unless it had gone out before the run. */
  lemma {:induction false} RemindsAtFirst(start: Option<int>, rs: seq<ExpiryRound>, i: nat)
    requires i < |rs| && DaysAdvance(start, rs)
    ensures Reminds(start, rs, i)
            <==> rs[i].wanted && start != Some(rs[i].day)
                 && forall j :: 0 <= j < i && rs[j].day == rs[i].day ==> !rs[j].wanted
  {
    ExpiryDayIsLastWanted(start, rs, i);
  }

  /** The days of the rounds that remind, in order. */
  function RemindDays(start: Option<int>, rs: seq<ExpiryRound>): seq<int> {
    if rs == [] then []
    else RemindDays(start, Butlast(rs))
         + if Last(rs).wanted && ExpiryDayAfter(start, Butlast(rs)) != Some(Last(rs).day) then [Last(rs).day] else []
  }

  ghost predicate Ascends(days: seq<int>) { forall i, j :: 0 <= i < j < |days| ==> days[i] < days[j] }

  lemma AscendsAppend(days: seq<int>, day: int)
    requires Ascends(days) && forall d :: d in days ==> d < day
    ensures Ascends(days + [day]) && forall d :: d in days + [day] <==> d in days || d == day
  {
    assert forall i :: 0 <= i < |days| ==> days[i] in days;
  }

  lemma WantedStep(rs: seq<ExpiryRound>, day: int)
    requires rs != []
    ensures WantedOn(rs, day) <==> WantedOn(Butlast(rs), day) || (Last(rs).wanted && Last(rs).day == day)
  {
    assert forall i :: 0 <= i < |rs| - 1 ==> Butlast(rs)[i] == rs[i];
    assert Last(rs) == rs[|rs| - 1];
  }

  /** The last round reminds exactly when no earlier round of its day wanted to. */
  lemma LastReminds(start: Option<int>, rs: seq<ExpiryRound>)
    requires rs != [] && DaysAdvance(start, rs)
    ensures DaysAdvance(start, Butlast(rs))
    ensures Last(rs).wanted ==>
              (ExpiryDayAfter(start, Butlast(rs)) != Some(Last(rs).day)
               <==> start != Some(Last(rs).day) && !WantedOn(Butlast(rs), Last(rs).day))
  {
    RemindsAtFirst(start, rs, |rs| - 1);
    assert forall i :: 0 <= i < |rs| - 1 ==> Butlast(rs)[i] == rs[i];
  }

  lemma {:induction false} RemindDaysAscend(start: Option<int>, rs: seq<ExpiryRound>, day: int)
    requires DaysAdvance(start, rs)
    ensures day in RemindDays(start, rs) <==> start != Some(day) && WantedOn(rs, day)
    ensures Ascends(RemindDays(start, rs))
    ensures forall d :: d in RemindDays(start, rs) ==> rs != [] && d <= Last(rs).day
  {
    if rs == [] {
    } else {
      var l, days := Last(rs), RemindDays(start, Butlast(rs));
      LastReminds(start, rs);
      assert days + [] == days;
      RemindDaysAscend(start, Butlast(rs), day);
      RemindDaysAscend(start, Butlast(rs), l.day);
      WantedStep(rs, day);
      assert Butlast(rs) != [] ==> Last(Butlast(rs)).day <= l.day;
      hide WantedOn, DaysAdvance, ExpiryDayAfter, Ascends;
      if l.day !in days { AscendsAppend(days, l.day); }
    }
  }

  // ---- Traffic ----

  function TrafficPct(s: ServerAdmin, r: Report): int
    requires s.row.trafficLimit > 0
  {
    TrafficAlerts.Pct(Traffic.Used(s.row, r.netTotalIn, r.netTotalOut), s.row.trafficLimit)
  }

  /** The server takes part in the check: it has a limit and has reported. */
  predicate Checked(s: ServerAdmin, latest: map<string, Report>) {
    s.row.trafficLimit > 0 && s.uuid in latest
  }

  function RecordedLevel(state: map<string, int>, u: string): Option<int> {
    if u in state then Some(state[u]) else None
  }

  function TrafficAlertsOf(
      state: map<string, int>, list: seq<ServerAdmin>, latest: map<string, Report>, threshold: int): seq<Alert>
  {
    if list == [] then []
    else
      var before := TrafficAlertsOf(state, Butlast(list), latest, threshold);
      var s := Last(list);
      if Checked(s, latest)
         && TrafficAlerts.Alerts(RecordedLevel(TrafficStateAfter(state, Butlast(list), latest, threshold), s.uuid),
                                 TrafficPct(s, latest[s.uuid]), threshold)
      then before + [TrafficAlert(s.uuid, TrafficPct(s, latest[s.uuid]))]
      else before
  }

  function TrafficStateAfter(
      state: map<string, int>, list: seq<ServerAdmin>, latest: map<string, Report>, threshold: int): map<string, int>
  {
    if list == [] then state
    else
      var before := TrafficStateAfter(state, Butlast(list), latest, threshold);
      var s := Last(list);
      if Checked(s, latest) && TrafficPct(s, latest[s.uuid]) >= threshold
      then before[s.uuid := TrafficAlerts.Level(TrafficPct(s, latest[s.uuid]))]
      else before
  }

  /** A round moves each listed server's recorded level by one step of the band rule. */
  lemma {:induction false} TrafficRoundPerServer(
      state: map<string, int>, list: seq<ServerAdmin>, latest: map<string, Report>, threshold: int, i: nat)
    requires i < |list| && forall j, k :: 0 <= j < k < |list| ==> list[j].uuid != list[k].uuid
    ensures var u := list[i].uuid; var after := RecordedLevel(TrafficStateAfter(state, list, latest, threshold), u);
            if list[i].row.trafficLimit <= 0 || u !in latest then after == RecordedLevel(state, u)
            else after == TrafficAlerts.Record(RecordedLevel(state, u), TrafficPct(list[i], latest[u]), threshold)
  {
    hide TrafficPct, TrafficAlerts.Level;
    if i == |list| - 1 {
      UnlistedLevelKept(state, Butlast(list), latest, threshold, list[i].uuid);
    } else {
      TrafficRoundPerServer(state, Butlast(list), latest, threshold, i);
      assert Butlast(list)[i] == list[i];
      assert Last(list).uuid != list[i].uuid;
    }
  }

  lemma {:induction false} UnlistedLevelKept(
      state: map<string, int>, list: seq<ServerAdmin>, latest: map<string, Report>, threshold: int, u: string)
    requires forall j :: 0 <= j < |list| ==> list[j].uuid != u
    ensures RecordedLevel(TrafficStateAfter(state, list, latest, threshold), u) == RecordedLevel(state, u)
  {
    hide TrafficPct, TrafficAlerts.Level;
    if list == [] {
    } else {
      UnlistedLevelKept(state, Butlast(list), latest, threshold, u);
      assert Last(list) == list[|list| - 1];
    }
  }

  lemma {:induction false} UnlistedServerNotAlerted(
      state: map<string, int>, list: seq<ServerAdmin>, latest: map<string, Report>, threshold: int, u: string, pct: int)
    requires forall j :: 0 <= j < |list| ==> list[j].uuid != u
    ensures TrafficAlert(u, pct) !in TrafficAlertsOf(state, list, latest, threshold)
  {
    hide TrafficPct, TrafficAlerts.Alerts;
    if list == [] {
    } else {
      UnlistedServerNotAlerted(state, Butlast(list), latest, threshold, u, pct);
      assert Last(list) == list[|list| - 1];
    }
  }

  /** ... and alerts for it exactly when that step does. */
  lemma {:induction false} TrafficAlertPerServer(
      state: map<string, int>, list: seq<ServerAdmin>, latest: map<string, Report>, threshold: int, i: nat)
    requires i < |list| && forall j, k :: 0 <= j < k < |list| ==> list[j].uuid != list[k].uuid
    requires list[i].row.trafficLimit > 0 && list[i].uuid in latest
    ensures var u := list[i].uuid; var pct := TrafficPct(list[i], latest[u]);
            TrafficAlert(u, pct) in TrafficAlertsOf(state, list, latest, threshold)
            <==> TrafficAlerts.Alerts(RecordedLevel(state, u), pct, threshold)
  {
    hide TrafficPct, TrafficAlerts.Alerts;
    var u, pre := list[i].uuid, Butlast(list);
    var pct := TrafficPct(list[i], latest[u]);
    if i == |list| - 1 {
      UnlistedLevelKept(state, pre, latest, threshold, u);
      UnlistedServerNotAlerted(state, pre, latest, threshold, u, pct);
    } else {
      TrafficAlertPerServer(state, pre, latest, threshold, i);
      assert pre[i] == list[i];
      assert Last(list).uuid != u;
    }
  }
}
