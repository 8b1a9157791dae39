/** The notification engine: four checks a round, each a loop over what it lists. A call of
    `Send` is recorded in `sent`; transmitting it is not modelled. */
module NotificationEngine {
  import opened GoNumbers
  import opened Records
  import opened Seqs
  import opened Storage
  import opened RealtimeHub
  import opened MinuteTable
  import opened AlertRules
  import Traffic
  import TrafficAlerts

  datatype NotifySettings = NotifySettings(
    enabled: bool, expiryEnabled: bool, expiryDays: int, trafficPct: int)

  class Notifier {
    const store: Store
    const hub: Hub
    var sent: seq<Alert>
    var trafficNotifyState: map<string, int>

    constructor (store: Store, hub: Hub)
      ensures this.store == store && this.hub == hub && sent == [] && trafficNotifyState == map[]
    {
      this.store, this.hub, sent, trafficNotifyState := store, hub, [], map[];
    }

    /** The loop of checkOffline over the servers it is given. */
    method CheckOfflineOf(servers: seq<ServerAdmin>, now: int)
      modifies this`sent, store`servers
      ensures sent == old(sent) + OfflineAlerts(servers, now)
      ensures store.servers == MarkOffline(old(store.servers), servers, now)
    {
      for i := 0 to |servers|
        invariant sent == old(sent) + OfflineAlerts(servers[..i], now)
        invariant store.servers == MarkOffline(old(store.servers), servers[..i], now)
      {
        var s := servers[i];
        assert Butlast(servers[..i + 1]) == servers[..i];
        if !s.row.offlineNotify { continue; }
        var online := now - s.lastSeen < 60;
        if online { continue; }
        var offlineFor := now - s.lastSeen;
        if s.lastSeen == 0 { continue; }
        if offlineFor < s.row.offlineGrace { continue; }
        if now - s.row.lastOfflineNotify < 30 * 60 { continue; }
        sent := sent + [OfflineAlert(s.uuid, now)];
        store.MarkOfflineNotified(s.uuid, now);
      }
      assert servers[..|servers|] == servers;
    }

    /** As the code calls it, on the listing of the table: no offline alert is ever sent. */
    method CheckOffline(now: int)
      modifies this`sent, store`servers
      ensures sent == old(sent)
      ensures store.servers == old(store.servers)
    {
      var servers := store.ListServers();
      CheckOfflineOf(servers, now);
      ListedServersAreNeverDue(servers, now);
      NothingMarked(old(store.servers), servers, now);
    }

    /** The inner loop of checkLoad: does the share of points over the threshold reach the ratio? */
    static method RatioReached(rule: LoadRule, points: seq<MinutePoint>) returns (wanted: bool)
      requires points != []
      ensures wanted == LoadWanted(rule, points)
      ensures wanted <==> |IndicesOver(points, rule.metric, rule.threshold)| as real / |points| as real >= rule.ratio
    {
      LoadWantedIff(rule, points);
      var over := 0;
      for j := 0 to |points|
        invariant over == CountOver(points[..j], rule.metric, rule.threshold)
      {
        assert Butlast(points[..j + 1]) == points[..j];
        var v := points[j].cpu;
        if rule.metric == "ram" { v := points[j].memPct; }
        if v >= rule.threshold { over := over + 1; }
      }
      assert points[..|points|] == points;
      var ratio := over as real / |points| as real;
      wanted := !(ratio < rule.ratio);
    }

    /** The body of checkLoad's loop. */
    method CheckRule(rule: LoadRule, hist: History, now: int)
      modifies this`sent, store`rules
      ensures sent == old(sent) + if LoadDue(rule, hist, now) then [LoadAlert(rule.id, now)] else []
      ensures store.rules == if LoadDue(rule, hist, now) && rule.id in old(store.rules)
                             then old(store.rules)[rule.id := old(store.rules)[rule.id].(lastNotify := now)]
                             else old(store.rules)
    {
      NoPointsNoAlert(rule);
      hide LoadWanted;
      if now - rule.lastNotify < rule.intervalMin * 60 { return; }
      var points := if rule.serverUUID in hist then hist[rule.serverUUID] else [];
      if |points| == 0 { return; }
      var wanted := RatioReached(rule, points);
      if !wanted { return; }
      sent := sent + [LoadAlert(rule.id, now)];
      store.MarkLoadRuleNotified(rule.id, now);
    }

    /** The loop of checkLoad. */
    method CheckRules(rules: seq<LoadRule>, hist: History, now: int)
      modifies this`sent, store`rules
      ensures sent == old(sent) + LoadAlerts(rules, hist, now)
      ensures store.rules == MarkLoad(old(store.rules), rules, hist, now)
    {
      hide LoadDue;
      ghost var sent0, rules0 := sent, store.rules;
      for i := 0 to |rules|
        invariant sent == sent0 + LoadAlerts(rules[..i], hist, now)
        invariant store.rules == MarkLoad(rules0, rules[..i], hist, now)
      {
        assert Butlast(rules[..i + 1]) == rules[..i];
        CheckRule(rules[i], hist, now);
      }
      assert rules[..|rules|] == rules;
    }

    /** The clock is read twice: for the history, and for the marks. hist is the recent history
        the round looked at; it looks at none without rules. */
    method CheckLoad(asked: int, now: int) returns (ghost hist: History)
      requires WellKeyed(store.stats)
      modifies this`sent, store`rules
      ensures old(store.rules) != map[] ==> IsRecent(hist, store.stats, asked - 600)
      ensures sent == old(sent) + LoadAlerts(RuleList(old(store.rules)), hist, now)
      ensures store.rules == MarkLoad(old(store.rules), RuleList(old(store.rules)), hist, now)
    {
      hide LoadDue, HistorySince, IsRecent, RuleList, MarkLoad, LoadAlerts;
      assert RuleList(map[]) == [] && LoadAlerts([], map[], now) == [] && MarkLoad(map[], [], map[], now) == map[] by {
        NoRules(now);
      }
      hist := map[];
      var rules := store.ListLoadRules();
      if |rules| == 0 { return; }
      var recent := store.AllRecentHistory(asked - 10 * 60);
      hist := recent;
      CheckRules(rules, recent, now);
    }

    /** The loop of checkExpiry. */
    static method CollectExpiring(servers: seq<ServerAdmin>, now: int, days: int) returns (expiring: seq<string>)
      ensures expiring == ExpiringOf(servers, now, days)
    {
      hide DaysLeft;
      expiring := [];
      for i := 0 to |servers|
        invariant expiring == ExpiringOf(servers[..i], now, days)
      {
        var s := servers[i];
        assert Butlast(servers[..i + 1]) == servers[..i];
        if s.row.expiredAt <= 0 { continue; }
        if DaysLeft(s.row.expiredAt, now) <= days {
          expiring := expiring + [s.uuid];
        }
      }
      assert servers[..|servers|] == servers;
    }

    /** now is in nanoseconds, day the calendar day it falls on; servers is the listing used. */
    method CheckExpiry(ns: NotifySettings, now: int, day: int) returns (ghost servers: seq<ServerAdmin>)
      modifies this`sent, store`expiryDay
      ensures IsListing(servers, store.servers)
      ensures ns.expiryDays > 0 ==>
                var due := ExpiringOf(servers, now, ns.expiryDays);
                Names(due, servers, now, ns.expiryDays) && NoRepeats(due)
      ensures var due := ExpiringOf(servers, now, ns.expiryDays);
              if !ns.expiryEnabled || ns.expiryDays <= 0 || due == [] || old(store.expiryDay) == Some(day)
              then sent == old(sent) && store.expiryDay == old(store.expiryDay)
              else sent == old(sent) + [ExpiryAlert(due, day)] && store.expiryDay == Some(day)
    {
      hide ExpiringOf, IsListing, Names;
      var listed := store.ListServers();
      servers := listed;
      if ns.expiryDays > 0 { NamedOnce(listed, store.servers, now, ns.expiryDays); }
      if !ns.expiryEnabled || ns.expiryDays <= 0 { return; }
      var expiring := CollectExpiring(listed, now, ns.expiryDays);
      if |expiring| == 0 { return; }
      if store.expiryDay == Some(day) { return; }
      sent := sent + [ExpiryAlert(expiring, day)];
      store.expiryDay := Some(day);
    }

    method CheckTraffic(ns: NotifySettings)
      modifies this`sent, this`trafficNotifyState
      ensures ns.trafficPct <= 0 ==> sent == old(sent) && trafficNotifyState == old(trafficNotifyState)
      ensures ns.trafficPct > 0 ==>
                exists servers :: IsListing(servers, store.servers)
                  && sent == old(sent) + TrafficAlertsOf(old(trafficNotifyState), servers, hub.latest, ns.trafficPct)
                  && trafficNotifyState
                     == TrafficStateAfter(old(trafficNotifyState), servers, hub.latest, ns.trafficPct)
    {
      if ns.trafficPct <= 0 { return; }
      var servers := store.ListServers();
      for i := 0 to |servers|
        invariant sent == old(sent) + TrafficAlertsOf(old(trafficNotifyState), servers[..i], hub.latest, ns.trafficPct)
        invariant trafficNotifyState
               == TrafficStateAfter(old(trafficNotifyState), servers[..i], hub.latest, ns.trafficPct)
      {
        var s := servers[i];
        assert Butlast(servers[..i + 1]) == servers[..i];
        if s.row.trafficLimit <= 0 { continue; }
        var rep := hub.Latest(s.uuid);
        if rep == None { continue; }
        var used := Traffic.Used(s.row, rep.value.netTotalIn, rep.value.netTotalOut);
        var pct := TrafficAlerts.Pct(used, s.row.trafficLimit);
        if pct < ns.trafficPct { continue; }
        var level := TrafficAlerts.Level(pct);
        var last := RecordedLevel(trafficNotifyState, s.uuid);
        trafficNotifyState := trafficNotifyState[s.uuid := level];
        if last == Some(level) { continue; }
        sent := sent + [TrafficAlert(s.uuid, pct)];
      }
      assert servers[..|servers|] == servers;
    }
  }

  lemma NamedOnce(list: seq<ServerAdmin>, servers: Servers, now: int, days: nat)
    requires IsListing(list, servers)
    ensures var due := ExpiringOf(list, now, days); Names(due, list, now, days) && NoRepeats(due)
  {
    ReminderNames(list, now, days);
    hide ExpiringOf, Names;
  }

  lemma NoRules(now: int)
    ensures RuleList(map[]) == [] && LoadAlerts([], map[], now) == [] && MarkLoad(map[], [], map[], now) == map[]
  {}

  lemma NoPointsNoAlert(rule: LoadRule)
    ensures !LoadWanted(rule, [])
  {}

  lemma {:induction false} NothingMarked(servers: Servers, list: seq<ServerAdmin>, now: int)
    requires forall i :: 0 <= i < |list| ==> list[i].lastSeen == 0
    ensures MarkOffline(servers, list, now) == servers
  {
    if list == [] {
    } else {
      NothingMarked(servers, Butlast(list), now);
      assert Last(list) == list[|list| - 1];
    }
  }
}
