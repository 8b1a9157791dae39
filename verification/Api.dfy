/** The request handlers that tie store and hub together. */
module ApiHandlers {
  import opened GoNumbers
  import opened Records
  import opened Aggregation
  import opened Storage
  import opened RealtimeHub
  import Tokens
  import Traffic

  /** The traffic part of one public listing entry. */
  datatype PublicServer = PublicServer(uuid: string, trafficUsed: int64, trafficRemaining: int64)

  /** An entry after fillTraffic: untouched without a report or a row, else used and remaining. */
  function Filled(p: PublicServer, servers: Servers, latest: map<string, Report>): PublicServer {
    if p.uuid !in latest || p.uuid !in servers then p
    else
      var used := Traffic.Used(servers[p.uuid], latest[p.uuid].netTotalIn, latest[p.uuid].netTotalOut);
      PublicServer(p.uuid, used, Traffic.Remaining(servers[p.uuid].trafficLimit, used))
  }

  class Api {
    const store: Store
    const hub: Hub

    constructor (store: Store, hub: Hub)
      ensures this.store == store && this.hub == hub
    {
      this.store, this.hub := store, hub;
    }

    /** One report, handled undisturbed: the token is checked first and a bad one changes nothing;
        then the monthly base is refreshed, and only then does the hub take the report. These are
        separate steps that other handlers may come between; ServerMachine has them one by one. */
    method HandleAgentReport(token: string, rep: Report, now: int, month: int) returns (r: Option<string>)
      requires hub.Valid()
      modifies hub, hub.rings.Values, hub.Backings(), store`servers, store`stats
      ensures hub.Valid()
      ensures Tokens.IsLookup(old(store.servers), token, r)
      ensures r == None ==>
                store.servers == old(store.servers) && store.stats == old(store.stats) && hub.View() == old(hub.View())
      ensures r.Some? ==>
                var u := r.value; var e := Entry(u, rep, now);
                u in old(store.servers)
                && store.servers == old(store.servers)[
                     u := Traffic.Refresh(old(store.servers)[u], month, rep.netTotalIn, rep.netTotalOut)]
                && hub.View() == HubStep(old(hub.View()), e)
                && store.stats == SaveFlushes(old(store.stats), Flushed(old(hub.View()), e))
    {
      hide HubStep, Flushed, SaveFlushes, Hub.View;
      r := store.ServerUUIDByToken(token);
      if r == None { return; }
      LookupIsRow(store.servers, token, r.value);
      var baseIn, baseOut := store.MonthlyTrafficRecord(r.value, rep.netTotalIn, rep.netTotalOut, month);
      hub.Ingest(r.value, rep, now, store);
    }

    /** Fills the listing in place. */
    method FillTraffic(list: array<PublicServer>)
      modifies list
      ensures forall i :: 0 <= i < list.Length ==> list[i] == Filled(old(list[i]), store.servers, hub.latest)
      ensures forall i :: 0 <= i < list.Length ==>
                old(list[i]).uuid !in hub.latest || old(list[i]).uuid !in store.servers ==> list[i] == old(list[i])
    {
      for i := 0 to list.Length
        invariant forall j :: 0 <= j < i ==> list[j] == Filled(old(list[j]), store.servers, hub.latest)
        invariant forall j :: i <= j < list.Length ==> list[j] == old(list[j])
      {
        var rep := hub.Latest(list[i].uuid);
        if rep == None { continue; }
        if list[i].uuid in store.servers {
          var srv := store.servers[list[i].uuid];
          var used := Traffic.Used(srv, rep.value.netTotalIn, rep.value.netTotalOut);
          var remaining: int64 := -1;
          if srv.trafficLimit > 0 {
            remaining := srv.trafficLimit - used;
            if remaining < 0 { remaining := 0; }
          }
          list[i] := list[i].(trafficUsed := used, trafficRemaining := remaining);
        }
      }
    }
  }

  lemma LookupIsRow(servers: Servers, token: string, u: string)
    requires Tokens.IsLookup(servers, token, Some(u))
    ensures u in servers
  {}

  /** A filled entry shows the usage and, with a limit, splits it into used and remaining; without
      one, remaining is -1. */
  lemma {:induction false} FilledSplitsLimit(p: PublicServer, servers: Servers, latest: map<string, Report>)
    requires p.uuid in latest && p.uuid in servers
    ensures var f := Filled(p, servers, latest); var limit := servers[p.uuid].trafficLimit;
            f.uuid == p.uuid
            && f.trafficUsed == Traffic.Used(servers[p.uuid], latest[p.uuid].netTotalIn, latest[p.uuid].netTotalOut)
            && f.trafficUsed >= 0
            && (limit <= 0 ==> f.trafficRemaining == -1)
            && (limit > 0 ==>
                  f.trafficUsed + f.trafficRemaining == if f.trafficUsed <= limit then limit else f.trafficUsed)
  {
    var row := servers[p.uuid];
    var used := Traffic.Used(row, latest[p.uuid].netTotalIn, latest[p.uuid].netTotalOut);
    if row.trafficLimit > 0 { Traffic.QuotaConserved(row.trafficLimit, used); }
  }
}
