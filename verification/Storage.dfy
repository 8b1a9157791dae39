/** The store: its tables as fields, each statement by its effect. A method is given by what it
    does when nothing comes in between. Writers hold the mutex, so that is all they do; a reader
    takes no lock but is one query, and MonthlyTrafficRecord is a query and then a locked update.
    What other goroutines may do in between is the subject of ServerMachine and MonthlyRace. */
module Storage {
  import opened GoNumbers
  import opened Records
  import opened Seqs
  import opened Aggregation
  import opened MinuteTable
  import opened Traffic
  import Tokens

  type Servers = Tokens.Servers

  /** A listing of the servers table: every row once, in some order, with no live part. In
      particular `lastSeen` is not a column and stays 0. */
  ghost predicate IsListing(out: seq<ServerAdmin>, servers: Servers) {
    && (forall i :: 0 <= i < |out| ==>
          out[i].uuid in servers && out[i] == ServerAdmin(out[i].uuid, servers[out[i].uuid], false, 0, None))
    && (forall i, j :: 0 <= i < j < |out| ==> out[i].uuid != out[j].uuid)
    && (forall u :: u in servers ==> exists i :: 0 <= i < |out| && out[i].uuid == u)
  }

  /** The load rules in order of their ids. */
  function RuleList(rules: map<int, LoadRule>): (out: seq<LoadRule>)
    ensures |out| == |rules|
    ensures forall i :: i in rules ==> rules[i] in out
  {
    var ids := Ascending(rules.Keys);
    var out := seq(|ids|, i requires 0 <= i < |ids| => assert ids[i] in ids; rules[ids[i]]);
    assert forall i :: i in rules ==> rules[i] in out by {
      forall i | i in rules ensures rules[i] in out {
        assert i in ids;
        var k :| 0 <= k < |ids| && ids[k] == i;
        assert out[k] == rules[i];
      }
    }
    out
  }

  lemma {:induction false} RulesInOrder(rules: map<int, LoadRule>)
    requires forall i :: i in rules ==> rules[i].id == i
    ensures var out := RuleList(rules); forall i, j :: 0 <= i < j < |out| ==> out[i].id < out[j].id
  {
    var ids, out := Ascending(rules.Keys), RuleList(rules);
    forall k | 0 <= k < |out| ensures out[k].id == ids[k] { assert ids[k] in ids; }
  }

  class Store {
    var servers: Servers
    var stats: Table
    var rules: map<int, LoadRule>
    var expiryDay: Option<int>

    constructor ()
      ensures servers == map[] && stats == map[] && rules == map[] && expiryDay == None
    {
      servers, stats, rules, expiryDay := map[], map[], map[], None;
    }

    // ---- Servers ----

    /** uuid and token are the random values drawn; name is already trimmed. */
    method CreateServer(uuid: string, name: string, token: string) returns (ok: bool)
      modifies this`servers
      ensures ok == Tokens.Succeeds(old(servers), Tokens.Create(uuid, name, token))
      ensures servers == Tokens.Apply(old(servers), Tokens.Create(uuid, name, token))
      ensures ok ==> servers == old(servers)[
                uuid := ServerRow(name, token, Sha256(token), 0, 0, "sum", true, 60, 0, 0, 0, None)]
    {
      if name == "" || uuid in servers { return false; }
      servers := servers[uuid := Tokens.NewRow(name, token)];
      return true;
    }

    method ResetToken(uuid: string, token: string) returns (ok: bool)
      modifies this`servers
      ensures ok == Tokens.Succeeds(old(servers), Tokens.Reset(uuid, token))
      ensures servers == Tokens.Apply(old(servers), Tokens.Reset(uuid, token))
      ensures ok ==> servers == old(servers)[
                uuid := old(servers)[uuid].(token := token, tokenHash := Sha256(token))]
    {
      if uuid !in servers { return false; }
      servers := servers[uuid := servers[uuid].(tokenHash := Sha256(token), token := token)];
      return true;
    }

    /** Deletes the row, the server's minutes and its load rules. */
    method DeleteServer(uuid: string)
      modifies this`servers, this`stats, this`rules
      ensures servers == Tokens.Apply(old(servers), Tokens.Delete(uuid))
      ensures forall k :: k in stats <==> k in old(stats) && k.0 != uuid
      ensures forall k :: k in stats ==> stats[k] == old(stats)[k]
      ensures forall i :: i in rules <==> i in old(rules) && old(rules)[i].serverUUID != uuid
      ensures forall i :: i in rules ==> rules[i] == old(rules)[i]
    {
      servers := servers - {uuid};
      assert servers == Tokens.Apply(old(servers), Tokens.Delete(uuid));
      stats := map k | k in stats && k.0 != uuid :: stats[k];
      rules := map i | i in rules && rules[i].serverUUID != uuid :: rules[i];
    }

    method ServerUUIDByToken(token: string) returns (r: Option<string>)
      ensures Tokens.IsLookup(servers, token, r)
    {
      if token == "" { return None; }
      if exists u :: u in servers && Tokens.ByToken(servers, token, u) {
        var u :| u in servers && Tokens.ByToken(servers, token, u);
        return Some(u);
      }
      if exists u :: u in servers && Tokens.ByDigest(servers, token, u) {
        var u :| u in servers && Tokens.ByDigest(servers, token, u);
        return Some(u);
      }
      return None;
    }

    method ListServers() returns (out: seq<ServerAdmin>)
      ensures IsListing(out, servers)
    {
      out := [];
      var todo := servers.Keys;
      while todo != {}
        invariant todo <= servers.Keys
        invariant forall i :: 0 <= i < |out| ==>
                    out[i].uuid in servers && out[i].uuid !in todo
                    && out[i] == ServerAdmin(out[i].uuid, servers[out[i].uuid], false, 0, None)
        invariant forall i, j :: 0 <= i < j < |out| ==> out[i].uuid != out[j].uuid
        invariant forall u :: u in servers && u !in todo ==> exists i :: 0 <= i < |out| && out[i].uuid == u
        decreases |todo|
      {
        var u :| u in todo;
        ghost var before := out;
        out := out + [ServerAdmin(u, servers[u], false, 0, None)];
        todo := todo - {u};
        forall v | v in servers && v !in todo ensures exists i :: 0 <= i < |out| && out[i].uuid == v {
          if v == u {
            assert out[|out| - 1].uuid == v;
          } else {
            var i :| 0 <= i < |before| && before[i].uuid == v;
            assert out[i].uuid == v;
          }
        }
      }
    }

    method MarkOfflineNotified(uuid: string, ts: int)
      modifies this`servers
      ensures servers == if uuid in old(servers)
                         then old(servers)[uuid := old(servers)[uuid].(lastOfflineNotify := ts)]
                         else old(servers)
    {
      if uuid in servers { servers := servers[uuid := servers[uuid].(lastOfflineNotify := ts)]; }
    }

    /** Undisturbed between its read and its write. Returns the base in force after the call, or
        zeros for a server that does not exist. */
    method MonthlyTrafficRecord(uuid: string, totalIn: uint64, totalOut: uint64, month: int)
      returns (baseIn: uint64, baseOut: uint64)
      modifies this`servers
      ensures uuid !in old(servers) ==> servers == old(servers) && baseIn == 0 && baseOut == 0
      ensures uuid in old(servers) ==>
                servers == old(servers)[uuid := Refresh(old(servers)[uuid], month, totalIn, totalOut)]
                && baseIn == servers[uuid].monthlyBaseIn && baseOut == servers[uuid].monthlyBaseOut
    {
      if uuid !in servers { return 0, 0; }
      var row := servers[uuid];
      if row.monthlyReset == Some(month) {
        assert servers[uuid := row] == servers;
        return row.monthlyBaseIn, row.monthlyBaseOut;
      }
      servers := servers[
        uuid := row.(monthlyBaseIn := totalIn, monthlyBaseOut := totalOut, monthlyReset := Some(month))];
      return totalIn, totalOut;
    }

    // ---- Minutes ----

    method SaveMinute(serverID: string, p: MinutePoint)
      modifies this`stats
      ensures stats == Save(old(stats), serverID, p)
    {
      stats := stats[(serverID, p.time) := p];
    }

    method History(serverID: string, since: int) returns (out: seq<MinutePoint>)
      requires WellKeyed(stats)
      ensures out == HistorySince(stats, serverID, since)
    {
      out := HistorySince(stats, serverID, since);
    }

    /** The all-servers query, ordered by time and by nothing else. */
    method QueryRecent(since: int) returns (rows: seq<Row>)
      requires WellKeyed(stats)
      ensures IsQueryResult(rows, stats, since)
    {
      rows := [];
      var todo := set k | k in stats && since <= k.1;
      while todo != {}
        invariant forall k :: k in todo ==> k in stats && since <= k.1
        invariant forall r :: r in rows <==> Selected(stats, r.0, since, r.1) && (r.0, r.1.time) !in todo
        invariant forall i, k :: 0 <= i < |rows| && k in todo ==> rows[i].1.time <= k.1
        invariant forall i, j :: 0 <= i < j < |rows| ==> rows[i].1.time <= rows[j].1.time
        invariant forall i, j :: 0 <= i < j < |rows| ==> rows[i] != rows[j]
        decreases |todo|
      {
        var k := Earliest(todo);
        var row := (k.0, stats[k]);
        assert (row.0, row.1.time) == k;
        assert row !in rows;
        assert forall r :: r in rows + [row] <==> r in rows || r == row;
        forall r: Row ensures r == row <==> Selected(stats, r.0, since, r.1) && (r.0, r.1.time) == k {}
        rows := rows + [row];
        todo := todo - {k};
      }
    }

    method AllRecentHistory(since: int) returns (out: History)
      requires WellKeyed(stats)
      ensures IsRecent(out, stats, since)
    {
      var rows := QueryRecent(since);
      out := GroupByServer(rows);
      forall u ensures OfServer(rows, u) == HistorySince(stats, u, since) {
        GroupedIsHistory(rows, stats, u, since);
      }
    }

    method PruneHistory(keepDays: int, now: int) returns (deleted: int)
      modifies this`stats
      ensures stats == Prune(old(stats), Cutoff(now, keepDays))
      ensures var keep := if keepDays <= 0 then 2_592_000 else 86_400 * keepDays;
              (forall k :: k in stats <==> k in old(stats) && k.1 >= now - keep)
              && forall k :: k in stats ==> stats[k] == old(stats)[k]
      ensures deleted == |old(stats)| - |stats|
    {
      CutoffInSeconds(now, keepDays);
      var before := |stats|;
      var keep := if keepDays <= 0 then 30 else keepDays;
      stats := Prune(stats, now - keep * SECONDS_PER_DAY);
      deleted := before - |stats|;
    }

    // ---- Load rules ----

    method ListLoadRules() returns (out: seq<LoadRule>)
      ensures out == RuleList(rules)
    {
      out := RuleList(rules);
    }

    method MarkLoadRuleNotified(id: int, ts: int)
      modifies this`rules
      ensures rules == if id in old(rules) then old(rules)[id := old(rules)[id].(lastNotify := ts)] else old(rules)
    {
      if id in rules { rules := rules[id := rules[id].(lastNotify := ts)]; }
    }
  }

  /** A key of least time; any of them when several tie. */
  method Earliest(keys: set<(string, int)>) returns (k: (string, int))
    requires keys != {}
    ensures k in keys && forall x :: x in keys ==> k.1 <= x.1
  {
    k :| k in keys;
    var todo := keys - {k};
    while todo != {}
      invariant k in keys && todo <= keys
      invariant forall x :: x in keys && x !in todo ==> k.1 <= x.1
      decreases |todo|
    {
      var x :| x in todo;
      if x.1 < k.1 { k := x; }
      todo := todo - {x};
    }
  }
}
