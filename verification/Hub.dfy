/** The hub's maps and ring objects, updated in place by each report. */
module RealtimeHub {
  import opened GoNumbers
  import opened Records
  import opened Aggregation
  import opened Storage
  import opened GoSlices
  import Broadcast

  /** One server's open minute. */
  class ReportRing {
    const bucketStart: int
    var sumCPU: real
    var sumMemPct: real
    var sumDiskPct: real
    var sumNetIn: real
    var sumNetOut: real
    var sumLoad: real
    var sumTCP: real
    var sumUptime: real
    var n: nat

    constructor (bucketStart: int)
      ensures View() == Ring(bucketStart, ZERO, 0)
    {
      this.bucketStart := bucketStart;
      sumCPU, sumMemPct, sumDiskPct, sumNetIn := 0.0, 0.0, 0.0, 0.0;
      sumNetOut, sumLoad, sumTCP, sumUptime, n := 0.0, 0.0, 0.0, 0.0, 0;
    }

    function View(): Ring
      reads this
    {
      Ring(bucketStart,
           Sums(sumCPU, sumMemPct, sumDiskPct, sumNetIn, sumNetOut, sumLoad, sumTCP, sumUptime), n)
    }

    /** The += lines of Ingest. */
    method Add(r: Report)
      modifies this
      ensures var g := old(View()); View() == Ring(g.bucketStart, Plus(g.sums, Sample(r)), g.n + 1)
    {
      var memPct, diskPct := Percent(r.memUsed, r.memTotal), Percent(r.diskUsed, r.diskTotal);
      sumCPU := sumCPU + r.cpuUsage;
      sumMemPct := sumMemPct + memPct;
      sumDiskPct := sumDiskPct + diskPct;
      sumNetIn := sumNetIn + r.netIn as real;
      sumNetOut := sumNetOut + r.netOut as real;
      sumLoad := sumLoad + r.load1;
      sumTCP := sumTCP + r.tcpConns as real;
      sumUptime := sumUptime + r.uptime as real;
      n := n + 1;
    }
  }

  method FlushPoint(uuid: string, rg: ReportRing, store: Store)
    requires rg.n > 0
    modifies store`stats
    ensures store.stats == SaveFlushes(old(store.stats), [Flush(uuid, rg.View())])
  {
    var n := rg.n as real;
    var p := MinutePoint(
      rg.bucketStart,
      rg.sumCPU / n, rg.sumMemPct / n, rg.sumDiskPct / n,
      rg.sumNetIn / n, rg.sumNetOut / n, rg.sumLoad / n,
      Trunc(rg.sumTCP / n), Trunc(rg.sumUptime / n));
    store.SaveMinute(uuid, p);
    OneFlush(old(store.stats), uuid, rg.View());
  }

  lemma OneFlush(t: Table, u: string, g: Ring)
    requires g.n > 0
    ensures SaveFlushes(t, [Flush(u, g)]) == Save(t, u, Average(g.bucketStart, g.sums, g.n))
    ensures SaveFlushes(t, []) == t
  {
    hide Average;
    var f := Flush(u, g);
    assert [f][..0] == [];
  }

  class Hub {
    var latest: map<string, Report>
    var lastSeen: map<string, int>
    var recent: map<string, Slice<Report>>
    var rings: map<string, ReportRing>
    var bcCh: seq<Entry>

    constructor ()
      ensures Valid() && fresh(rings.Values) && fresh(Backings())
      ensures View() == EMPTY_HUB && bcCh == []
    {
      latest, lastSeen, recent, rings, bcCh := map[], map[], map[], map[], [];
    }

    /** No two servers share a ring object or the array behind their recent reports. */
    ghost predicate Valid()
      reads this
    {
      (forall u, v :: u in rings && v in rings && u != v ==> rings[u] != rings[v]) && OwnBackings()
    }

    ghost predicate OwnBackings()
      reads this`recent
    {
      (forall u :: u in recent ==> recent[u].Fits())
      && forall u, v :: u in recent && v in recent && u != v ==> recent[u].elems != recent[v].elems
    }

    /** The arrays behind the recent reports. */
    ghost function Backings(): set<array<Report>>
      reads this`recent
    {
      set u | u in recent :: recent[u].elems
    }

    ghost function Rings(): map<string, Ring>
      reads this`rings, rings.Values
    {
      map u | u in rings :: rings[u].View()
    }

    ghost function Recents(): map<string, seq<Report>>
      requires OwnBackings()
      reads this`recent, Backings()
    {
      map u | u in recent :: recent[u].View()
    }

    ghost function RecentHere(uuid: string): seq<Report>
      requires OwnBackings()
      reads this`recent, Backings()
    {
      if uuid in Recents() then Recents()[uuid] else []
    }

    ghost function View(): HubView
      requires Valid()
      reads this, rings.Values, Backings()
    {
      HubView(latest, lastSeen, Recents(), Rings())
    }

    /** The ring for a report's bucket: the server's own, or a new one after its old one, if
        any, has been flushed. */
    method RingFor(e: Entry, store: Store) returns (rg: ReportRing)
      requires Valid()
      modifies this`rings, store`stats
      ensures Valid() && rings == old(rings)[e.uuid := rg]
      ensures rg.View() == if Rolls(old(View()), e) then Ring(Bucket(e.now), ZERO, 0) else old(View()).rings[e.uuid]
      ensures fresh(rg) || (e.uuid in old(rings) && rg == old(rings)[e.uuid])
      ensures store.stats == SaveFlushes(old(store.stats), Flushed(old(View()), e))
    {
      hide Average, Bucket;
      OneFlush(store.stats, e.uuid, Ring(0, ZERO, 1));
      var bucket := Bucket(e.now);
      if e.uuid !in rings || rings[e.uuid].bucketStart != bucket {
        if e.uuid in rings && rings[e.uuid].n > 0 {
          FlushPoint(e.uuid, rings[e.uuid], store);
        }
        rg := new ReportRing(bucket);
        rings := rings[e.uuid := rg];
      } else {
        rg := rings[e.uuid];
      }
    }

    twostate lemma OtherRingsKept(uuid: string)
      requires uuid in rings && rings.Keys == old(rings.Keys) + {uuid}
      requires forall u :: u in old(rings) && u != uuid ==> rings[u] == old(rings)[u] && unchanged(rings[u])
      ensures Rings() == old(Rings())[uuid := rings[uuid].View()]
    {}

    /** The minute part of Ingest. */
    method AddToRing(e: Entry, store: Store)
      requires Valid()
      modifies this`rings, rings.Values, store`stats
      ensures Valid()
      ensures forall u :: u in rings ==> fresh(rings[u]) || rings[u] in old(rings.Values)
      ensures Rings() == old(Rings())[e.uuid := NextRing(old(View()), e)]
      ensures store.stats == SaveFlushes(old(store.stats), Flushed(old(View()), e))
    {
      hide Average, Bucket, Sample, Plus, SaveFlushes, Flushed, ReportRing.View;
      hide Hub.Recents, Hub.OwnBackings, Hub.Backings, Hub.Rings;
      var rg := RingFor(e, store);
      rg.Add(e.report);
      OtherRingsKept(e.uuid);
    }

    /** The server's recent reports with one more: the report is appended, and the window moved
        along the array once it shows too many. */
    method WithReport(uuid: string, r: Report) returns (buf: Slice<Report>)
      requires OwnBackings()
      modifies if uuid in recent then {recent[uuid].elems} else {}
      ensures buf.Fits() && (fresh(buf.elems) || (uuid in recent && buf.elems == recent[uuid].elems))
      ensures buf.View() == LastN(old(RecentHere(uuid)) + [r], RECENT_KEEP)
    {
      assert RecentHere(uuid) == if uuid in recent then recent[uuid].View() else [];
      hide Hub.RecentHere, Hub.Recents, Hub.OwnBackings;
      if uuid in recent {
        buf := recent[uuid].Append(r);
      } else {
        var nothing := new Report[0];
        buf := Slice(nothing, 0, 0).Append(r);
      }
      if buf.len > RECENT_KEEP {
        buf := buf.Tail(RECENT_KEEP);
      }
    }

    twostate lemma SameRecents()
      requires old(OwnBackings()) && recent == old(recent) && forall u :: u in recent ==> unchanged(recent[u].elems)
      ensures OwnBackings() && Recents() == old(Recents())
    {}

    twostate lemma OthersKept(uuid: string)
      requires old(OwnBackings()) && OwnBackings() && uuid in recent && recent.Keys == old(recent.Keys) + {uuid}
      requires forall u :: u in old(recent) && u != uuid ==> recent[u] == old(recent)[u] && unchanged(recent[u].elems)
      ensures Recents() == old(Recents())[uuid := recent[uuid].View()]
    {}

    method Put(uuid: string, buf: Slice<Report>)
      requires OwnBackings() && buf.Fits() && forall u :: u in recent && u != uuid ==> buf.elems != recent[u].elems
      modifies this`recent
      ensures OwnBackings() && recent == old(recent)[uuid := buf]
    {
      recent := recent[uuid := buf];
    }

    /** The recent part of Ingest. */
    method Remember(uuid: string, r: Report)
      requires OwnBackings()
      modifies this`recent, Backings()
      ensures OwnBackings()
      ensures forall b :: b in Backings() ==> fresh(b) || b in old(Backings())
      ensures Recents() == old(Recents())[uuid := LastN(old(RecentHere(uuid)) + [r], RECENT_KEEP)]
    {
      hide LastN;
      var buf := WithReport(uuid, r);
      hide Slice.View, Hub.RecentHere;
      forall u | u in recent && u != uuid ensures recent[u].elems != buf.elems {
        assert recent[u].elems in old(Backings());
      }
      Put(uuid, buf);
      OthersKept(uuid);
    }

    /** The locked section of Ingest: the live maps, the recent buffer and the minute ring with
        its flush. */
    method Record(e: Entry, store: Store)
      requires Valid()
      modifies this`latest, this`lastSeen, this`recent, this`rings, rings.Values, Backings(), store`stats
      ensures Valid()
      ensures forall u :: u in rings ==> fresh(rings[u]) || rings[u] in old(rings.Values)
      ensures forall b :: b in Backings() ==> fresh(b) || b in old(Backings())
      ensures View() == HubStep(old(View()), e)
      ensures store.stats == SaveFlushes(old(store.stats), Flushed(old(View()), e))
    {
      hide NextRing, SaveFlushes, Hub.Rings, Hub.Recents, Hub.OwnBackings, Hub.Backings, Flushed, LastN;
      AddToRing(e, store);
      SameRecents();
      Remember(e.uuid, e.report);
      label remembered:
      latest := latest[e.uuid := e.report];
      lastSeen := lastSeen[e.uuid := e.now];
      SameRecents@remembered();
    }

    /** One report: the locked section, then the non-blocking send to the broadcast channel. */
    method Ingest(uuid: string, r: Report, now: int, store: Store)
      requires Valid()
      modifies this, rings.Values, Backings(), store`stats
      ensures Valid()
      ensures forall u :: u in rings ==> fresh(rings[u]) || rings[u] in old(rings.Values)
      ensures forall b :: b in Backings() ==> fresh(b) || b in old(Backings())
      ensures View() == HubStep(old(View()), Entry(uuid, r, now))
      ensures store.stats == SaveFlushes(old(store.stats), Flushed(old(View()), Entry(uuid, r, now)))
      ensures bcCh == if |old(bcCh)| < 128 then old(bcCh) + [Entry(uuid, r, now)] else old(bcCh)
    {
      hide HubStep, SaveFlushes, Hub.Rings, Hub.Recents, Hub.OwnBackings, Hub.Backings, Flushed;
      var e := Entry(uuid, r, now);
      Record(e, store);
      label recorded:
      if |bcCh| < Broadcast.BROADCAST_CAP {
        bcCh := bcCh + [e];
      }
      SameRecents@recorded();
    }

    /** A copy of the server's recent reports, in an array that nobody else has. */
    method Recent(uuid: string) returns (out: array<Report>)
      requires Valid()
      ensures fresh(out) && out[..] == RecentOf(View(), uuid)
    {
      ghost var was := RecentOf(View(), uuid);
      if uuid in recent {
        var buf := recent[uuid].View();
        out := new Report[|buf|](i requires 0 <= i < |buf| => buf[i]);
        assert out[..] == was;
      } else {
        out := new Report[0];
      }
    }

    /** Whatever reports come in later, the copy stays as it was. */
    method CopyIsKept(uuid: string, later: seq<Entry>, store: Store) returns (out: array<Report>)
      requires Valid()
      modifies this, rings.Values, Backings(), store`stats
      ensures Valid() && fresh(out) && out !in Backings()
      ensures out[..] == old(RecentOf(View(), uuid))
    {
      hide HubStep, SaveFlushes, Flushed, Hub.Rings, Hub.Recents, Hub.OwnBackings, ReportRing.View;
      out := Recent(uuid);
      ghost var rings0, arrays0 := rings.Values, Backings();
      for k := 0 to |later|
        invariant Valid() && out !in Backings() && out[..] == old(RecentOf(View(), uuid))
        invariant forall g :: g in rings.Values ==> fresh(g) || g in rings0
        invariant forall b :: b in Backings() ==> fresh(b) || b in arrays0
      {
        Ingest(later[k].uuid, later[k].report, later[k].now, store);
      }
    }

    method Latest(uuid: string) returns (r: Option<Report>)
      ensures r == LatestOf(latest, uuid)
    {
      r := if uuid in latest then Some(latest[uuid]) else None;
    }

    /** Completes a listing with the live part: only here does a server get its last-seen time
        and a copy of its latest report. */
    method AugmentFull(admins: seq<ServerAdmin>, now: int) returns (out: seq<ServerAdmin>)
      ensures |out| == |admins|
      ensures forall i :: 0 <= i < |admins| ==> out[i] == Augmented(admins[i], latest, lastSeen, now)
    {
      out := [];
      for i := 0 to |admins|
        invariant |out| == i
        invariant forall j :: 0 <= j < i ==> out[j] == Augmented(admins[j], latest, lastSeen, now)
      {
        var st := admins[i];
        var seen := if st.uuid in lastSeen then lastSeen[st.uuid] else 0;
        st := st.(online := now - seen < 60, lastSeen := seen);
        if st.uuid in latest {
          st := st.(report := Some(latest[st.uuid]));
        }
        out := out + [st];
      }
    }
  }

  function LatestOf(latest: map<string, Report>, uuid: string): Option<Report> {
    if uuid in latest then Some(latest[uuid]) else None
  }

  function SeenAt(lastSeen: map<string, int>, uuid: string): int {
    if uuid in lastSeen then lastSeen[uuid] else 0
  }

  function Augmented(st: ServerAdmin, latest: map<string, Report>, lastSeen: map<string, int>, now: int): ServerAdmin {
    var seen := SeenAt(lastSeen, st.uuid);
    st.(online := now - seen < 60, lastSeen := seen,
        report := if st.uuid in latest then Some(latest[st.uuid]) else st.report)
  }
}
