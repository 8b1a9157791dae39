/** The minute aggregator as a pure state machine over the log of accepted
    reports, and the batch it has to agree with: group the whole log by server
    and minute, then average. */
module Aggregation {
  import opened GoNumbers
  import opened Records
  import opened Seqs

  const RECENT_KEEP: nat := 120

  // ---- Values ----

  /** The eight running sums of a ring. */
  datatype Sums = Sums(
    cpu: real, mem: real, disk: real, netIn: real, netOut: real,
    load: real, tcp: real, uptime: real)

  const ZERO := Sums(0.0, 0.0, 0.0, 0.0, 0.0, 0.0, 0.0, 0.0)

  function Plus(a: Sums, b: Sums): Sums {
    Sums(a.cpu + b.cpu, a.mem + b.mem, a.disk + b.disk, a.netIn + b.netIn, a.netOut + b.netOut,
         a.load + b.load, a.tcp + b.tcp, a.uptime + b.uptime)
  }

  function Percent(used: uint64, total: uint64): real {
    if total == 0 then 0.0 else used as real / total as real * 100.0
  }

  /** What one report adds to the sums. */
  function Sample(r: Report): Sums {
    Sums(r.cpuUsage, Percent(r.memUsed, r.memTotal), Percent(r.diskUsed, r.diskTotal),
         r.netIn as real, r.netOut as real, r.load1, r.tcpConns as real, r.uptime as real)
  }

  datatype Ring = Ring(bucketStart: int, sums: Sums, n: nat)

  function Average(b: int, s: Sums, n: nat): MinutePoint
    requires n > 0
  {
    var d := n as real;
    MinutePoint(b, s.cpu / d, s.mem / d, s.disk / d, s.netIn / d, s.netOut / d, s.load / d,
                Trunc(s.tcp / d), Trunc(s.uptime / d))
  }

  function Bucket(now: int): int { now - Rem(now, 60) }

  /** The time lies in the minute that begins at b; before 1970, that ends at b. */
  predicate FallsIn(now: int, b: int) { b % 60 == 0 && if now >= 0 then b <= now < b + 60 else b - 60 < now <= b }

  lemma {:induction false} BucketIff(now: int, b: int)
    ensures Bucket(now) == b <==> FallsIn(now, b)
  {
    if now >= 0 {
      assert now == 60 * (now / 60) + now % 60;
    } else {
      assert -now == 60 * (-now / 60) + -now % 60;
    }
  }

  lemma BucketMonotone(a: int, b: int)
    requires a <= b
    ensures Bucket(a) <= Bucket(b)
  {
    if a >= 0 {
      FloorMonotone(a, b);
    } else if b < 0 {
      FloorMonotone(-b, -a);
    }
  }

  lemma FloorMonotone(a: nat, b: nat)
    requires a <= b
    ensures a - a % 60 <= b - b % 60
  {
    var q, q' := a / 60, b / 60;
    assert a - a % 60 == 60 * q && b - b % 60 == 60 * q';
  }

  // ---- One report ----

  /** A report accepted from server `uuid` at server time `now`. */
  datatype Entry = Entry(uuid: string, report: Report, now: int)

  /** The maps of the hub, each ring read out of its object. */
  datatype HubView = HubView(
    latest: map<string, Report>,
    lastSeen: map<string, int>,
    recent: map<string, seq<Report>>,
    rings: map<string, Ring>)

  const EMPTY_HUB := HubView(map[], map[], map[], map[])

  function LastN(s: seq<Report>, n: nat): seq<Report> {
    if |s| > n then s[|s| - n..] else s
  }

  function RecentOf(h: HubView, u: string): seq<Report> {
    if u in h.recent then h.recent[u] else []
  }

  /** The report opens a new bucket: no ring yet, or the ring is of another minute. */
  predicate Rolls(h: HubView, e: Entry) {
    e.uuid !in h.rings || h.rings[e.uuid].bucketStart != Bucket(e.now)
  }

  function NextRing(h: HubView, e: Entry): Ring {
    var g := if Rolls(h, e) then Ring(Bucket(e.now), ZERO, 0) else h.rings[e.uuid];
    Ring(g.bucketStart, Plus(g.sums, Sample(e.report)), g.n + 1)
  }

  function HubStep(h: HubView, e: Entry): HubView {
    HubView(h.latest[e.uuid := e.report],
            h.lastSeen[e.uuid := e.now],
            h.recent[e.uuid := LastN(RecentOf(h, e.uuid) + [e.report], RECENT_KEEP)],
            h.rings[e.uuid := NextRing(h, e)])
  }

  /** A call of the flush callback, with the ring it averages. */
  datatype Flush = Flush(uuid: string, ring: Ring)

  function Flushed(h: HubView, e: Entry): seq<Flush> {
    if Rolls(h, e) && e.uuid in h.rings && h.rings[e.uuid].n > 0
    then [Flush(e.uuid, h.rings[e.uuid])]
    else []
  }

  // ---- The stored table: one row per (server, time), INSERT OR REPLACE ----

  type Table = map<(string, int), MinutePoint>

  function Save(t: Table, u: string, p: MinutePoint): Table { t[(u, p.time) := p] }

  function SaveFlushes(t: Table, fs: seq<Flush>): Table {
    if fs == [] then t
    else
      var t' := SaveFlushes(t, fs[..|fs| - 1]);
      var f := fs[|fs| - 1];
      if f.ring.n == 0 then t' else Save(t', f.uuid, Average(f.ring.bucketStart, f.ring.sums, f.ring.n))
  }

  // ---- Runs ----

  function Run(log: seq<Entry>): HubView {
    if log == [] then EMPTY_HUB else HubStep(Run(Butlast(log)), Last(log))
  }

  /** All flush calls of the run, in order. */
  function Flushes(log: seq<Entry>): seq<Flush> {
    if log == [] then [] else Flushes(Butlast(log)) + Flushed(Run(Butlast(log)), Last(log))
  }

  /** The table after the run, starting from what an earlier process stored. */
  function Stored(t0: Table, log: seq<Entry>): Table { SaveFlushes(t0, Flushes(log)) }

  // ---- The batch ----

  /** The reports of server u, and those of them that fall in minute b. */
  function ReportsOf(log: seq<Entry>, u: string): seq<Report> {
    if log == [] then []
    else ReportsOf(Butlast(log), u) + if Last(log).uuid == u then [Last(log).report] else []
  }

  function InMinute(log: seq<Entry>, u: string, b: int): seq<Report> {
    if log == [] then []
    else InMinute(Butlast(log), u, b)
         + if Last(log).uuid == u && Bucket(Last(log).now) == b then [Last(log).report] else []
  }

  function Total(rs: seq<Report>): Sums {
    if rs == [] then ZERO else Plus(Total(Butlast(rs)), Sample(Last(rs)))
  }

  /** The bucket of server u's last report. */
  function OpenBucket(log: seq<Entry>, u: string): Option<int> {
    if log == [] then None
    else if Last(log).uuid == u then Some(Bucket(Last(log).now))
    else OpenBucket(Butlast(log), u)
  }

  /** The reports of server u since its clock last entered the minute it is in. */
  function OpenVisit(log: seq<Entry>, u: string): seq<Report> {
    if log == [] then []
    else if Last(log).uuid != u then OpenVisit(Butlast(log), u)
    else if OpenBucket(Butlast(log), u) == Some(Bucket(Last(log).now))
    then OpenVisit(Butlast(log), u) + [Last(log).report]
    else [Last(log).report]
  }

  /** The visit to minute b that one more report e ends, if it ends one. */
  function Closing(log: seq<Entry>, e: Entry, u: string, b: int): seq<Report> {
    if e.uuid == u && OpenBucket(log, u) == Some(b) && Bucket(e.now) != b then OpenVisit(log, u) else []
  }

  /** The last visit to minute b of server u that has ended. */
  function ClosedVisit(log: seq<Entry>, u: string, b: int): seq<Report> {
    if log == [] then []
    else
      var v := Closing(Butlast(log), Last(log), u, b);
      if v != [] then v else ClosedVisit(Butlast(log), u, b)
  }

  /** How often server u's clock enters minute b. */
  function Visits(log: seq<Entry>, u: string, b: int): nat {
    if log == [] then 0
    else Visits(Butlast(log), u, b)
         + if Last(log).uuid == u && Bucket(Last(log).now) == b && OpenBucket(Butlast(log), u) != Some(b)
           then 1 else 0
  }

  /** The clock of server u's reports never runs backwards. */
  ghost predicate Monotone(log: seq<Entry>, u: string) {
    forall i, j :: 0 <= i < j < |log| && log[i].uuid == u && log[j].uuid == u ==> log[i].now <= log[j].now
  }

  /** Minute b of server u has reports and lies before its open bucket. */
  predicate Closed(log: seq<Entry>, u: string, b: int) {
    InMinute(log, u, b) != [] && OpenBucket(log, u).Some? && b < OpenBucket(log, u).value
  }

  /** The row that averages these reports. */
  function MeanRow(b: int, rs: seq<Report>): MinutePoint
    requires rs != []
  {
    Average(b, Total(rs), |rs|)
  }

  function Batch(log: seq<Entry>, u: string, b: int): MinutePoint
    requires InMinute(log, u, b) != []
  {
    MeanRow(b, InMinute(log, u, b))
  }

  // ---- What the flush calls at one key add up to ----

  function CallsAt(fs: seq<Flush>, u: string, b: int): nat {
    if fs == [] then 0
    else CallsAt(Butlast(fs), u, b) + if At(Last(fs), u, b) then 1 else 0
  }

  function CountAt(fs: seq<Flush>, u: string, b: int): nat {
    if fs == [] then 0
    else CountAt(Butlast(fs), u, b) + if At(Last(fs), u, b) then Last(fs).ring.n else 0
  }

  function SumsAt(fs: seq<Flush>, u: string, b: int): Sums {
    if fs == [] then ZERO
    else if At(Last(fs), u, b) then Plus(SumsAt(Butlast(fs), u, b), Last(fs).ring.sums)
    else SumsAt(Butlast(fs), u, b)
  }

  predicate At(f: Flush, u: string, b: int) { f.uuid == u && f.ring.bucketStart == b }

  function OpenRing(h: HubView, u: string, b: int): Ring {
    if u in h.rings && h.rings[u].bucketStart == b then h.rings[u] else Ring(b, ZERO, 0)
  }
}
