/** The agent's counter differencing: totals over the selected interfaces, and rates from
    the previous sample. Time is in seconds; a rate is floor(delta / dt). */
module AgentRates {
  import opened GoNumbers
  import opened Records
  import opened Seqs
  import opened Arithmetic

  datatype Nic = Nic(name: string, bytesRecv: uint64, bytesSent: uint64)

  const VIRTUAL_PREFIXES := ["lo", "docker", "veth", "br-", "vmnet", "utun", "tun", "tap", "virbr", "vbr", "wg"]

  predicate IsVirtual(name: string) { exists p :: p in VIRTUAL_PREFIXES && p <= name }

  predicate Selected(n: Nic, incl: set<string>, excl: set<string>) {
    (incl == {} || n.name in incl) && n.name !in excl && !IsVirtual(n.name)
  }

  function TotalIn(nics: seq<Nic>, incl: set<string>, excl: set<string>): nat {
    if nics == [] then 0
    else TotalIn(Butlast(nics), incl, excl) + if Selected(Last(nics), incl, excl) then Last(nics).bytesRecv else 0
  }

  function TotalOut(nics: seq<Nic>, incl: set<string>, excl: set<string>): nat {
    if nics == [] then 0
    else TotalOut(Butlast(nics), incl, excl) + if Selected(Last(nics), incl, excl) then Last(nics).bytesSent else 0
  }

  /** No rate for a counter that fell or a clock that did not advance. */
  function Rate(last: uint64, total: uint64, dt: real): nat {
    if dt > 0.0 && total >= last then ((total - last) as real / dt).Floor else 0
  }

  class Agent {
    var lastIn: uint64
    var lastOut: uint64
    var lastTime: Option<real>

    constructor ()
      ensures lastTime == None
    {
      lastIn, lastOut, lastTime := 0, 0, None;
    }

    /** The network part of collect. Totals are sums modulo 2^64. */
    method CollectNet(nics: seq<Nic>, incl: set<string>, excl: set<string>, now: real)
      returns (netIn: nat, netOut: nat, totalIn: uint64, totalOut: uint64)
      modifies this
      ensures totalIn == TotalIn(nics, incl, excl) % TWO_64 && totalOut == TotalOut(nics, incl, excl) % TWO_64
      ensures old(lastTime) == None ==> netIn == 0 && netOut == 0
      ensures old(lastTime).Some? ==>
                netIn == Rate(old(lastIn), totalIn, now - old(lastTime).value)
                && netOut == Rate(old(lastOut), totalOut, now - old(lastTime).value)
      ensures lastIn == totalIn && lastOut == totalOut && lastTime == Some(now)
    {
      totalIn, totalOut := SumCounters(nics, incl, excl);
      netIn, netOut := 0, 0;
      if lastTime.Some? {
        var dt := now - lastTime.value;
        netIn, netOut := Rate(lastIn, totalIn, dt), Rate(lastOut, totalOut, dt);
      }
      lastIn, lastOut, lastTime := totalIn, totalOut, Some(now);
    }
  }

  /** A rate is what a counter gained per second, rounded down; there is none for a counter that
      fell or a clock that did not advance. */
  lemma {:induction false} RateIff(last: uint64, total: uint64, dt: real, r: nat)
    ensures dt <= 0.0 || total < last ==> Rate(last, total, dt) == 0
    ensures dt > 0.0 && total >= last ==>
              (Rate(last, total, dt) == r <==> r as real * dt <= (total - last) as real < (r + 1) as real * dt)
  {
    if dt > 0.0 && total >= last {
      var x, k := (total - last) as real, Rate(last, total, dt);
      DivTimes(x, dt);
      FitsIff(x, x / dt, dt, r as real, (r + 1) as real);
      assert k == r <==> r as real <= x / dt < (r + 1) as real;
    }
  }

  lemma FitsIff(x: real, q: real, dt: real, low: real, high: real)
    requires dt > 0.0 && q * dt == x
    ensures low <= q < high <==> low * dt <= x < high * dt
  {
    if low <= q { TimesMonotone(low, q, dt); } else { TimesStrict(q, low, dt); }
    if q < high { TimesStrict(q, high, dt); } else { TimesMonotone(high, q, dt); }
  }

  // ---- What the totals are sums of ----

  lemma {:induction false} TotalsConcat(a: seq<Nic>, b: seq<Nic>, incl: set<string>, excl: set<string>)
    ensures TotalIn(a + b, incl, excl) == TotalIn(a, incl, excl) + TotalIn(b, incl, excl)
    ensures TotalOut(a + b, incl, excl) == TotalOut(a, incl, excl) + TotalOut(b, incl, excl)
  {
    hide Selected;
    if b == [] {
      assert a + b == a;
    } else {
      TotalsConcat(a, Butlast(b), incl, excl);
      assert Butlast(a + b) == a + Butlast(b) && Last(a + b) == Last(b);
    }
  }

  /** One interface counts unless an include list leaves it out, an exclude list names it, or its
      name begins like a virtual one's; what it has received counts as in, what it has sent as out. */
  lemma {:induction false} OneTotal(n: Nic, incl: set<string>, excl: set<string>)
    ensures var counts := (incl == {} || n.name in incl) && n.name !in excl
                          && !("lo" <= n.name) && !("docker" <= n.name) && !("veth" <= n.name) && !("br-" <= n.name)
                          && !("vmnet" <= n.name) && !("utun" <= n.name) && !("tun" <= n.name) && !("tap" <= n.name)
                          && !("virbr" <= n.name) && !("vbr" <= n.name) && !("wg" <= n.name);
            TotalIn([n], incl, excl) == (if counts then n.bytesRecv else 0)
            && TotalOut([n], incl, excl) == (if counts then n.bytesSent else 0)
  {
    assert Butlast([n]) == [];
    VirtualIff(n.name);
    hide IsVirtual;
  }

  lemma VirtualIff(name: string)
    ensures IsVirtual(name)
            <==> "lo" <= name || "docker" <= name || "veth" <= name || "br-" <= name || "vmnet" <= name
                 || "utun" <= name || "tun" <= name || "tap" <= name || "virbr" <= name || "vbr" <= name || "wg" <= name
  {
    var all := VIRTUAL_PREFIXES;
    assert |all| == 11 && all[0] == "lo" && all[1] == "docker" && all[2] == "veth" && all[3] == "br-";
    assert all[4] == "vmnet" && all[5] == "utun" && all[6] == "tun" && all[7] == "tap";
    assert all[8] == "virbr" && all[9] == "vbr" && all[10] == "wg";
    assert IsVirtual(name) <==> exists i :: 0 <= i < 11 && all[i] <= name by {
      if p :| p in all && p <= name { var i :| 0 <= i < |all| && all[i] == p; }
      if i :| 0 <= i < 11 && all[i] <= name { assert all[i] in all; }
    }
  }

  lemma AddModulo(x: nat, y: uint64)
    ensures AddU64(x % TWO_64, y) == (x + y) % TWO_64
  {
    var q := x / TWO_64;
    assert x + y == (x % TWO_64 + y) + q * TWO_64;
  }

  method SumCounters(nics: seq<Nic>, incl: set<string>, excl: set<string>) returns (totalIn: uint64, totalOut: uint64)
    ensures totalIn == TotalIn(nics, incl, excl) % TWO_64
    ensures totalOut == TotalOut(nics, incl, excl) % TWO_64
  {
    totalIn, totalOut := 0, 0;
    hide AddU64, IsVirtual;
    for i := 0 to |nics|
      invariant totalIn == TotalIn(nics[..i], incl, excl) % TWO_64
      invariant totalOut == TotalOut(nics[..i], incl, excl) % TWO_64
    {
      var c := nics[i];
      assert Butlast(nics[..i + 1]) == nics[..i];
      if incl != {} && c.name !in incl { continue; }
      if c.name in excl || IsVirtual(c.name) { continue; }
      AddModulo(TotalIn(nics[..i], incl, excl), c.bytesRecv);
      AddModulo(TotalOut(nics[..i], incl, excl), c.bytesSent);
      totalIn := AddU64(totalIn, c.bytesRecv);
      totalOut := AddU64(totalOut, c.bytesSent);
    }
    assert nics[..|nics|] == nics;
  }

  // ---- Rates over a run ----

  /** One counter as sampled: the time and the total then. */
  datatype Sample = Sample(at: real, total: uint64)

  /** The reported rates, each over the interval it was measured on. */
  function Integrated(ss: seq<Sample>): real {
    if |ss| < 2 then 0.0
    else
      var a, b := ss[|ss| - 2], Last(ss);
      Integrated(Butlast(ss)) + Counted(a, b)
  }

  function Counted(a: Sample, b: Sample): real { Rate(a.total, b.total, b.at - a.at) as real * (b.at - a.at) }

  /** What the counter gained; a fall, as after a restart, counts nothing. */
  function Gained(ss: seq<Sample>): nat {
    if |ss| < 2 then 0
    else Gained(Butlast(ss)) + GainOf(ss[|ss| - 2], Last(ss))
  }

  function GainOf(a: Sample, b: Sample): nat { if b.total >= a.total then b.total - a.total else 0 }

  lemma CountedWithinGain(a: Sample, b: Sample)
    requires a.at < b.at
    ensures Counted(a, b) <= GainOf(a, b) as real && GainOf(a, b) as real < Counted(a, b) + (b.at - a.at)
  {
    var dt := b.at - a.at;
    if b.total >= a.total {
      var x := (b.total - a.total) as real;
      DivTimes(x, dt);
      TimesMonotone((x / dt).Floor as real, x / dt, dt);
      AboveFloor(x, x / dt, (x / dt).Floor as real, dt);
    }
  }

  lemma AboveFloor(x: real, q: real, r: real, dt: real)
    requires dt > 0.0 && q * dt == x && q < r + 1.0
    ensures x < r * dt + dt
  {
    TimesStrict(q, r + 1.0, dt);
    PlusOneTimes(r, dt);
  }

  /** Integrating the reported rates gives back what the counters gained, short by less than
      one byte per second of the run, whatever resets happen in between. */
  lemma {:induction false} RatesIntegrateToGains(ss: seq<Sample>)
    requires |ss| >= 2 && forall i, j :: 0 <= i < j < |ss| ==> ss[i].at < ss[j].at
    ensures Integrated(ss) <= Gained(ss) as real < Integrated(ss) + (Last(ss).at - ss[0].at)
  {
    var a, b := ss[|ss| - 2], Last(ss);
    hide Counted, GainOf;
    CountedWithinGain(a, b);
    if |ss| > 2 {
      RatesIntegrateToGains(Butlast(ss));
      assert Last(Butlast(ss)) == a && Butlast(ss)[0] == ss[0];
    } else {
      assert Integrated(Butlast(ss)) == 0.0 && Gained(Butlast(ss)) == 0;
    }
    assert Gained(ss) as real == Gained(Butlast(ss)) as real + GainOf(a, b) as real;
  }
}
