/** What each connection receives and when it leaves the hub, over all interleavings. */
module BroadcastDelivery {
  import opened Seqs
  import opened Broadcast
  import opened BroadcastHistory

  // ---- The loop is never stuck ----

  predicate IsLoopAction(a: Action) {
    a.RecvAdd? || a.RecvDel? || a.RecvBroadcast? || a.Offer? || a.FanoutDone?
  }

  /** In every reachable state the loop can do what it wants next: serve any pending channel
      when idle, any remaining client during a fan-out, and end the fan-out after the last. */
  lemma {:induction false} LoopNeverBlocks(acts: seq<Action>)
    requires IsRun(acts)
    ensures var s := Run(acts);
            if s.loop.Idle?
            then (s.addCh != [] ==> Enabled(s, RecvAdd(s.addCh[0])))
                 && (s.delCh != [] ==> Enabled(s, RecvDel(s.delCh[0])))
                 && (s.bcCh != [] ==> Enabled(s, RecvBroadcast(s.bcCh[0])))
            else (forall c :: c in s.loop.todo ==> Enabled(s, Offer(c)))
                 && (s.loop.todo == {} ==> Enabled(s, FanoutDone))
  {
    RunsAreSafe(acts);
    var s := Run(acts);
    if s.loop.Fanout? {
      forall c | c in s.loop.todo ensures Enabled(s, Offer(c)) { assert ConnInv(s, c); }
    }
  }

  /** ... and no other goroutine can take that away or touch the loop's own state. */
  lemma LoopActionsPersist(s: State, a: Action, b: Action)
    requires Inv(s) && Enabled(s, a) && Enabled(s, b)
    requires IsLoopAction(a) && !IsLoopAction(b)
    ensures Enabled(Step(s, b), a)
    ensures Step(s, b).loop == s.loop && Step(s, b).clients == s.clients
  {}

  // ---- Subsequences ----

  ghost predicate IsSubseq<T>(a: seq<T>, b: seq<T>) {
    if a == [] then true
    else if b == [] then false
    else (Last(a) == Last(b) && IsSubseq(Butlast(a), Butlast(b))) || IsSubseq(a, Butlast(b))
  }

  lemma SubseqExtend<T>(a: seq<T>, b: seq<T>, x: T)
    requires IsSubseq(a, b)
    ensures IsSubseq(a, b + [x]) && IsSubseq(a + [x], b + [x])
  {
    assert Butlast(b + [x]) == b && Butlast(a + [x]) == a;
  }

  lemma {:induction false} SubseqTransitive<T>(a: seq<T>, b: seq<T>, c: seq<T>)
    requires IsSubseq(a, b) && IsSubseq(b, c)
    ensures IsSubseq(a, c)
    decreases |b| + |c|
  {
    if a == [] {
    } else {
      if Last(b) == Last(c) && IsSubseq(Butlast(b), Butlast(c)) {
        if Last(a) == Last(b) && IsSubseq(Butlast(a), Butlast(b)) {
          SubseqTransitive(Butlast(a), Butlast(b), Butlast(c));
        } else {
          SubseqTransitive(a, Butlast(b), Butlast(c));
        }
      } else {
        SubseqTransitive(a, b, Butlast(c));
      }
    }
  }

  lemma {:induction false} SubseqLength<T>(a: seq<T>, b: seq<T>)
    requires IsSubseq(a, b)
    ensures |a| <= |b|
    ensures |a| == |b| ==> a == b
    decreases |b|
  {
    if a == [] {
    } else {
      if Last(a) == Last(b) && IsSubseq(Butlast(a), Butlast(b)) {
        SubseqLength(Butlast(a), Butlast(b));
        assert a == Butlast(a) + [Last(a)] && b == Butlast(b) + [Last(b)];
      } else {
        SubseqLength(a, Butlast(b));
      }
    }
  }

  lemma {:induction false} PrefixIsSubseq<T>(a: seq<T>, b: seq<T>)
    ensures IsSubseq(a, a + b)
    decreases |a| + |b|
  {
    if b == [] {
      assert a + b == a;
      if a != [] {
        PrefixIsSubseq(Butlast(a), []);
        assert Butlast(a) + [] == Butlast(a);
      }
    } else {
      PrefixIsSubseq(a, Butlast(b));
      assert Butlast(a + b) == a + Butlast(b);
    }
  }

  // ---- What one client receives ----

  /** The payloads the loop took from bcCh while c was registered. */
  function Window(acts: seq<Action>, c: Client): seq<Payload> {
    if acts == [] then []
    else Window(Butlast(acts), c)
         + if Last(acts).RecvBroadcast? && Registered(Butlast(acts), c) then [Last(acts).m] else []
  }

  /** How many offers to c found 64 payloads waiting. */
  function Drops(acts: seq<Action>, c: Client): nat {
    if acts == [] then 0
    else
      var pre := Butlast(acts);
      Drops(pre, c) + if Last(acts) == Offer(c) && |Queued(pre, c)| - Takes(pre, c) >= 64 then 1 else 0
  }

  /** The payload of the current fan-out, if c is still to be offered it. */
  function Pending(acts: seq<Action>, c: Client): seq<Payload> {
    if Current(acts).Some? && Registered(acts, c) && !OfferedSince(acts, c) then [Current(acts).value] else []
  }

  /** Nobody comes or goes in a fan-out, and an offer finds its payload pending. */
  lemma StepPending(acts: seq<Action>, c: Client)
    requires acts != [] && IsRun(acts)
    ensures var pre, a := Butlast(acts), Last(acts);
            (a == Offer(c) ==> Current(pre).Some? && Pending(pre, c) == [Current(pre).value] && Pending(acts, c) == [])
            && (a.RecvBroadcast? ==>
                  Pending(pre, c) == [] && Pending(acts, c) == if Registered(pre, c) then [a.m] else [])
            && (a != Offer(c) && !a.RecvBroadcast? ==> Pending(acts, c) == Pending(pre, c))
  {
    var pre, a := Butlast(acts), Last(acts);
    LoopFollows(pre, c);
    StepLoop(Run(pre), a);
    hide Run, IsRun;
    if a.Offer? { LoopFollows(pre, c); }
  }

  /** Everything queued was offered in order, and what is missing was dropped. */
  lemma {:induction false} QueuedWithinWindow(acts: seq<Action>, c: Client) returns (offered: seq<Payload>)
    requires IsRun(acts)
    ensures Window(acts, c) == offered + Pending(acts, c)
            && IsSubseq(Queued(acts, c), offered)
            && |offered| == |Queued(acts, c)| + Drops(acts, c)
  {
    offered := [];
    if acts == [] {
    } else {
      var pre, a := Butlast(acts), Last(acts);
      offered := QueuedWithinWindow(pre, c);
      StepPending(acts, c);
      hide IsRun, Pending, IsSubseq, Takes, Registered, Current;
      if a == Offer(c) {
        var m := Current(pre).value;
        SubseqExtend(Queued(pre, c), offered, m);
        offered := offered + [m];
        assert Window(acts, c) == offered + [];
      } else if a.RecvBroadcast? {
        assert offered + [] == offered;
      }
    }
  }

  /** What the writer of c has taken are the first payloads queued for it, as many as it took, and
      the rest wait in order. What was queued is an in-order subsequence of the payloads broadcast
      while c was registered, and what is missing was dropped at 64 waiting or is being offered. */
  lemma {:induction false} DeliveryIsOrdered(acts: seq<Action>, c: Client)
    requires IsRun(acts) && c in Run(acts).conns
    ensures var k, q, taken := Run(acts).conns[c], Queued(acts, c), Takes(acts, c);
            taken <= |q| && k.taken == q[..taken] && k.queue == q[taken..]
            && IsSubseq(q, Window(acts, c)) && IsSubseq(k.taken, Window(acts, c))
            && |Window(acts, c)| == |q| + Drops(acts, c) + |Pending(acts, c)|
            && (Drops(acts, c) == 0 && Pending(acts, c) == [] ==> q == Window(acts, c))
  {
    var q, taken := Queued(acts, c), Takes(acts, c);
    QueueFollows(acts, c);
    var offered := QueuedWithinWindow(acts, c);
    SubseqLength(q, offered);
    PrefixIsSubseq(q[..taken], q[taken..]);
    assert q[..taken] + q[taken..] == q;
    PrefixIsSubseq(offered, Pending(acts, c));
    SubseqTransitive(q, offered, Window(acts, c));
    SubseqTransitive(q[..taken], q, Window(acts, c));
    hide IsRun, Run, Queued, Takes, Window, Pending, Drops, IsSubseq;
  }

  // ---- From publishers to clients ----

  /** How much was published while 128 payloads waited. */
  function Lost(acts: seq<Action>): nat {
    if acts == [] then 0
    else
      var pre := Butlast(acts);
      Lost(pre) + if Last(acts).Publish? && |Admitted(pre)| - |Broadcasts(pre)| >= 128 then 1 else 0
  }

  lemma {:induction false} AdmittedWasPublished(acts: seq<Action>)
    ensures IsSubseq(Admitted(acts), Published(acts)) && |Published(acts)| == |Admitted(acts)| + Lost(acts)
  {
    if acts == [] {
    } else {
      var pre := Butlast(acts);
      AdmittedWasPublished(pre);
      var in0, all0 := Admitted(pre), Published(pre);
      var room := |in0| - |Broadcasts(pre)| < 128;
      assert Published(acts) == if Last(acts).Publish? then all0 + [Last(acts).m] else all0;
      assert Admitted(acts) == if Last(acts).Publish? && room then in0 + [Last(acts).m] else in0;
      assert Lost(acts) == Lost(pre) + if Last(acts).Publish? && !room then 1 else 0;
      hide *;
      if Last(acts).Publish? { SubseqExtend(in0, all0, Last(acts).m); }
    }
  }

  /** What the loop has broadcast, followed by what waits in the channel, is an in-order subsequence
      of what was published, and what is missing was published while 128 payloads waited. */
  lemma {:induction false} BroadcastsArePublished(acts: seq<Action>)
    requires IsRun(acts)
    ensures var flow := Broadcasts(acts) + Run(acts).bcCh;
            IsSubseq(flow, Published(acts)) && |Published(acts)| == |flow| + Lost(acts)
  {
    BroadcastsAreFifo(acts);
    AdmittedWasPublished(acts);
    hide *;
  }

  lemma {:induction false} WindowWithinBroadcasts(acts: seq<Action>, c: Client)
    ensures IsSubseq(Window(acts, c), Broadcasts(acts))
  {
    if acts == [] {
    } else {
      var w, bs := Window(Butlast(acts), c), Broadcasts(Butlast(acts));
      WindowWithinBroadcasts(Butlast(acts), c);
      hide IsSubseq, Registered;
      assert w + [] == w && bs + [] == bs;
      if Last(acts).RecvBroadcast? {
        SubseqExtend(w, bs, Last(acts).m);
      }
    }
  }

  /** End to end: what any connection writes is an in-order subsequence of what was published. */
  lemma {:induction false} DeliveredWasPublished(acts: seq<Action>, c: Client)
    requires IsRun(acts) && c in Run(acts).conns
    ensures var taken := Run(acts).conns[c].taken; |taken| == Takes(acts, c) && IsSubseq(taken, Published(acts))
  {
    var all := Broadcasts(acts) + Run(acts).bcCh;
    DeliveryIsOrdered(acts, c);
    WindowWithinBroadcasts(acts, c);
    BroadcastsArePublished(acts);
    PrefixIsSubseq(Broadcasts(acts), Run(acts).bcCh);
    SubseqTransitive(Run(acts).conns[c].taken, Window(acts, c), Broadcasts(acts));
    SubseqTransitive(Run(acts).conns[c].taken, Broadcasts(acts), all);
    SubseqTransitive(Run(acts).conns[c].taken, all, Published(acts));
    hide *;
  }

  // ---- Leaving the hub ----

  /** The loop took c's removal from delCh while c's registration was still in addCh. */
  predicate RemovedBeforeAdded(acts: seq<Action>, c: Client) {
    acts != []
    && (RemovedBeforeAdded(Butlast(acts), c) || (Last(acts) == RecvDel(c) && RecvAdd(c) !in Butlast(acts)))
  }

  predicate AddConsumed(s: State, c: Client) {
    c in s.conns && !s.conns[c].reader.Opening? && c !in s.addCh
  }

  predicate DelConsumed(s: State, c: Client) {
    c in s.conns && s.conns[c].reader.Gone? && c !in s.delCh
  }

  predicate IsClosed(s: State, c: Client) { c in s.conns && s.conns[c].closed }

  lemma StepLifecycle(s: State, a: Action, c: Client)
    requires Inv(s) && Enabled(s, a)
    ensures AddConsumed(Step(s, a), c) <==> AddConsumed(s, c) || a == RecvAdd(c)
    ensures DelConsumed(Step(s, a), c) <==> DelConsumed(s, c) || a == RecvDel(c)
    ensures IsClosed(Step(s, a), c) <==> IsClosed(s, c) || (a == RecvDel(c) && AddConsumed(s, c))
  {
    assert ConnInv(s, c);
    if a.RecvAdd? { TailMembers(s.addCh, c); }
    if a.RecvDel? { TailMembers(s.delCh, c); }
  }

  lemma {:induction false} WhoHasLeft(acts: seq<Action>, c: Client)
    requires IsRun(acts)
    ensures var s := Run(acts);
            (RecvAdd(c) in acts <==> AddConsumed(s, c))
            && (RecvDel(c) in acts <==> DelConsumed(s, c))
            && (IsClosed(s, c) <==> RecvDel(c) in acts && !RemovedBeforeAdded(acts, c))
            && (RemovedBeforeAdded(acts, c) ==> RecvDel(c) in acts)
  {
    if acts == [] {
    } else {
      var pre, a := Butlast(acts), Last(acts);
      WhoHasLeft(pre, c);
      RunsAreSafe(pre);
      StepLifecycle(Run(pre), a, c);
      RemovedOnce(Run(pre), a, c);
      hide Step, Inv, Enabled, AddConsumed, DelConsumed, IsClosed;
      assert acts == pre + [a];
    }
  }

  lemma RemovedOnce(s: State, a: Action, c: Client)
    requires Inv(s) && Enabled(s, a)
    ensures a == RecvDel(c) ==> !DelConsumed(s, c)
    ensures IsClosed(s, c) ==> AddConsumed(s, c) && DelConsumed(s, c)
  {
    assert ConnInv(s, c);
  }

  /** Once the loop has consumed both messages of a disconnected client, the client is out of
      the map and its channel closed exactly when the registration was consumed first. */
  lemma {:induction false} LeavesTheHubIff(acts: seq<Action>, c: Client)
    requires IsRun(acts) && RecvAdd(c) in acts && RecvDel(c) in acts
    ensures var s := Run(acts);
            c in s.conns
            && (c !in s.clients <==> !RemovedBeforeAdded(acts, c))
            && (IsClosed(s, c) <==> !RemovedBeforeAdded(acts, c))
  {
    WhoHasLeft(acts, c);
    RunsAreSafe(acts);
    assert ConnInv(Run(acts), c);
  }

  /** Otherwise it stays registered, with an open channel, in every continuation. */
  lemma {:induction false} LeakIsPermanent(acts: seq<Action>, more: seq<Action>, c: Client)
    requires IsRun(acts + more)
    requires IsRun(acts) && RecvAdd(c) in acts && RecvDel(c) in acts && RemovedBeforeAdded(acts, c)
    ensures var s := Run(acts + more); c in s.clients && !IsClosed(s, c)
  {
    StillRemovedBeforeAdded(acts, more, c);
    LeavesTheHubIff(acts + more, c);
  }

  lemma {:induction false} StillRemovedBeforeAdded(acts: seq<Action>, more: seq<Action>, c: Client)
    requires RemovedBeforeAdded(acts, c)
    ensures RemovedBeforeAdded(acts + more, c)
    decreases |more|
  {
    if more == [] {
      assert acts + more == acts;
    } else {
      StillRemovedBeforeAdded(acts, Butlast(more), c);
      assert Butlast(acts + more) == acts + Butlast(more);
    }
  }

  lemma RunExtend(acts: seq<Action>, a: Action)
    requires IsRun(acts) && Enabled(Run(acts), a)
    ensures IsRun(acts + [a]) && Run(acts + [a]) == Step(Run(acts), a)
  {
    assert Butlast(acts + [a]) == acts;
  }

  /** It does happen: a client that disconnects at once, with the loop serving delCh first. */
  lemma {:induction false} LeakHappens(c: Client)
    ensures var acts := [Connect(c)] + [SendAdd(c)] + [Disconnect(c)] + [SendDel(c)] + [RecvDel(c)] + [RecvAdd(c)];
            IsRun(acts) && RemovedBeforeAdded(acts, c)
            && c in Run(acts).clients && DelConsumed(Run(acts), c)
  {
    assert Butlast([Connect(c)]) == [];
    hide Run, IsRun;
    var a1 := [Connect(c)];
    var a2 := a1 + [SendAdd(c)];
    var a3 := a2 + [Disconnect(c)];
    var a4 := a3 + [SendDel(c)];
    var a5 := a4 + [RecvDel(c)];
    var a6 := a5 + [RecvAdd(c)];
    EmptyRun();
    RunExtend([], Connect(c));
    assert [] + [Connect(c)] == a1;
    RunExtend(a1, SendAdd(c));
    RunExtend(a2, Disconnect(c));
    RunExtend(a3, SendDel(c));
    RunExtend(a4, RecvDel(c));
    RunExtend(a5, RecvAdd(c));
    assert Butlast(a6) == a5 && Butlast(a5) == a4;
    assert RemovedBeforeAdded(a5, c);
  }

  lemma EmptyRun()
    ensures IsRun([]) && Run([]) == INIT
  {}
}
