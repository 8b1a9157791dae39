/** What the state of the WebSocket hub says about the actions that led to it: every channel, queue
    and goroutine is given by the actions alone. */
module BroadcastHistory {
  import opened Records
  import opened Seqs
  import opened Broadcast

  // ---- The loop ----

  predicate Registered(acts: seq<Action>, c: Client) {
    acts != []
    && match Last(acts)
       case RecvAdd(d) => d == c || Registered(Butlast(acts), c)
       case RecvDel(d) => d != c && Registered(Butlast(acts), c)
       case _ => Registered(Butlast(acts), c)
  }

  lemma {:induction false} RegisteredIsClient(acts: seq<Action>, c: Client)
    requires IsRun(acts)
    ensures c in Run(acts).clients <==> Registered(acts, c)
  {
    if acts == [] {
    } else {
      RegisteredIsClient(Butlast(acts), c);
      RunsAreSafe(acts);
    }
  }

  /** The payload whose fan-out is on. */
  function Current(acts: seq<Action>): Option<Payload> {
    if acts == [] then None
    else
      match Last(acts)
      case RecvBroadcast(m) => Some(m)
      case FanoutDone => None
      case _ => Current(Butlast(acts))
  }

  /** c has been offered something since the loop last took a payload. */
  predicate OfferedSince(acts: seq<Action>, c: Client) {
    acts != []
    && match Last(acts)
       case RecvBroadcast(_) => false
       case Offer(d) => d == c || OfferedSince(Butlast(acts), c)
       case _ => OfferedSince(Butlast(acts), c)
  }

  lemma StepLoop(s: State, a: Action)
    requires Enabled(s, a)
    ensures Step(s, a).loop == match a
                               case RecvBroadcast(m) => Fanout(m, s.clients)
                               case Offer(c) => Fanout(s.loop.payload, s.loop.todo - {c})
                               case FanoutDone => Loop.Idle
                               case _ => s.loop
    ensures a.RecvAdd? || a.RecvDel? || a.RecvBroadcast? ==> s.loop.Idle?
    ensures a.Offer? || a.FanoutDone? ==> s.loop.Fanout?
  {}

  /** From taking a payload to the end of its fan-out, the loop has it to offer to exactly the
      registered clients that it has not offered it to yet. */
  lemma {:induction false} LoopFollows(acts: seq<Action>, c: Client)
    requires IsRun(acts)
    ensures var loop := Run(acts).loop;
            (if loop.Fanout? then Some(loop.payload) else None) == Current(acts)
            && (loop.Fanout? ==> (c in loop.todo <==> Registered(acts, c) && !OfferedSince(acts, c)))
  {
    if acts == [] {
    } else {
      var pre, a := Butlast(acts), Last(acts);
      LoopFollows(pre, c);
      RegisteredIsClient(pre, c);
      StepLoop(Run(pre), a);
      assert Run(acts) == Step(Run(pre), a);
      hide Run, Step, Enabled, IsRun;
    }
  }

  // ---- One connection ----

  /** How far the reader of c has come. */
  function Phase(acts: seq<Action>, c: Client): Option<Reader> {
    if acts == [] then None
    else
      match Last(acts)
      case Connect(d) => if d == c then Some(Opening) else Phase(Butlast(acts), c)
      case SendAdd(d) => if d == c then Some(Reading) else Phase(Butlast(acts), c)
      case Disconnect(d) => if d == c then Some(Leaving) else Phase(Butlast(acts), c)
      case SendDel(d) => if d == c then Some(Gone) else Phase(Butlast(acts), c)
      case _ => Phase(Butlast(acts), c)
  }

  /** The writer of c runs from its registration until a write fails or it sees the close. */
  predicate WriterRuns(acts: seq<Action>, c: Client) {
    acts != []
    && match Last(acts)
       case SendAdd(d) => d == c || WriterRuns(Butlast(acts), c)
       case WriterFails(d) => d != c && WriterRuns(Butlast(acts), c)
       case WriterSeesClose(d) => d != c && WriterRuns(Butlast(acts), c)
       case _ => WriterRuns(Butlast(acts), c)
  }

  lemma StepConn(s: State, a: Action, c: Client)
    requires Enabled(s, a)
    ensures ReaderOf(Step(s, a), c) == match a
                                       case Connect(d) => if d == c then Some(Opening) else ReaderOf(s, c)
                                       case SendAdd(d) => if d == c then Some(Reading) else ReaderOf(s, c)
                                       case Disconnect(d) => if d == c then Some(Leaving) else ReaderOf(s, c)
                                       case SendDel(d) => if d == c then Some(Gone) else ReaderOf(s, c)
                                       case _ => ReaderOf(s, c)
    ensures Writing(Step(s, a), c) <==> match a
                                        case SendAdd(d) => d == c || Writing(s, c)
                                        case WriterFails(d) => d != c && Writing(s, c)
                                        case WriterSeesClose(d) => d != c && Writing(s, c)
                                        case _ => Writing(s, c)
  {}

  function ReaderOf(s: State, c: Client): Option<Reader> { if c in s.conns then Some(s.conns[c].reader) else None }

  predicate Writing(s: State, c: Client) { c in s.conns && s.conns[c].writing }

  lemma {:induction false} ConnFollows(acts: seq<Action>, c: Client)
    requires IsRun(acts)
    ensures ReaderOf(Run(acts), c) == Phase(acts, c)
    ensures Writing(Run(acts), c) <==> WriterRuns(acts, c)
  {
    if acts == [] {
    } else {
      ConnFollows(Butlast(acts), c);
      StepConn(Run(Butlast(acts)), Last(acts), c);
      assert Run(acts) == Step(Run(Butlast(acts)), Last(acts));
      hide Run, Step, Enabled, IsRun, ReaderOf, Writing;
    }
  }

  /** How often the writer of c has taken something. */
  function Takes(acts: seq<Action>, c: Client): nat {
    if acts == [] then 0 else Takes(Butlast(acts), c) + if Last(acts) == WriterTake(c) then 1 else 0
  }

  /** The payloads queued for c: an offer is queued while fewer than 64 wait. */
  function Queued(acts: seq<Action>, c: Client): seq<Payload> {
    if acts == [] then []
    else
      var pre := Butlast(acts);
      if Last(acts) == Offer(c) && Current(pre).Some? && |Queued(pre, c)| - Takes(pre, c) < 64
      then Queued(pre, c) + [Current(pre).value] else Queued(pre, c)
  }

  function QueueOf(s: State, c: Client): seq<Payload> { if c in s.conns then s.conns[c].queue else [] }

  function TakenOf(s: State, c: Client): seq<Payload> { if c in s.conns then s.conns[c].taken else [] }

  lemma StepQueue(s: State, a: Action, c: Client)
    requires Inv(s) && Enabled(s, a)
    ensures a == WriterTake(c) ==>
              QueueOf(s, c) != [] && QueueOf(Step(s, a), c) == QueueOf(s, c)[1..]
              && TakenOf(Step(s, a), c) == TakenOf(s, c) + [QueueOf(s, c)[0]]
    ensures a == Offer(c) ==>
              QueueOf(Step(s, a), c) == QueueOf(s, c) + if |QueueOf(s, c)| < 64 then [s.loop.payload] else []
    ensures a != WriterTake(c) && a != Offer(c) ==> QueueOf(Step(s, a), c) == QueueOf(s, c)
    ensures a != WriterTake(c) ==> TakenOf(Step(s, a), c) == TakenOf(s, c)
  {
    assert ConnInv(s, c);
  }

  lemma TakeHead(q: seq<Payload>, k: nat)
    requires k < |q|
    ensures q[..k + 1] == q[..k] + [q[k..][0]] && q[k + 1..] == q[k..][1..]
  {}

  lemma PutLast(q: seq<Payload>, k: nat, m: Payload)
    requires k <= |q|
    ensures (q + [m])[..k] == q[..k] && (q + [m])[k..] == q[k..] + [m]
  {}

  lemma HistoryStep(acts: seq<Action>, c: Client)
    requires acts != []
    ensures var pre, a := Butlast(acts), Last(acts);
            Takes(acts, c) == Takes(pre, c) + (if a == WriterTake(c) then 1 else 0)
            && Queued(acts, c)
               == if a == Offer(c) && Current(pre).Some? && |Queued(pre, c)| - Takes(pre, c) < 64
                  then Queued(pre, c) + [Current(pre).value] else Queued(pre, c)
  {
    hide Current;
  }

  /** A writer's take moves the head of the queue to the connection: what it has taken are the
      first payloads queued for it, as many as it took, and the rest wait in order. */
  lemma {:induction false} QueueFollows(acts: seq<Action>, c: Client)
    requires IsRun(acts)
    ensures var q, k := Queued(acts, c), Takes(acts, c);
            k <= |q| && TakenOf(Run(acts), c) == q[..k] && QueueOf(Run(acts), c) == q[k..]
  {
    if acts == [] {
    } else {
      var pre, a := Butlast(acts), Last(acts);
      var s, q, k := Run(pre), Queued(pre, c), Takes(pre, c);
      QueueFollows(pre, c);
      RunsAreSafe(pre);
      LoopFollows(pre, c);
      StepLoop(s, a);
      StepQueue(s, a, c);
      HistoryStep(acts, c);
      assert Run(acts) == Step(s, a);
      hide *;
      if a == WriterTake(c) {
        TakeHead(q, k);
      } else if a == Offer(c) {
        PutLast(q, k, s.loop.payload);
        assert QueueOf(s, c) + [] == QueueOf(s, c);
      }
    }
  }

  // ---- The channels ----

  function SentAdds(acts: seq<Action>): seq<Client> {
    if acts == [] then [] else SentAdds(Butlast(acts)) + if Last(acts).SendAdd? then [Last(acts).c] else []
  }

  function ServedAdds(acts: seq<Action>): seq<Client> {
    if acts == [] then [] else ServedAdds(Butlast(acts)) + if Last(acts).RecvAdd? then [Last(acts).c] else []
  }

  function SentDels(acts: seq<Action>): seq<Client> {
    if acts == [] then [] else SentDels(Butlast(acts)) + if Last(acts).SendDel? then [Last(acts).c] else []
  }

  function ServedDels(acts: seq<Action>): seq<Client> {
    if acts == [] then [] else ServedDels(Butlast(acts)) + if Last(acts).RecvDel? then [Last(acts).c] else []
  }

  function Published(acts: seq<Action>): seq<Payload> {
    if acts == [] then [] else Published(Butlast(acts)) + if Last(acts).Publish? then [Last(acts).m] else []
  }

  function Broadcasts(acts: seq<Action>): seq<Payload> {
    if acts == [] then [] else Broadcasts(Butlast(acts)) + if Last(acts).RecvBroadcast? then [Last(acts).m] else []
  }

  /** What was published while fewer than 128 payloads waited. */
  function Admitted(acts: seq<Action>): seq<Payload> {
    if acts == [] then []
    else
      var pre := Butlast(acts);
      Admitted(pre)
      + if Last(acts).Publish? && |Admitted(pre)| - |Broadcasts(pre)| < 128 then [Last(acts).m] else []
  }

  lemma StepChannels(s: State, a: Action)
    requires Enabled(s, a)
    ensures var s' := Step(s, a);
            match a
            case SendAdd(c) => s'.addCh == s.addCh + [c] && s'.delCh == s.delCh && s'.bcCh == s.bcCh
            case RecvAdd(c) => s.addCh == [c] + s'.addCh && s'.delCh == s.delCh && s'.bcCh == s.bcCh
            case SendDel(c) => s'.delCh == s.delCh + [c] && s'.addCh == s.addCh && s'.bcCh == s.bcCh
            case RecvDel(c) => s.delCh == [c] + s'.delCh && s'.addCh == s.addCh && s'.bcCh == s.bcCh
            case Publish(m) =>
              s'.bcCh == (if |s.bcCh| < 128 then s.bcCh + [m] else s.bcCh) && s'.addCh == s.addCh && s'.delCh == s.delCh
            case RecvBroadcast(m) => s.bcCh == [m] + s'.bcCh && s'.addCh == s.addCh && s'.delCh == s.delCh
            case _ => s'.addCh == s.addCh && s'.delCh == s.delCh && s'.bcCh == s.bcCh
  {}

  lemma Sent<T>(served: seq<T>, ch: seq<T>, x: T)
    ensures served + (ch + [x]) == served + ch + [x]
  {}

  lemma Served<T>(served: seq<T>, ch: seq<T>, x: T)
    ensures served + ([x] + ch) == (served + [x]) + ch
  {}

  lemma {:induction false} AddsAreFifo(acts: seq<Action>)
    requires IsRun(acts)
    ensures SentAdds(acts) == ServedAdds(acts) + Run(acts).addCh
  {
    if acts == [] {
    } else {
      var pre, a := Butlast(acts), Last(acts);
      AddsAreFifo(pre);
      StepChannels(Run(pre), a);
      assert Run(acts) == Step(Run(pre), a);
      assert SentAdds(acts) == if a.SendAdd? then SentAdds(pre) + [a.c] else SentAdds(pre);
      assert ServedAdds(acts) == if a.RecvAdd? then ServedAdds(pre) + [a.c] else ServedAdds(pre);
      hide *;
      if a.SendAdd? { Sent(ServedAdds(pre), Run(pre).addCh, a.c); }
      if a.RecvAdd? { Served(ServedAdds(pre), Run(acts).addCh, a.c); }
    }
  }

  lemma {:induction false} DelsAreFifo(acts: seq<Action>)
    requires IsRun(acts)
    ensures SentDels(acts) == ServedDels(acts) + Run(acts).delCh
  {
    if acts == [] {
    } else {
      var pre, a := Butlast(acts), Last(acts);
      DelsAreFifo(pre);
      StepChannels(Run(pre), a);
      assert Run(acts) == Step(Run(pre), a);
      assert SentDels(acts) == if a.SendDel? then SentDels(pre) + [a.c] else SentDels(pre);
      assert ServedDels(acts) == if a.RecvDel? then ServedDels(pre) + [a.c] else ServedDels(pre);
      hide *;
      if a.SendDel? { Sent(ServedDels(pre), Run(pre).delCh, a.c); }
      if a.RecvDel? { Served(ServedDels(pre), Run(acts).delCh, a.c); }
    }
  }

  lemma {:induction false} BroadcastsAreFifo(acts: seq<Action>)
    requires IsRun(acts)
    ensures Admitted(acts) == Broadcasts(acts) + Run(acts).bcCh
  {
    if acts == [] {
    } else {
      var pre, a := Butlast(acts), Last(acts);
      BroadcastsAreFifo(pre);
      StepChannels(Run(pre), a);
      assert Run(acts) == Step(Run(pre), a);
      var room := |Admitted(pre)| - |Broadcasts(pre)| < 128;
      assert Admitted(acts) == if a.Publish? && room then Admitted(pre) + [a.m] else Admitted(pre);
      assert Broadcasts(acts) == if a.RecvBroadcast? then Broadcasts(pre) + [a.m] else Broadcasts(pre);
      hide *;
      if a.Publish? { Sent(Broadcasts(pre), Run(pre).bcCh, a.m); }
      if a.RecvBroadcast? { Served(Broadcasts(pre), Run(acts).bcCh, a.m); }
    }
  }

  /** The three channels are first in, first out, and lose nothing once it is in. */
  lemma {:induction false} ChannelsAreFifo(acts: seq<Action>)
    requires IsRun(acts)
    ensures var s := Run(acts);
            SentAdds(acts) == ServedAdds(acts) + s.addCh
            && SentDels(acts) == ServedDels(acts) + s.delCh
            && Admitted(acts) == Broadcasts(acts) + s.bcCh
  {
    AddsAreFifo(acts);
    DelsAreFifo(acts);
    BroadcastsAreFifo(acts);
    hide *;
  }

  // ---- Who can go on ----

  lemma ReaderCanGo(acts: seq<Action>, c: Client)
    requires IsRun(acts)
    ensures var s := Run(acts);
            (Enabled(s, Connect(c)) <==> Phase(acts, c) == None)
            && (Enabled(s, SendAdd(c))
                <==> Phase(acts, c) == Some(Opening) && |SentAdds(acts)| - |ServedAdds(acts)| < 16)
            && (Enabled(s, Disconnect(c)) <==> Phase(acts, c) == Some(Reading))
            && (Enabled(s, SendDel(c))
                <==> Phase(acts, c) == Some(Leaving) && |SentDels(acts)| - |ServedDels(acts)| < 16)
  {
    RunsAreSafe(acts);
    ConnFollows(acts, c);
    AddsAreFifo(acts);
    DelsAreFifo(acts);
    hide Run, IsRun, Phase, SentAdds, ServedAdds, SentDels, ServedDels, ConnInv;
  }

  lemma WriterCanGo(acts: seq<Action>, c: Client)
    requires IsRun(acts)
    ensures var s, left := Run(acts), |Queued(acts, c)| - Takes(acts, c);
            (Enabled(s, WriterTake(c)) <==> WriterRuns(acts, c) && left > 0)
            && (Enabled(s, WriterFails(c)) <==> WriterRuns(acts, c))
            && (Enabled(s, WriterSeesClose(c))
                <==> WriterRuns(acts, c) && left == 0 && c in s.conns && s.conns[c].closed)
  {
    RunsAreSafe(acts);
    ConnFollows(acts, c);
    QueueFollows(acts, c);
    hide Run, IsRun, WriterRuns, Queued, Takes, ConnInv;
  }

  /** After any run: a publisher is never held up, a reader only by 16 waiting messages, and a
      writer goes on exactly while something is queued, or once its channel is closed and drained. */
  lemma {:induction false} WhoCanGo(acts: seq<Action>, c: Client, m: Payload)
    requires IsRun(acts)
    ensures var s, left := Run(acts), |Queued(acts, c)| - Takes(acts, c);
            Enabled(s, Publish(m))
            && (Enabled(s, SendAdd(c))
                <==> Phase(acts, c) == Some(Opening) && |SentAdds(acts)| - |ServedAdds(acts)| < 16)
            && (Enabled(s, SendDel(c))
                <==> Phase(acts, c) == Some(Leaving) && |SentDels(acts)| - |ServedDels(acts)| < 16)
            && (Enabled(s, Disconnect(c)) <==> Phase(acts, c) == Some(Reading))
            && (Enabled(s, WriterTake(c)) <==> WriterRuns(acts, c) && left > 0)
            && (Enabled(s, WriterFails(c)) <==> WriterRuns(acts, c))
            && (Enabled(s, WriterSeesClose(c))
                <==> WriterRuns(acts, c) && left == 0 && c in s.conns && s.conns[c].closed)
  {
    RunsAreSafe(acts);
    assert Enabled(Run(acts), Publish(m)) by { hide Run, IsRun; }
    hide Run, IsRun, Enabled, Phase, WriterRuns, Queued, Takes, SentAdds, ServedAdds, SentDels, ServedDels, Inv;
    ReaderCanGo(acts, c);
    WriterCanGo(acts, c);
  }
}
