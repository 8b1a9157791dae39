/** The WebSocket hub as a step system. Four kinds of goroutine (publishers, one reader and
    one writer per connection, the hub's loop) share buffered channels. A step is one channel
    operation; a fan-out is one step per client, so writers and readers interleave with it. */
module Broadcast {
  import opened Seqs
  import opened Aggregation

  type Client = nat
  type Payload = Entry

  const CONTROL_CAP: nat := 16
  const BROADCAST_CAP: nat := 128
  const SEND_CAP: nat := 64

  /** ServeWS: blocked on addCh, in the read loop, blocked on delCh, returned. */
  datatype Reader = Opening | Reading | Leaving | Gone

  /** One connection: its reader, whether its writer runs, the send channel, and what the
      writer has taken from it. */
  datatype Conn = Conn(reader: Reader, writing: bool, queue: seq<Payload>, closed: bool, taken: seq<Payload>)

  datatype Loop = Idle | Fanout(payload: Payload, todo: set<Client>)

  /** `panicked` records a send on a closed channel or a second close. */
  datatype State = State(
    conns: map<Client, Conn>,
    clients: set<Client>,
    addCh: seq<Client>, delCh: seq<Client>, bcCh: seq<Payload>,
    loop: Loop,
    panicked: bool)

  const INIT := State(map[], {}, [], [], [], Idle, false)

  datatype Action =
    | Connect(c: Client)
    | SendAdd(c: Client)
    | Disconnect(c: Client)
    | SendDel(c: Client)
    | Publish(m: Payload)
    | RecvAdd(c: Client)
    | RecvDel(c: Client)
    | RecvBroadcast(m: Payload)
    | Offer(c: Client)
    | FanoutDone
    | WriterTake(c: Client)
    | WriterFails(c: Client)
    | WriterSeesClose(c: Client)

  predicate Enabled(s: State, a: Action) {
    !s.panicked &&
    match a
    case Connect(c) => c !in s.conns
    case SendAdd(c) => c in s.conns && s.conns[c].reader.Opening? && |s.addCh| < CONTROL_CAP
    case Disconnect(c) => c in s.conns && s.conns[c].reader.Reading?
    case SendDel(c) => c in s.conns && s.conns[c].reader.Leaving? && |s.delCh| < CONTROL_CAP
    case Publish(_) => true
    case RecvAdd(c) => s.loop.Idle? && s.addCh != [] && s.addCh[0] == c
    case RecvDel(c) => s.loop.Idle? && s.delCh != [] && s.delCh[0] == c
    case RecvBroadcast(m) => s.loop.Idle? && s.bcCh != [] && s.bcCh[0] == m
    case Offer(c) => s.loop.Fanout? && c in s.loop.todo && c in s.conns
    case FanoutDone => s.loop.Fanout? && s.loop.todo == {}
    case WriterTake(c) => c in s.conns && s.conns[c].writing && s.conns[c].queue != []
    case WriterFails(c) => c in s.conns && s.conns[c].writing
    case WriterSeesClose(c) => c in s.conns && s.conns[c].writing && s.conns[c].closed && s.conns[c].queue == []
  }

  function Step(s: State, a: Action): State
    requires Enabled(s, a)
  {
    match a
    case Connect(c) => s.(conns := s.conns[c := Conn(Opening, false, [], false, [])])
    case SendAdd(c) =>
      s.(addCh := s.addCh + [c], conns := s.conns[c := s.conns[c].(reader := Reading, writing := true)])
    case Disconnect(c) => s.(conns := s.conns[c := s.conns[c].(reader := Leaving)])
    case SendDel(c) => s.(delCh := s.delCh + [c], conns := s.conns[c := s.conns[c].(reader := Gone)])
    case Publish(m) => if |s.bcCh| < BROADCAST_CAP then s.(bcCh := s.bcCh + [m]) else s
    case RecvAdd(c) => s.(addCh := s.addCh[1..], clients := s.clients + {c})
    case RecvDel(c) =>
      var s' := s.(delCh := s.delCh[1..]);
      if c !in s.clients then s'
      else if c !in s.conns || s.conns[c].closed then s'.(panicked := true)
      else s'.(clients := s.clients - {c}, conns := s.conns[c := s.conns[c].(closed := true)])
    case RecvBroadcast(m) => s.(bcCh := s.bcCh[1..], loop := Fanout(m, s.clients))
    case Offer(c) =>
      var s' := s.(loop := Fanout(s.loop.payload, s.loop.todo - {c}));
      var k := s.conns[c];
      if k.closed then s'.(panicked := true)
      else if |k.queue| < SEND_CAP then s'.(conns := s.conns[c := k.(queue := k.queue + [s.loop.payload])])
      else s'
    case FanoutDone => s.(loop := Idle)
    case WriterTake(c) =>
      var k := s.conns[c];
      s.(conns := s.conns[c := k.(queue := k.queue[1..], taken := k.taken + [k.queue[0]])])
    case WriterFails(c) => s.(conns := s.conns[c := s.conns[c].(writing := false)])
    case WriterSeesClose(c) => s.(conns := s.conns[c := s.conns[c].(writing := false)])
  }

  /** acts is an interleaving that can happen; Run is the state it leads to. */
  predicate IsRun(acts: seq<Action>) {
    acts == [] || (IsRun(Butlast(acts)) && Enabled(Run(Butlast(acts)), Last(acts)))
  }

  function Run(acts: seq<Action>): State {
    if acts == [] then INIT
    else
      var s := Run(Butlast(acts));
      if Enabled(s, Last(acts)) then Step(s, Last(acts)) else s
  }

  // ---- Safety ----

  /** An unclosed connection past its add is waiting in addCh or registered, not both; a
      closed one is in no channel, not registered, and its reader has returned. */
  ghost predicate ConnInv(s: State, c: Client) {
    if c !in s.conns then c !in s.addCh && c !in s.delCh && c !in s.clients
    else
      var k := s.conns[c];
      |k.queue| <= SEND_CAP
      && if k.reader.Opening?
         then !k.closed && c !in s.addCh && c !in s.delCh && c !in s.clients
         else (if k.closed
               then k.reader.Gone? && c !in s.addCh && c !in s.delCh && c !in s.clients
               else (c in s.addCh <==> c !in s.clients) && (c in s.delCh ==> k.reader.Gone?))
  }

  ghost predicate Inv(s: State) {
    && !s.panicked
    && NoRepeats(s.addCh) && NoRepeats(s.delCh)
    && |s.addCh| <= CONTROL_CAP && |s.delCh| <= CONTROL_CAP && |s.bcCh| <= BROADCAST_CAP
    && (s.loop.Fanout? ==> s.loop.todo <= s.clients)
    && forall c :: ConnInv(s, c)
  }

  lemma TailMembers(ch: seq<Client>, c: Client)
    requires ch != [] && NoRepeats(ch)
    ensures NoRepeats(ch[1..])
    ensures c in ch[1..] <==> c in ch && c != ch[0]
  {
    assert ch == [ch[0]] + ch[1..];
  }

  lemma StepKeepsConn(s: State, a: Action, c: Client)
    requires Inv(s) && Enabled(s, a)
    ensures ConnInv(Step(s, a), c)
  {
    assert ConnInv(s, c);
    if a.RecvAdd? { TailMembers(s.addCh, c); }
    if a.RecvDel? { TailMembers(s.delCh, c); }
    if a.Offer? { assert ConnInv(s, a.c); }
  }

  lemma {:induction false} StepKeepsInv(s: State, a: Action)
    requires Inv(s) && Enabled(s, a)
    ensures Inv(Step(s, a))
  {
    forall c ensures ConnInv(Step(s, a), c) { StepKeepsConn(s, a, c); }
    match a
    case SendAdd(c) => assert ConnInv(s, c);
    case SendDel(c) => assert ConnInv(s, c);
    case RecvAdd(c) => TailMembers(s.addCh, c);
    case RecvDel(c) => TailMembers(s.delCh, c); assert ConnInv(s, c);
    case Offer(c) => assert ConnInv(s, c);
    case _ =>
  }

  /** In every interleaving: nothing is sent to a closed channel, no channel is closed twice,
      and every queue stays within its capacity. */
  lemma {:induction false} RunsAreSafe(acts: seq<Action>)
    requires IsRun(acts)
    ensures Inv(Run(acts))
    ensures var s := Run(acts);
            !s.panicked && |s.addCh| <= 16 && |s.delCh| <= 16 && |s.bcCh| <= 128
            && forall c :: c in s.conns ==> |s.conns[c].queue| <= 64
  {
    if acts == [] {
    } else {
      RunsAreSafe(Butlast(acts));
      StepKeepsInv(Run(Butlast(acts)), Last(acts));
    }
    assert forall c :: ConnInv(Run(acts), c);
  }
}
