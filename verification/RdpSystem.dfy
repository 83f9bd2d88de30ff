/** Two RDP endpoints joined by a network that loses, duplicates and reorders: a step delivers any segment the
    peer ever sent, any number of times, in any order. */
module RdpSystem {
  import opened Base
  import opened SeqNum
  import opened RdpModel

  /** `a` calls csp_connect, `b` listens on a socket. */
  datatype Sys = Sys(a: Conn, b: Conn)

  datatype Node = A | B

  /** One atomic step of one node. */
  datatype Act =
    | Connect(now: u32, iss: u16)
    | ConnectDone(now: u32, woken: bool)
    | Route(s: Option<Segment>, now: u32, iss: u16, sockOk: bool)
    | Send(data: Payload, now: u32)
    | Read(now: u32)
    | Close(now: u32)

  datatype Event = Event(node: Node, act: Act)

  function At(y: Sys, n: Node): Conn { if n.A? then y.a else y.b }

  function Peer(y: Sys, n: Node): Conn { if n.A? then y.b else y.a }

  function Put(y: Sys, n: Node, c: Conn): Sys { if n.A? then y.(a := c) else y.(b := c) }

  /** A slot that csp_conn_init left; number fields hold whatever was in memory. */
  predicate Fresh(c: Conn) {
    && !c.open && c.state == Closed && c.closedBy == {} && c.closeLog == {}
    && !c.pending && !c.connecting && !c.handle
    && c.snd.txq == [] && c.snd.out == [] && c.snd.accepted == [] && !c.snd.started
    && c.rcv.rxq == [] && c.rcv.inbox == [] && c.rcv.delivered == [] && c.rcv.readLog == [] && !c.rcv.synced
  }

  predicate Init(y: Sys) {
    Fresh(y.a) && Fresh(y.b) && !y.a.listening && y.b.listening
  }

  /** A slot is used for one connection only: a SYN never finds it closed a second time. */
  predicate SingleUse(cfg: Config, c: Conn, s: Segment, now: u32) {
    s.syn && c.snd.started ==> TimerPass(cfg, c, now).open
  }

  /** What a node may do next: take a segment its peer sent at any time before, or let a user task that is
      entitled to it make a call. At most `limit` payloads are accepted. */
  predicate Enabled(cfg: Config, limit: nat, c: Conn, peer: Conn, act: Act) {
    match act
    case Connect(_, _) => !c.snd.started && !c.listening
    case ConnectDone(_, _) => c.connecting
    case Route(s, now, _, _) => s.Some? ==> s.value in peer.snd.out && SingleUse(cfg, c, s.value, now)
    case Send(_, _) => c.handle && |c.snd.accepted| < limit
    case Read(_) => c.handle
    case Close(_) => c.handle
  }

  function Do(cfg: Config, opts: Options, c: Conn, act: Act): Conn {
    match act
    case Connect(now, iss) => ConnectStart(cfg, c, opts, now, iss)
    case ConnectDone(now, woken) => ConnectEnd(cfg, c, woken, now)
    case Route(s, now, iss, sockOk) => RouteWork(cfg, c, s, now, iss, sockOk)
    case Send(data, now) => UserSend(cfg, c, data, now)
    case Read(now) => UserRead(cfg, c, now)
    case Close(now) => UserClose(cfg, c, now)
  }

  /** A run: the system's states under a list of events, each enabled when it happens. */
  ghost predicate IsRun(cfg: Config, opts: Options, limit: nat, evs: seq<Event>, ys: seq<Sys>) {
    && |ys| == |evs| + 1
    && Init(ys[0])
    && forall i :: 0 <= i < |evs| ==> Step(cfg, opts, limit, ys[i], evs[i], ys[i + 1])
  }

  predicate Step(cfg: Config, opts: Options, limit: nat, y: Sys, ev: Event, z: Sys) {
    && Enabled(cfg, limit, At(y, ev.node), Peer(y, ev.node), ev.act)
    && z == Put(y, ev.node, Do(cfg, opts, At(y, ev.node), ev.act))
  }
}
