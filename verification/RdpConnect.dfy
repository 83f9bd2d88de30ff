/** The handshake works: from any two fresh slots a run leads to an open connection in the hands of both users. */
module RdpConnect {
  import opened Base
  import opened SeqNum
  import opened RdpModel
  import opened RdpSystem
  import opened RdpOrder
  import opened RdpProgress

  // ---------------------------------------------------------------- the handshake, step by step

  /** Nothing has been sent or received yet but the handshake. */
  predicate Blank(c: Conn) {
    && c.snd.accepted == [] && c.rcv.delivered == [] && c.rcv.readLog == [] && c.rcv.rxq == [] && c.rcv.inbox == []
    && forall e <- c.snd.txq :: e.seg.seqNr == c.snd.iss
  }

  /** The connecting side, waiting for its answer. */
  predicate Asked(c: Conn, opts: Options, iss: u16) {
    && c.open && c.state == SynSent && !c.pending && c.connecting && !c.handle && !c.listening && c.opt == opts
    && c.snd.iss == iss && c.snd.nxt == Wrap(iss + 1) && Blank(c) && Syn(opts, iss) in c.snd.out
  }

  lemma Asks(cfg: Config, c: Conn, opts: Options, iss: u16)
    requires Fresh(c) && !c.listening
    ensures Asked(ConnectStart(cfg, c, opts, 0, iss), opts, iss)
  {
  }

  /** The listening side, once it has answered. */
  predicate Answered(c: Conn, opts: Options, iss: u16, peer: u16) {
    && c.open && c.state == SynRcvd && c.pending && !c.handle && c.opt == opts && c.timestamp == 0
    && c.snd.iss == iss && c.snd.una == iss && c.snd.nxt == Wrap(iss + 1) && c.rcv.cur == peer && Blank(c)
    && Cmp(true, true, false, false, iss, peer) in c.snd.out
  }

  lemma Answers(cfg: Config, c: Conn, opts: Options, iss: u16, peer: u16)
    requires Fresh(c) && c.listening
    ensures Answered(RouteWork(cfg, c, Some(Syn(opts, peer)), 0, iss, true), opts, iss, peer)
  {
  }

  /** A side whose connection is open: what it sent, and what it knows of its peer. */
  predicate Opened(c: Conn, opts: Options, iss: u16, peer: u16) {
    && c.open && c.state == Open && !c.pending && c.opt == opts && Blank(c)
    && c.snd.iss == iss && c.snd.nxt == Wrap(iss + 1) && c.snd.una == Wrap(iss + 1) && c.rcv.cur == peer
  }

  lemma Opens(cfg: Config, c: Conn, opts: Options, iss: u16, peer: u16)
    requires Asked(c, opts, iss)
    ensures var d := RouteWork(cfg, c, Some(Cmp(true, true, false, false, peer, iss)), 0, 0, true);
            && Opened(d, opts, iss, peer) && d.connecting
            && Cmp(false, true, false, false, Wrap(iss + 1), peer) in d.snd.out
    ensures TimerPass(cfg, c, 0).open
  {
    hide Retransmit;
    var d := TimerPass(cfg, c, 0);
    assert d == c.(snd := Retransmit(c.snd, c.rcv.cur, 0, c.opt.packetTimeout));
    RetransmitKeeps(c.snd, c.rcv.cur, 0, c.opt.packetTimeout);
  }

  lemma RetransmitKeeps(d: Snd, ackNr: u16, now: u32, pt: u32)
    requires forall e <- d.txq :: e.seg.seqNr == d.iss
    ensures var e := Retransmit(d, ackNr, now, pt);
            && e.nxt == d.nxt && e.iss == d.iss && e.una == d.una && d.out <= e.out && e.accepted == d.accepted
            && forall x <- e.txq :: x.seg.seqNr == d.iss
  {
    hide PassSends;
    PassKeepsNumber(d.txq, d.una, ackNr, now, pt, d.iss);
  }

  lemma {:induction false} PassKeepsNumber(q: seq<TxEntry>, una: u16, ackNr: u16, now: u32, pt: u32, x: u16)
    requires forall e <- q :: e.seg.seqNr == x
    ensures forall e <- PassFilter(q, una, ackNr, now, pt) :: e.seg.seqNr == x
    decreases q
  {
    hide SeqBefore, Due;
    if q != [] {
      PassKeepsNumber(q[1..], una, ackNr, now, pt, x);
    }
  }

  /** The acknowledgement hands the connection to the listening user. */
  lemma HandsOver(cfg: Config, c: Conn, opts: Options, iss: u16, peer: u16)
    requires Answered(c, opts, iss, peer) && 1 <= opts.window < 0x4000 && opts.connTimeout < 0x8000_0000
    ensures var d := RouteWork(cfg, c, Some(Cmp(false, true, false, false, Wrap(peer + 1), iss)), 0, 0, true);
            Opened(d, opts, iss, peer) && d.handle
  {
    hide Retransmit;
    assert !ConnExpired(c, 0);
    var d := TimerPass(cfg, c, 0);
    assert d == c.(snd := Retransmit(c.snd, c.rcv.cur, 0, c.opt.packetTimeout));
    RetransmitKeeps(c.snd, c.rcv.cur, 0, c.opt.packetTimeout);
    FirstNumbers(d, opts, iss, peer);
  }

  lemma FirstNumbers(c: Conn, opts: Options, iss: u16, peer: u16)
    requires c.opt == opts && 1 <= opts.window < 0x4000 && c.rcv.cur == peer && c.snd.una == iss
    requires c.snd.nxt == Wrap(iss + 1)
    ensures SeqAcceptable(c, Wrap(peer + 1)) && AckAcceptable(c, iss)
  {
    hide SeqBetween, Wrap;
    WrapModulo(iss + 1, -1);
    WrapSelf(iss);
    BetweenIsInRange(peer, 1, 1, 2 * opts.window);
    BetweenIsInRange(iss, 0, -1 - 2 * opts.window, 0);
    SameBetween(iss, iss - 1 - opts.window * 2, c.snd.nxt - 1, iss + (-1 - 2 * opts.window), iss + 0);
  }

  lemma WrapSelf(x: u16)
    ensures Wrap(x + 0) == x
  {
  }

  // ---------------------------------------------------------------- the run

  /** One more event of a run. */
  lemma Next(cfg: Config, opts: Options, limit: nat, evs: seq<Event>, ys: seq<Sys>, ev: Event)
    returns (evs1: seq<Event>, ys1: seq<Sys>)
    requires IsRun(cfg, opts, limit, evs, ys)
    requires Enabled(cfg, limit, At(Last(ys), ev.node), Peer(Last(ys), ev.node), ev.act)
    ensures IsRun(cfg, opts, limit, evs1, ys1) && |evs1| == |evs| + 1 && ys1[0] == ys[0]
    ensures At(Last(ys1), ev.node) == Do(cfg, opts, At(Last(ys), ev.node), ev.act)
    ensures Peer(Last(ys1), ev.node) == Peer(Last(ys), ev.node)
  {
    GoesOn(cfg, opts, limit, evs, ys, ev);
    evs1, ys1 := evs + [ev], ys + [Put(Last(ys), ev.node, Do(cfg, opts, At(Last(ys), ev.node), ev.act))];
  }

  /** An open connection in the hands of both users. */
  predicate Connected(y: Sys, opts: Options, issA: u16, issB: u16) {
    Opened(y.a, opts, issA, issB) && y.a.handle && Opened(y.b, opts, issB, issA) && y.b.handle
  }

  /** From two fresh slots a run of five steps leads to an open connection in the hands of both users. */
  lemma CanConnect(cfg: Config, opts: Options, limit: nat, y: Sys, issA: u16, issB: u16)
    returns (evs: seq<Event>, ys: seq<Sys>)
    requires Init(y) && 1 <= opts.window < 0x4000 && opts.connTimeout < 0x8000_0000
    ensures IsRun(cfg, opts, limit, evs, ys) && ys[0] == y && |evs| == 5
    ensures Connected(Last(ys), opts, issA, issB)
  {
    evs, ys := [], [y];
    Asks(cfg, y.a, opts, issA);
    Answers(cfg, y.b, opts, issB, issA);
    hide ConnectStart, RouteWork, TimerPass, IsRun, Blank;
    evs, ys := Next(cfg, opts, limit, evs, ys, Event(A, Connect(0, issA)));
    evs, ys := Next(cfg, opts, limit, evs, ys, Event(B, Route(Some(Syn(opts, issA)), 0, issB, true)));
    Opens(cfg, Last(ys).a, opts, issA, issB);
    HandsOver(cfg, Last(ys).b, opts, issB, issA);
    evs, ys := Next(cfg, opts, limit, evs, ys,
                    Event(A, Route(Some(Cmp(true, true, false, false, issB, issA)), 0, 0, true)));
    evs, ys := Next(cfg, opts, limit, evs, ys, Event(A, ConnectDone(0, true)));
    BlankDone(cfg, ys[|ys| - 2].a);
    evs, ys := Next(cfg, opts, limit, evs, ys,
                    Event(B, Route(Some(Cmp(false, true, false, false, Wrap(issA + 1), issB)), 0, 0, true)));
  }

  lemma BlankDone(cfg: Config, c: Conn)
    ensures Blank(c) && c.state == Open ==> Blank(ConnectEnd(cfg, c, true, 0))
  {
  }
}
