/** Runs in which payloads are sent, delivered and acknowledged one by one, for as long as the limit allows, and what
    old segments can do after them. */
module RdpRounds {
  import opened Base
  import opened SeqNum
  import opened RdpModel
  import opened RdpSystem
  import opened RdpOrder
  import opened RdpProgress
  import opened RdpConnect

  /** What the rounds need: an acknowledgement for every segment, room for it, and timeouts that do not interfere. */
  predicate Plain(cfg: Config, opts: Options, p: Payload) {
    && 1 <= opts.window < 0x4000 && opts.delayedAcks == 0
    && opts.connTimeout < 0x8000_0000 && opts.packetTimeout < 0x8000_0000
    && cfg.maxWindow >= 1 && cfg.inboxLen > 2 * opts.window + 1 && p != [] && |p| + 5 <= cfg.bufferSize
  }

  /** The segment of payload number `n`, counted from one, and its acknowledgement. */
  function DataSeg(a: u16, b: u16, n: nat, p: Payload): Segment {
    Segment(false, true, false, false, Wrap(a + n), b, p, [], NO_OPTS)
  }

  function AckSeg(a: u16, b: u16, n: nat): Segment { Cmp(false, true, false, false, Wrap(b + 1), Wrap(a + n)) }

  /** An open connection with a user, and nothing waiting on it. */
  predicate Idle(c: Conn, opts: Options) {
    && c.open && c.state == Open && !c.pending && c.handle && c.opt == opts
    && c.rcv.rxq == [] && c.rcv.inbox == [] && c.snd.txq == []
  }

  /** The sender after `k` payloads, all delivered and acknowledged. */
  predicate SenderAt(c: Conn, opts: Options, a: u16, b: u16, k: nat, p: Payload) {
    && Idle(c, opts) && c.snd.iss == a && c.snd.nxt == Wrap(a + 1 + k) && c.snd.una == Wrap(a + 1 + k) && c.rcv.cur == b
    && c.snd.accepted == seq(k, _ => p) && (k > 0 ==> DataSeg(a, b, 1, p) in c.snd.out)
  }

  predicate ReceiverAt(c: Conn, opts: Options, a: u16, b: u16, k: nat, p: Payload) {
    && Idle(c, opts) && c.snd.iss == b && c.snd.nxt == Wrap(b + 1) && c.snd.una == Wrap(b + 1)
    && c.rcv.cur == Wrap(a + k)
    && c.rcv.delivered == seq(k, _ => p) && c.snd.accepted == [] && (k > 0 ==> AckSeg(a, b, 1) in c.snd.out)
  }

  // ---------------------------------------------------------------- numbers

  /** The number next in turn, and an acknowledgement of all that was sent, are acceptable. */
  lemma InTurn(c: Conn, w: nat, x: int, a: int, k: nat)
    requires c.opt.window == w && 1 <= w < 0x4000 && c.rcv.cur == Wrap(x)
    requires c.snd.una == Wrap(a + 1 + k) || c.snd.una == Wrap(a + k)
    requires c.snd.nxt == Wrap(a + 1 + k)
    ensures SeqAcceptable(c, Wrap(x + 1)) && AckAcceptable(c, Wrap(a + k))
  {
    hide SeqBetween, Wrap;
    var u := if c.snd.una == Wrap(a + 1 + k) then 1 else 0;
    BetweenIsInRange(x, 1, 1, 2 * w);
    WrapModulo(x, 1);
    WrapModulo(x, 2 * w);
    SameBetween(Wrap(x + 1), c.rcv.cur + 1, c.rcv.cur + c.opt.window * 2, x + 1, x + 2 * w);
    BetweenIsInRange(a + k, 0, u - 1 - 2 * w, 0);
    WrapModulo(a + k + u, -1 - 2 * w);
    WrapModulo(a + 1 + k, -1);
    SameBetween(Wrap(a + k + 0), c.snd.una - 1 - c.opt.window * 2, c.snd.nxt - 1, a + k + (u - 1 - 2 * w), a + k + 0);
  }

  /** With everything acknowledged the window is open. */
  lemma WindowOpen(x: int, w: nat)
    requires 1 <= w < 0x4000
    ensures !SeqAfter(Wrap(x), Wrap(x) + w - 1)
  {
  }

  lemma OneBefore(x: int)
    ensures SeqBefore(Wrap(x), Wrap(x + 1)) && !SeqBefore(Wrap(x), Wrap(x))
  {
  }

  // ---------------------------------------------------------------- a round

  /** Nothing is due at time zero. */
  lemma PassIdle(cfg: Config, c: Conn, opts: Options)
    requires Idle(c, opts) && opts.delayedAcks == 0
    ensures TimerPass(cfg, c, 0) == c
  {
  }

  lemma SendsNext(cfg: Config, c: Conn, opts: Options, a: u16, b: u16, k: nat, p: Payload)
    requires Plain(cfg, opts, p) && SenderAt(c, opts, a, b, k, p)
    ensures var s, d := DataSeg(a, b, k + 1, p), UserSend(cfg, c, p, 0);
            d == c.(snd := c.snd.(nxt := Wrap(a + 2 + k), txq := [TxEntry(s, 0, 0)], out := c.snd.out + [s],
                                  accepted := c.snd.accepted + [p]))
  {
    WindowOpen(a + 1 + k, opts.window);
    WrapStep(a, k + 1);
    hide SeqAfter;
  }

  /** A side with empty queues that takes the next payload. */
  function Given(c: Conn, s: Segment): Conn {
    TakeAck(c, s).(rcv := c.rcv.(inbox := [Some(s.data)], delivered := c.rcv.delivered + [s.data], cur := s.seqNr))
  }

  lemma TakesInOrder(cfg: Config, c: Conn, opts: Options, s: Segment, p: Payload)
    requires Plain(cfg, opts, p) && c.open && c.state == Open && c.opt == opts && c.rcv.rxq == [] && c.rcv.inbox == []
    requires !s.syn && s.ack && !s.eak && !s.rst && s.data != [] && s.seqNr == Wrap(c.rcv.cur + 1)
    requires SeqAcceptable(c, s.seqNr) && AckAcceptable(c, s.ackNr)
    ensures RoutePacket(cfg, c, s, 0, 0, true) == SendCmp(cfg, Given(c, s), Ack(Given(c, s)), 0)
  {
    hide SeqAcceptable, AckAcceptable, SendCmp, Wrap;
    var d, c1 := Given(c, s), TakeAck(c, s);
    assert RoutePacket(cfg, c, s, 0, 0, true) == RecvInOrder(cfg, c1, s, 0);
    assert c1.(rcv := Deliver(cfg, c1.rcv, s.data).(cur := s.seqNr)) == d;
    assert CheckAck(cfg, d, 0) == SendCmp(cfg, d, Ack(d), 0);
    SameRcv(cfg, d, Ack(d));
  }

  lemma SameRcv(cfg: Config, c: Conn, s: Segment)
    ensures SendCmp(cfg, c, s, 0).rcv == c.rcv
  {
  }

  lemma Receives(cfg: Config, c: Conn, opts: Options, a: u16, b: u16, k: nat, p: Payload)
    requires Plain(cfg, opts, p) && ReceiverAt(c, opts, a, b, k, p)
    ensures var d := RouteWork(cfg, c, Some(DataSeg(a, b, k + 1, p)), 0, 0, true);
            ReceiverAt(d.(rcv := d.rcv.(inbox := [])), opts, a, b, k + 1, p)
            && |d.rcv.inbox| == 1 && AckSeg(a, b, k + 1) in d.snd.out && d.handle
  {
    hide SeqAcceptable, AckAcceptable, Wrap, TimerPass, RoutePacket;
    var s := DataSeg(a, b, k + 1, p);
    PassIdle(cfg, c, opts);
    InTurn(c, opts.window, a + k, b, 0);
    WrapStep(a, k);
    WrapStep(b, 0);
    WrapSelf(b);
    TakesInOrder(cfg, c, opts, s, p);
    assert Ack(Given(c, s)) == AckSeg(a, b, k + 1);
  }

  lemma Reads(cfg: Config, c: Conn, opts: Options, a: u16, b: u16, k: nat, p: Payload)
    requires opts.delayedAcks == 0 && ReceiverAt(c.(rcv := c.rcv.(inbox := [])), opts, a, b, k, p) && |c.rcv.inbox| == 1
    ensures ReceiverAt(UserRead(cfg, c, 0), opts, a, b, k, p) && UserRead(cfg, c, 0).snd == c.snd
  {
  }

  /** One element of the retransmit queue: kept while it is neither acknowledged nor due, freed once acknowledged. */
  lemma PassOne(d: Snd, e: TxEntry, ackNr: u16, pt: u32)
    requires d.txq == [e]
    ensures SeqBefore(e.seg.seqNr, d.una) ==> Retransmit(d, ackNr, 0, pt) == d.(txq := [])
    ensures !SeqBefore(e.seg.seqNr, d.una) && !Due(e, 0, pt) ==> Retransmit(d, ackNr, 0, pt) == d
  {
    hide SeqBefore, Due;
    var q, una := d.txq, d.una;
    assert q[0] == e && q[1..] == [] && d.out + [] == d.out && [e] + [] == q;
    assert PassFilter(q[1..], una, ackNr, 0, pt) == [] && PassSends(q[1..], una, ackNr, 0, pt) == [];
  }

  lemma PassOneTimers(cfg: Config, c: Conn, opts: Options)
    requires Idle(c.(snd := c.snd.(txq := [])), opts) && opts.delayedAcks == 0
    ensures TimerPass(cfg, c, 0) == c.(snd := Retransmit(c.snd, c.rcv.cur, 0, opts.packetTimeout))
  {
    hide Retransmit;
  }

  lemma Acknowledged(cfg: Config, c: Conn, opts: Options, a: u16, b: u16, k: nat, p: Payload, d: Conn)
    requires Plain(cfg, opts, p) && SenderAt(c, opts, a, b, k, p) && d == UserSend(cfg, c, p, 0)
    ensures var e := RouteWork(cfg, d, Some(AckSeg(a, b, k + 1)), 0, 0, true);
            e == d.(snd := d.snd.(una := Wrap(a + 2 + k)))
  {
    hide SeqAcceptable, AckAcceptable, SeqBefore, Due, Retransmit, UserSend, TimerPass;
    SendsNext(cfg, c, opts, a, b, k, p);
    OneBefore(a + 1 + k);
    InTurn(d, opts.window, b, a, k + 1);
    WrapStep(a, k + 1);
    WrapSelf(b);
    var s := DataSeg(a, b, k + 1, p);
    NotDue(s, opts.packetTimeout);
    PassOne(d.snd, TxEntry(s, 0, 0), d.rcv.cur, opts.packetTimeout);
    PassOneTimers(cfg, d, opts);
  }

  lemma NotDue(s: Segment, pt: u32)
    requires pt < 0x8000_0000
    ensures !Due(TxEntry(s, 0, 0), 0, pt)
  {
  }

  lemma Frees(cfg: Config, c: Conn, opts: Options, a: u16, b: u16, k: nat, p: Payload, d: Conn)
    requires Plain(cfg, opts, p) && SenderAt(c, opts, a, b, k, p)
    requires d == UserSend(cfg, c, p, 0).(snd := UserSend(cfg, c, p, 0).snd.(una := Wrap(a + 2 + k)))
    ensures SenderAt(RouteWork(cfg, d, None, 0, 0, true), opts, a, b, k + 1, p)
  {
    hide SeqBefore, Due, Retransmit, UserSend, TimerPass;
    SendsNext(cfg, c, opts, a, b, k, p);
    OneBefore(a + 1 + k);
    PassOne(d.snd, TxEntry(DataSeg(a, b, k + 1, p), 0, 0), d.rcv.cur, opts.packetTimeout);
    PassOneTimers(cfg, d, opts);
  }

  // ---------------------------------------------------------------- the runs

  predicate CalmAt(y: Sys, opts: Options, a: u16, b: u16, k: nat, p: Payload) {
    SenderAt(y.a, opts, a, b, k, p) && ReceiverAt(y.b, opts, a, b, k, p)
  }

  /** After the handshake one timer pass of each side frees its retransmit queue. */
  lemma Settles(cfg: Config, c: Conn, opts: Options, iss: u16, peer: u16)
    requires Opened(c, opts, iss, peer) && opts.delayedAcks == 0
    ensures var d := RouteWork(cfg, c, None, 0, 0, true);
            && d.open && d.state == Open && !d.pending && d.handle == c.handle && d.opt == opts
            && d.rcv == c.rcv && d.snd == c.snd.(txq := [], out := d.snd.out)
  {
    hide PassSends, PassFilter;
    OneBefore(iss);
    WrapSelf(iss);
    AllFreed(c.snd.txq, c.snd.una, c.rcv.cur, 0, opts.packetTimeout);
  }

  lemma {:induction false} AllFreed(q: seq<TxEntry>, una: u16, ackNr: u16, now: u32, pt: u32)
    requires forall e <- q :: SeqBefore(e.seg.seqNr, una)
    ensures PassFilter(q, una, ackNr, now, pt) == []
    decreases q
  {
    hide SeqBefore, Due;
    if q != [] {
      assert q[0] in q;
      AllFreed(q[1..], una, ackNr, now, pt);
    }
  }

  /** A run that brings any number of equal payloads over, one by one. */
  lemma {:induction false} Rounds(cfg: Config, opts: Options, limit: nat, y: Sys, a: u16, b: u16, k: nat, p: Payload)
    returns (evs: seq<Event>, ys: seq<Sys>)
    requires Init(y) && Plain(cfg, opts, p) && k <= limit
    ensures IsRun(cfg, opts, limit, evs, ys) && ys[0] == y && CalmAt(Last(ys), opts, a, b, k, p)
    decreases k
  {
    if k == 0 {
      evs, ys := CanConnect(cfg, opts, limit, y, a, b);
      Settles(cfg, Last(ys).a, opts, a, b);
      Settles(cfg, Last(ys).b, opts, b, a);
      hide IsRun, RouteWork;
      evs, ys := Next(cfg, opts, limit, evs, ys, Event(A, Route(None, 0, 0, true)));
      evs, ys := Next(cfg, opts, limit, evs, ys, Event(B, Route(None, 0, 0, true)));
      WrapSelf(a);
    } else {
      evs, ys := Rounds(cfg, opts, limit, y, a, b, k - 1, p);
      evs, ys := Round(cfg, opts, limit, evs, ys, a, b, k - 1, p);
    }
  }

  /** One payload: sent, delivered, read, acknowledged and freed. */
  lemma Round(cfg: Config, opts: Options, limit: nat, evs: seq<Event>, ys: seq<Sys>, a: u16, b: u16, k: nat, p: Payload)
    returns (evs1: seq<Event>, ys1: seq<Sys>)
    requires IsRun(cfg, opts, limit, evs, ys) && Plain(cfg, opts, p) && CalmAt(Last(ys), opts, a, b, k, p) && k < limit
    ensures IsRun(cfg, opts, limit, evs1, ys1) && ys1[0] == ys[0] && CalmAt(Last(ys1), opts, a, b, k + 1, p)
  {
    hide RouteWork, UserSend, UserRead, SenderAt, ReceiverAt, DataSeg, AckSeg, TimerPass, Wrap;
    var c, d := Last(ys).a, Last(ys).b;
    var s := DataSeg(a, b, k + 1, p);
    SendsNext(cfg, c, opts, a, b, k, p);
    Receives(cfg, d, opts, a, b, k, p);
    Reads(cfg, RouteWork(cfg, d, Some(s), 0, 0, true), opts, a, b, k + 1, p);
    var c1 := UserSend(cfg, c, p, 0);
    Acknowledged(cfg, c, opts, a, b, k, p, c1);
    Frees(cfg, c, opts, a, b, k, p, c1.(snd := c1.snd.(una := Wrap(a + 2 + k))));
    Ordinary(opts, c, d, a, b, k, p);
    hide IsRun;
    evs1, ys1 := Next(cfg, opts, limit, evs, ys, Event(A, Send(p, 0)));
    evs1, ys1 := Next(cfg, opts, limit, evs1, ys1, Event(B, Route(Some(s), 0, 0, true)));
    evs1, ys1 := Next(cfg, opts, limit, evs1, ys1, Event(B, Read(0)));
    evs1, ys1 := Next(cfg, opts, limit, evs1, ys1, Event(A, Route(Some(AckSeg(a, b, k + 1)), 0, 0, true)));
    evs1, ys1 := Next(cfg, opts, limit, evs1, ys1, Event(A, Route(None, 0, 0, true)));
  }

  lemma Ordinary(opts: Options, c: Conn, d: Conn, a: u16, b: u16, k: nat, p: Payload)
    requires SenderAt(c, opts, a, b, k, p) && ReceiverAt(d, opts, a, b, k, p)
    ensures c.handle && d.handle && !DataSeg(a, b, k + 1, p).syn && !AckSeg(a, b, k + 1).syn && |c.snd.accepted| == k
  {
  }

  // ---------------------------------------------------------------- one payload too many

  /** The limit of ordered delivery is exact: as soon as more than 65535 payloads may be accepted, some run delivers
      what was never sent in that place. After 65536 payloads a duplicate of the first segment is next in turn, passes
      both range tests and is delivered again. */
  lemma OrderFailsBeyond(cfg: Config, opts: Options, limit: nat, y: Sys, a: u16, b: u16, p: Payload)
    returns (evs: seq<Event>, ys: seq<Sys>)
    requires Init(y) && Plain(cfg, opts, p) && limit > ORDER_LIMIT
    ensures IsRun(cfg, opts, limit, evs, ys) && ys[0] == y
    ensures !(Last(ys).b.rcv.delivered <= Last(ys).a.snd.accepted)
  {
    var k := ORDER_LIMIT + 1;
    evs, ys := Rounds(cfg, opts, limit, y, a, b, k, p);
    var s := DataSeg(a, b, 1, p);
    SameNumber(a, k);
    assert s == DataSeg(a, b, k + 1, p);
    Receives(cfg, Last(ys).b, opts, a, b, k, p);
    hide IsRun, RouteWork;
    evs, ys := Next(cfg, opts, limit, evs, ys, Event(B, Route(Some(s), 0, 0, true)));
    assert |Last(ys).b.rcv.delivered| == k + 1 && |Last(ys).a.snd.accepted| == k;
  }

  lemma SameNumber(a: u16, k: nat)
    requires k == 0x1_0000
    ensures Wrap(a + 1) == Wrap(a + (k + 1))
  {
  }

  // ---------------------------------------------------------------- an acknowledgement too old

  lemma OldAckNumbers(c: Conn, w: nat, a: u16, b: u16)
    requires c.opt.window == w && 1 <= w < 0x4000 && c.rcv.cur == b
    requires c.snd.una == Wrap(a + 2 + w) && c.snd.nxt == Wrap(a + 2 + w)
    ensures SeqAcceptable(c, Wrap(b + 1)) && AckAcceptable(c, Wrap(a + 1))
  {
    hide SeqBetween, Wrap;
    WrapSelf(b);
    BetweenIsInRange(b, 1, 1, 2 * w);
    BetweenIsInRange(a, 1, 1 - w, 1 + w);
    WrapModulo(a + 2 + w, -1 - w * 2);
    WrapModulo(a + 2 + w, -1);
    SameBetween(Wrap(a + 1), c.snd.una - 1 - c.opt.window * 2, c.snd.nxt - 1, a + (1 - w), a + (1 + w));
  }

  lemma WindowShut(a: u16, w: nat)
    requires 1 <= w < 0x4000
    ensures SeqAfter(Wrap(a + 2 + w), Wrap(a + 2) + w - 1)
  {
  }

  /** The acknowledgement of the first payload, arriving again after one payload more than the window holds, takes
      snd_una back and shuts the window. */
  lemma OldAckShuts(cfg: Config, c: Conn, opts: Options, a: u16, b: u16, p: Payload)
    requires Plain(cfg, opts, p) && SenderAt(c, opts, a, b, opts.window + 1, p)
    ensures var d := RouteWork(cfg, c, Some(AckSeg(a, b, 1)), 0, 0, true);
            d == c.(snd := c.snd.(una := Wrap(a + 2))) && !ReadyForTx(d)
  {
    hide SeqAcceptable, AckAcceptable, SeqAfter;
    PassIdle(cfg, c, opts);
    OldAckNumbers(c, opts.window, a, b);
    WrapStep(a, 1);
    WindowShut(a, opts.window);
  }

  /** Both ends open and held, everything delivered and acknowledged, nothing left to send again, and the window
      shut. */
  predicate Shut(y: Sys) {
    && y.a.state == Open && y.a.handle && y.b.state == Open && y.b.handle
    && y.b.rcv.delivered == y.a.snd.accepted && y.a.snd.txq == [] && y.b.snd.txq == [] && !ReadyForTx(y.a)
    && y.b.snd.accepted == [] && ReadyForTx(y.b)
    && y.a.opt.delayedAcks == 0 && y.b.opt.delayedAcks == 0
  }

  /** Without delayed acknowledgements a run can shut the sender's window for good. */
  lemma CanShut(cfg: Config, opts: Options, limit: nat, y: Sys, a: u16, b: u16, p: Payload)
    returns (evs: seq<Event>, ys: seq<Sys>)
    requires Init(y) && Plain(cfg, opts, p) && limit > opts.window
    ensures IsRun(cfg, opts, limit, evs, ys) && ys[0] == y && Shut(Last(ys))
    ensures forall x <- Last(ys).a.snd.accepted :: x != []
  {
    evs, ys := Rounds(cfg, opts, limit, y, a, b, opts.window + 1, p);
    OldAckShuts(cfg, Last(ys).a, opts, a, b, p);
    WindowOpen(b + 1, opts.window);
    assert ReadyForTx(Last(ys).b);
    hide IsRun, RouteWork, ReadyForTx;
    evs, ys := Next(cfg, opts, limit, evs, ys, Event(A, Route(Some(AckSeg(a, b, 1)), 0, 0, true)));
  }
}
