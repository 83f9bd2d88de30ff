/** What an endpoint does about losses and strays: when it acknowledges, what it sends again at once, and when it
    answers with a reset. */
module RdpAnswers {
  import opened Base
  import opened SeqNum
  import opened RdpModel
  import opened RdpSystem
  import opened RdpClose
  import opened RdpOrder
  import opened RdpAcks
  import opened RdpEffect
  import opened RdpRecover
  import opened RdpProgress
  import opened RdpHangup

  // ---------------------------------------------------------------- extended acknowledgements

  /** After an extended acknowledgement of all that waits at the receiver, the retransmit queue holds none of it, and
      all the rest. */
  lemma EackFreesHeld(q: seq<TxEntry>, r: Rcv, now: u32, pt: u32)
    requires |r.rxq| <= EACK_MAX
    ensures var left := EackFilter(q, EackList(r.rxq), now, pt);
            && (forall e <- left :: !exists t :: t in r.rxq && t.seqNr == e.seg.seqNr)
            && (forall e <- q :: (exists t :: t in r.rxq && t.seqNr == e.seg.seqNr)
                                 || exists x :: x in left && x.seg.seqNr == e.seg.seqNr)
  {
    var eacks := EackList(r.rxq);
    assert forall t <- r.rxq :: t.seqNr in eacks by {
      forall t | t in r.rxq ensures t.seqNr in eacks {
        var i :| 0 <= i < |r.rxq| && r.rxq[i] == t;
        assert eacks[i] == t.seqNr;
      }
    }
    NoneListed(q, eacks, now, pt);
    EackLeaves(q, eacks, now, pt);
  }

  lemma {:induction false} NoneListed(q: seq<TxEntry>, eacks: seq<u16>, now: u32, pt: u32)
    ensures forall e <- EackFilter(q, eacks, now, pt) :: e.seg.seqNr !in eacks
    decreases q
  {
    if q != [] {
      NoneListed(q[1..], eacks, now, pt);
    }
  }

  lemma {:induction false} TouchedStays(q: seq<TxEntry>, eacks: seq<u16>, now: u32, pt: u32, e: TxEntry)
    requires e in q && e.seg.seqNr !in eacks
    ensures Touch(e, eacks, now, pt) in EackFilter(q, eacks, now, pt)
    decreases q
  {
    hide Touch;
    if e != q[0] {
      TouchedStays(q[1..], eacks, now, pt, e);
    }
  }

  /** A gap is closed at once: an entry that is missing below a number the receiver has, and out of quarantine, is sent
      again by a timer pass at the same time. */
  lemma GapResent(q: seq<TxEntry>, eacks: seq<u16>, una: u16, ackNr: u16, now: u32, pt: u32, e: TxEntry, x: u16)
    requires e in q && e.seg.seqNr !in eacks && x in eacks && x > e.seg.seqNr && TimeAfter(now, e.quarantine)
    requires !SeqBefore(e.seg.seqNr, una)
    ensures e.seg.(ackNr := ackNr) in PassSends(EackFilter(q, eacks, now, pt), una, ackNr, now, pt)
  {
    var d := Touch(e, eacks, now, pt);
    assert AnyAbove(eacks, e.seg.seqNr);
    DueNow(e, now, pt);
    TouchedStays(q, eacks, now, pt, e);
    hide EackFilter, PassSends, Due, SeqBefore;
    SendsDue(EackFilter(q, eacks, now, pt), una, ackNr, now, pt, d);
  }

  lemma DueNow(e: TxEntry, now: u32, pt: u32)
    ensures Due(MadeDue(e, now, pt), now, pt)
  {
  }

  /** But only once in half a packet timeout, however many such acknowledgements arrive. */
  lemma GapQuarantined(e: TxEntry, eacks: seq<u16>, now: u32, pt: u32, later: u32)
    requires !TimeAfter(later, now + pt / 2)
    ensures Touch(MadeDue(e, now, pt), eacks, later, pt) == MadeDue(e, now, pt)
  {
    hide TimeAfter, AnyAbove;
    SameTime(later, now + pt / 2);
  }

  lemma SameTime(t: u32, x: int)
    ensures TimeAfter(t, Wrap32(x)) <==> TimeAfter(t, x)
  {
    assert (Wrap32(x) - t) % M32 == (x - t) % M32;
  }

  // ---------------------------------------------------------------- delayed acknowledgements

  /** With delayed acknowledgements and room for two windows, one is sent as soon as more segments than the count have
      come in since the last, and not before, unless the time has passed. */
  lemma AckAfterCount(cfg: Config, c: Conn, now: u32, n: nat)
    requires c.opt.delayedAcks != 0 && c.opt.window < 0x4000 && cfg.inboxLen - |c.rcv.inbox| > 2 * c.opt.window
    requires c.opt.ackDelayCount < 0x4000 && n < 0x4000 && c.rcv.cur == Wrap(c.rcvLsa + n)
    ensures CheckAck(cfg, c, now)
         == if n > c.opt.ackDelayCount || TimeAfter(now, c.ackTimestamp + c.opt.ackTimeout)
            then SendCmp(cfg, c, Ack(c), now) else c
  {
    hide Wrap, SeqBefore, SendCmp, TimeAfter;
    BeforeIsLess(c.rcvLsa, c.opt.ackDelayCount, n);
    SameBefore(c.rcvLsa + c.opt.ackDelayCount, c.rcvLsa + c.opt.ackDelayCount, c.rcv.cur);
  }

  /** Reading makes room: the acknowledgement that was held back for want of it is sent by the read that makes it. */
  lemma ReadAcks(cfg: Config, c: Conn, now: u32)
    requires c.open && c.opt.delayedAcks != 0 && c.opt.window < 0x4000 && c.rcv.inbox != []
    requires cfg.inboxLen - |c.rcv.inbox| == 2 * c.opt.window && TimeAfter(now, c.ackTimestamp + c.opt.ackTimeout)
    ensures CheckAck(cfg, c, now) == c
    ensures UserRead(cfg, c, now).snd.out == c.snd.out + [Ack(c)] && UserRead(cfg, c, now).rcv == RcvPop(c.rcv)
  {
  }

  /** An acknowledgement is not repeated: unless something new comes in, the next one has to wait for its time. */
  lemma AckNotRepeated(cfg: Config, c: Conn, now: u32, later: u32)
    requires c.opt.delayedAcks != 0 && c.opt.ackDelayCount < 0x8000 && !TimeAfter(later, now + c.opt.ackTimeout)
    ensures var d := SendCmp(cfg, c, Ack(c), now); CheckAck(cfg, d, later) == d
    ensures Ack(c) == Segment(false, true, false, false, c.snd.nxt, c.rcv.cur, [], [], NO_OPTS)
  {
    hide TimeAfter;
  }

  // ---------------------------------------------------------------- the reorder queue

  /** Emptying the reorder queue never takes the last two places of the connection's queue. */
  lemma {:induction false} FlushLeavesRoom(cfg: Config, r: Rcv, i: nat)
    requires i <= |r.rxq|
    ensures var f := RxFlush(cfg, r, i); |f.inbox| == |r.inbox| || |f.inbox| + 2 <= cfg.inboxLen
    decreases |r.rxq|, i
  {
    if i == 0 || cfg.inboxLen - |r.inbox| <= 2 {
    } else if r.rxq[0].seqNr == Wrap(r.cur + 1) {
      FlushLeavesRoom(cfg, Deliver(cfg, r.(rxq := r.rxq[1..]), r.rxq[0].data).(cur := Wrap(r.cur + 1)), |r.rxq| - 1);
    } else {
      FlushLeavesRoom(cfg, r.(rxq := r.rxq[1..] + [r.rxq[0]]), i - 1);
    }
  }

  /** Data ahead of its turn is queued once: a number that already waits changes nothing in the queue and draws no
      extended acknowledgement; another one is queued and the sender told at once of all that waits. */
  lemma QueuedOnce(cfg: Config, c: Conn, s: Segment, now: u32)
    requires s.seqNr != Wrap(c.rcv.cur + 1) && |c.rcv.rxq| < 2 * cfg.maxWindow
    ensures var d := RecvData(cfg, c, s, now);
            if exists t :: t in c.rcv.rxq && t.seqNr == s.seqNr
            then multiset(d.rcv.rxq) == multiset(c.rcv.rxq) && d == CheckAck(cfg, c.(rcv := d.rcv), now)
            else multiset(d.rcv.rxq) == multiset(c.rcv.rxq) + multiset{s} && d.snd.out == c.snd.out + [Eack(d)]
                 && d.rcv == c.rcv.(rxq := d.rcv.rxq)
  {
    hide CheckAck, ScanRx, EackList;
    var (found, q) := ScanRx(c.rcv.rxq, s.seqNr, |c.rcv.rxq|);
    ScanRxKeeps(c.rcv.rxq, s.seqNr, |c.rcv.rxq|);
    ScanFinds(c.rcv.rxq, s.seqNr, |c.rcv.rxq|);
    AckKeepsRcv(cfg, c.(rcv := c.rcv.(rxq := q)), now);
  }

  lemma AckKeepsRcv(cfg: Config, c: Conn, now: u32)
    ensures CheckAck(cfg, c, now).rcv == c.rcv
  {
  }

  // ---------------------------------------------------------------- what is sent again, and when

  /** What a timer pass sends again is not sent once more before the packet timeout has passed. */
  lemma {:induction false} ResentOnce(q: seq<TxEntry>, una: u16, a: u16, b: u16, now: u32, later: u32, pt: u32)
    requires (forall e <- q :: Due(e, now, pt)) && !TimeAfter(later, now + pt)
    ensures PassSends(PassFilter(q, una, a, now, pt), una, b, later, pt) == []
    decreases q
  {
    hide SeqBefore;
    if q != [] {
      ResentOnce(q[1..], una, a, b, now, later, pt);
      var rest := PassFilter(q[1..], una, a, now, pt);
      assert ([q[0].(seg := q[0].seg.(ackNr := a), sentAt := now)] + rest)[1..] == rest;
    }
  }

  /** A payload that was taken is not sent again before the packet timeout has passed, and then it is. */
  lemma SentAgainInTime(cfg: Config, c: Conn, data: Payload, now: u32, later: u32)
    requires SendOutcome(cfg, c, data) == Sent && |c.snd.txq| < 2 * cfg.maxWindow
    ensures var q := UserSend(cfg, c, data, now).snd.txq;
            var e := q[|c.snd.txq|];
            && |q| == |c.snd.txq| + 1
            && e.seg.seqNr == c.snd.nxt && e.seg.ackNr == c.rcv.cur && e.seg.data == data && e.seg.ack && !e.seg.syn
            && (Due(e, later, c.opt.packetTimeout) <==> TimeAfter(later, now + c.opt.packetTimeout))
  {
    hide TimeAfter, SendOutcome;
  }

  /** A SYN that gets no answer is sent again by the first timer pass after the packet timeout, and not before. */
  lemma SynRepeated(cfg: Config, c: Conn, opts: Options, now: u32, iss: u16, later: u32)
    requires CtlOk(c) && !c.open && c.snd.txq == [] && cfg.maxWindow > 0 && opts.delayedAcks == 0 && c.rcv.rxq == []
    ensures var d := ConnectStart(cfg, c, opts, now, iss);
            && d.snd.out == c.snd.out + [Segment(true, false, false, false, iss, 0, [], [], opts)]
            && TimerPass(cfg, d, later).snd.out
               == d.snd.out + if TimeAfter(later, now + opts.packetTimeout)
                              then [Segment(true, false, false, false, iss, c.rcv.cur, [], [], opts)] else []
  {
    hide TimeAfter;
    var d := ConnectStart(cfg, c, opts, now, iss);
    var e := TxEntry(Syn(opts, iss), now, cfg.junk);
    assert d.snd.txq == [] + [e] == [e] && [e][1..] == [];
    var a, pt := d.rcv.cur, opts.packetTimeout;
    assert PassSends([], iss, a, later, pt) == [];
    assert PassSends([e], iss, a, later, pt) == if Due(e, later, pt) then [e.seg.(ackNr := a)] else [];
  }

  /** A SYN/ACK that was lost is sent again when the peer repeats itself with anything out of turn. */
  lemma SynAckRepeated(cfg: Config, c: Conn, s: Segment, now: u32, iss: u16, sockOk: bool)
    requires c.state == SynRcvd && !s.rst && !s.syn && s.ack && !SeqAcceptable(c, s.seqNr)
    ensures var d := NewPacket(cfg, c, s, now, iss, sockOk);
            && d.state == SynRcvd && d.pending == c.pending
            && d.snd.out == c.snd.out + [Segment(true, true, false, false, c.snd.iss, c.rcv.irs, [], [], NO_OPTS)]
  {
    hide SeqAcceptable;
  }

  // ---------------------------------------------------------------- resets

  /** A segment that belongs to no connection is answered with a reset, and leaves the slot closed. */
  lemma StrayAnswered(cfg: Config, c: Conn, s: Segment, now: u32, iss: u16, sockOk: bool)
    requires CtlOk(c) && !c.open && c.listening && !s.syn && !s.rst
    ensures var d := RoutePacket(cfg, c, s, now, iss, sockOk);
            && !d.open && d.state == Closed
            && d.snd.out == c.snd.out + [Segment(false, false, false, true, c.snd.nxt, c.rcv.cur, [], [], NO_OPTS)]
  {
  }

  /** A peer that takes the connection for open, while this side is still connecting, is told by a reset. */
  lemma HalfOpenAnswered(cfg: Config, c: Conn, s: Segment, now: u32, iss: u16, sockOk: bool)
    requires c.open && c.state == SynSent && s.ack && !s.syn && !s.rst
    ensures var g := Segment(false, false, false, true, c.snd.nxt, c.rcv.cur, [], [], NO_OPTS);
            NewPacket(cfg, c, s, now, iss, sockOk) == c.(snd := c.snd.(out := c.snd.out + [g]))
  {
  }

  /** A side that is closing answers every acceptable acknowledgement with its reset again, so that a reset that was
      lost is repeated as long as the peer goes on. */
  lemma ResetRepeated(cfg: Config, c: Conn, s: Segment, now: u32, iss: u16, sockOk: bool)
    requires c.open && c.state == CloseWait && !s.syn && !s.rst && s.ack && AckAcceptable(c, s.ackNr)
    ensures var d := NewPacket(cfg, c, s, now, iss, sockOk);
            d.state == CloseWait && d.snd.out == c.snd.out + [AckRst(c)] && d.snd.una == Wrap(s.ackNr + 1)
  {
    hide AckAcceptable;
  }

  /** A SYN that comes a second time draws no second answer: it is ignored, before and after the connection opens. The
      first answer is sent again by the timer pass. */
  lemma SecondSynIgnored(cfg: Config, c: Conn, s: Segment, now: u32, iss: u16, sockOk: bool)
    requires (c.state == SynRcvd || c.state == Open) && s.syn && !s.rst && s.seqNr == c.rcv.irs
    ensures NewPacket(cfg, c, s, now, iss, sockOk) == c
  {
  }

  /** A SYN, or a segment without an acknowledgement, on a connection that is open is ignored if it repeats the SYN the
      connection began with, and closes the connection with a reset otherwise. */
  lemma OddSegment(cfg: Config, c: Conn, s: Segment, now: u32, iss: u16, sockOk: bool)
    requires CtlOk(c) && c.state == Open && !c.pending && !s.rst && (s.syn || !s.ack)
    ensures var d := NewPacket(cfg, c, s, now, iss, sockOk);
            if s.seqNr == c.rcv.irs then d == c
            else d.open && d.state == CloseWait && d.closedBy == {Protocol} && d.snd.out == c.snd.out + [AckRst(c)]
                 && d.timestamp == now
  {
    AllClosers({Protocol});
    assert {} + {Protocol} == {Protocol};
  }

  /** A handshake that ends while the socket has no room is refused: no handle, and the peer is told. Its user counts
      as one who has closed. */
  lemma SocketFull(cfg: Config, c: Conn, s: Segment, now: u32, iss: u16)
    requires CtlOk(c) && c.state == SynRcvd && c.pending && !s.rst && !s.syn && s.ack && s.ackNr == c.snd.iss
    requires SeqAcceptable(c, s.seqNr) && AckAcceptable(c, s.ackNr)
    ensures var d := NewPacket(cfg, c, s, now, iss, false);
            && d.state == CloseWait && d.open && !d.handle && d.closedBy == {Protocol, Userspace}
            && d.snd.out == c.snd.out + [AckRst(c)] && d.rcv == c.rcv
  {
    hide SeqAcceptable, AckAcceptable;
    AllClosers({Protocol} + {Userspace});
    assert {} + ({Protocol} + {Userspace}) == {Protocol, Userspace};
  }

  /** With room, it is handed to the socket. */
  lemma SocketTakes(cfg: Config, c: Conn, s: Segment, now: u32, iss: u16)
    requires CtlOk(c) && c.state == SynRcvd && c.pending && !s.rst && !s.syn && s.ack
    requires SeqAcceptable(c, s.seqNr) && AckAcceptable(c, s.ackNr) && s.data == [] && !s.eak
    ensures var d := NewPacket(cfg, c, s, now, iss, true);
            if s.ackNr == c.snd.iss then d.state == Open && d.handle && !d.pending && d.snd.una == Wrap(c.snd.iss + 1)
            else d.state == CloseWait && !d.handle && d.snd.out == c.snd.out + [AckRst(c)]
  {
    hide SeqAcceptable, AckAcceptable;
    AllClosers({Protocol} + {Userspace});
    assert {} + ({Protocol} + {Userspace}) == {Protocol, Userspace};
  }

  /** A handshake that nobody finishes is given up after the connection timeout, and the peer is told. */
  lemma HalfOpenGivenBack(cfg: Config, c: Conn, now: u32)
    requires CtlOk(c) && c.state == SynRcvd && c.pending
    ensures var d := TimerPass(cfg, c, now);
            ConnExpired(c, now) ==> GivenBack(d) && d.snd.out == c.snd.out + [AckRst(c)]
    ensures !ConnExpired(c, now) ==> TimerPass(cfg, c, now).open
  {
    hide ConnExpired, Retransmit, RxFlush;
    AllClosers(c.closedBy + ALL_CLOSERS);
  }

  /** From the SYN on: whoever asks for a connection and falls silent has its slot until the connection timeout of the
      SYN has passed since, and no longer. */
  lemma SilentAfterSyn(cfg: Config, c: Conn, opts: Options, t0: u32, t1: u32, peer: u16, iss: u16)
    requires CtlOk(c) && !c.open && c.listening
    ensures var d := RoutePacket(cfg, c, Syn(opts, peer), t0, iss, true);
            && d.open && d.state == SynRcvd && d.pending
            && (if TimeAfter(t1, t0 + opts.connTimeout) then GivenBack(TimerPass(cfg, d, t1))
                else TimerPass(cfg, d, t1).open)
  {
    hide TimerPass, TimeAfter;
    var d := RoutePacket(cfg, c, Syn(opts, peer), t0, iss, true);
    assert d.state == SynRcvd && d.timestamp == t0 && d.opt == opts;
    ReopenCtl(cfg, c, Syn(opts, peer), t0, iss, true);
    HalfOpenGivenBack(cfg, d, t1);
  }

  /** A connect that is not answered leaves no handle, and its slot is given back by the first timer pass after the
      connection timeout. */
  lemma FailedConnect(cfg: Config, c: Conn, now: u32, later: u32)
    requires CtlOk(c) && c.connecting && c.state == SynSent && !c.pending
    ensures var d := ConnectEnd(cfg, c, false, now);
            && !d.handle && !d.connecting && d.open && d.state == CloseWait
            && (TimeAfter(later, now + c.opt.connTimeout) ==> GivenBack(TimerPass(cfg, d, later)))
  {
    hide TimerPass, TimeAfter;
    AllClosers({Protocol});
    AllClosers({Protocol, Userspace});
    var c1 := CloseInternal(cfg, c, {Protocol}, false, now).0;
    assert c1.closedBy == {Protocol} && {Protocol} + {Userspace} == {Protocol, Userspace};
    var d := ConnectEnd(cfg, c, false, now);
    ConnectEndCtl(cfg, c, false, now);
    PassGivesBack(cfg, d, later);
  }
}
