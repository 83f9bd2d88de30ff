/** What a step of the transport does to the numbers and the retransmit queue of the send side. */
module RdpEffect {
  import opened SeqNum
  import opened RdpModel
  import opened RdpSystem
  import opened RdpClose
  import opened RdpHonest

  /** Apart from segments sent, the send side is as before. */
  predicate Quiet(c: Conn, d: Conn) {
    && d.state == c.state && d.opt == c.opt && d.snd == c.snd.(out := d.snd.out)
  }

  /** As before, but perhaps on the way out; a closed connection has given up its queue. */
  predicate Closing(c: Conn, d: Conn) {
    && d.opt == c.opt && (d.state == CloseWait || d.state == Closed)
    && d.snd.started == c.snd.started && d.snd.iss == c.snd.iss && d.snd.una == c.snd.una
    && d.snd.accepted == c.snd.accepted
    && (d.state != Closed ==> d.snd.txq == c.snd.txq)
  }

  /** What one segment may do to an open connection: move the acknowledged number to where the segment says,
      drop what it acknowledges selectively, and open or close the connection. */
  predicate PacketEffect(c: Conn, s: Segment, d: Conn, now: u32) {
    && d.opt == c.opt && d.snd.started == c.snd.started && d.snd.iss == c.snd.iss
    && d.snd.accepted == c.snd.accepted
    && (d.snd.una == c.snd.una || (s.ack && d.snd.una == Wrap(s.ackNr + 1)))
    && (d.state == Open && d.snd.una == c.snd.una ==> c.state == Open || (s.ack && d.snd.una == Wrap(s.ackNr + 1)))
    && (d.state == SynSent || d.state == SynRcvd ==> d.state == c.state)
    && (c.state == CloseWait ==> d.state == CloseWait || d.state == Closed)
    && (d.state == Closed || d.snd.txq == c.snd.txq ||
        (s.eak && c.snd.started && d.snd.txq == EackFilter(c.snd.txq, s.eacks, now, c.opt.packetTimeout)))
  }

  lemma CheckAckQuiet(cfg: Config, c: Conn, now: u32)
    ensures Quiet(c, CheckAck(cfg, c, now))
  {
  }

  lemma RecvAheadQuiet(cfg: Config, c: Conn, s: Segment, now: u32)
    ensures Quiet(c, RecvAhead(cfg, c, s, now))
  {
    hide ScanRx, CheckAck, SendCmp, RxAdd, EackList;
    var (found, q) := ScanRx(c.rcv.rxq, s.seqNr, |c.rcv.rxq|);
    var c1 := c.(rcv := c.rcv.(rxq := q));
    var c2 := c1.(rcv := RxAdd(cfg, c1.rcv, s));
    CheckAckQuiet(cfg, c1, now);
    SendCmpQuiet(cfg, c2, Eack(c2), now);
  }

  lemma RecvInOrderQuiet(cfg: Config, c: Conn, s: Segment, now: u32)
    ensures Quiet(c, RecvInOrder(cfg, c, s, now))
  {
    hide CheckAck, Deliver, RxFlush;
    CheckAckQuiet(cfg, c.(rcv := Deliver(cfg, c.rcv, s.data).(cur := s.seqNr)), now);
  }

  lemma SendCmpQuiet(cfg: Config, c: Conn, s: Segment, now: u32)
    requires !s.syn
    ensures Quiet(c, SendCmp(cfg, c, s, now)) && SendCmp(cfg, c, s, now).open == c.open
  {
  }

  lemma RstQuiet(cfg: Config, c: Conn, now: u32)
    ensures Quiet(c, SendCmp(cfg, c, AckRst(c), now))
  {
  }

  lemma CloseInternalEffect(cfg: Config, c: Conn, who: set<Closer>, rst: bool, now: u32)
    ensures Closing(c, CloseInternal(cfg, c, who, rst, now).0)
    ensures CloseInternal(cfg, c, who, rst, now).1 <==> CloseInternal(cfg, c, who, rst, now).0.state != Closed
  {
    hide SendCmp, AckRst;
    if c.state != Closed {
      var c1 := c.(closedBy := c.closedBy + who, closeLog := c.closeLog + who);
      var w := c1.(state := CloseWait, timestamp := now);
      RstQuiet(cfg, w, now);
      var c2 := if c.state == CloseWait then c1 else if rst then SendCmp(cfg, w, AckRst(w), now) else w;
      assert CloseInternal(cfg, c, who, rst, now)
          == if c2.closedBy != ALL_CLOSERS then (c2, true) else (c2.(state := Closed, closedBy := {}), false);
    }
  }

  lemma ConnCloseEffect(cfg: Config, c: Conn, who: set<Closer>, now: u32)
    requires c.open
    ensures Closing(c, ConnClose(cfg, c, who, now))
  {
    CloseInternalEffect(cfg, c, who, true, now);
  }

  lemma DiscardCloseEffect(cfg: Config, c: Conn, who: set<Closer>, now: u32)
    requires c.open
    ensures Closing(c, DiscardClose(cfg, c, who, now))
  {
    ConnCloseEffect(cfg, c, if c.pending then who + {Userspace} else who, now);
  }

  lemma RecvAcceptedEffect(cfg: Config, c: Conn, s: Segment, now: u32)
    requires c.state == Open && s.ack && c.snd.started
    ensures PacketEffect(c, s, RecvAccepted(cfg, c, s, now), now)
    ensures RecvAccepted(cfg, c, s, now).state == Open
    ensures RecvAccepted(cfg, c, s, now).snd.una == Wrap(s.ackNr + 1)
  {
    var c1 := TakeAck(c, s);
    if s.eak || s.data == [] {
    } else if s.seqNr != Wrap(c.rcv.cur + 1) {
      assert RecvAccepted(cfg, c, s, now) == RecvAhead(cfg, c1, s, now);
      RecvAheadQuiet(cfg, c1, s, now);
    } else {
      assert RecvAccepted(cfg, c, s, now) == RecvInOrder(cfg, c1, s, now);
      RecvInOrderQuiet(cfg, c1, s, now);
    }
  }

  lemma AnswerRstEffect(cfg: Config, c: Conn, now: u32)
    requires c.open
    ensures Closing(c, AnswerRst(cfg, c, now))
  {
    var c1 := c.(state := CloseWait, timestamp := now);
    SendCmpQuiet(cfg, c1, AckRst(c1), now);
    DiscardCloseEffect(cfg, SendCmp(cfg, c1, AckRst(c1), now), {Protocol, Timeout}, now);
  }

  lemma RecvRstEffect(cfg: Config, c: Conn, s: Segment, now: u32)
    requires c.open && c.state != Closed
    ensures PacketEffect(c, s, RecvRst(cfg, c, s, now), now)
  {
    var c1 := if s.ack then TakeAck(c, s) else c;
    if c.state == CloseWait {
      DiscardCloseEffect(cfg, c1, if s.ack then {Protocol, Timeout} else {Protocol}, now);
    } else if s.seqNr == c.rcv.cur + 1 {
      AnswerRstEffect(cfg, c1, now);
    }
  }

  lemma RecvOpenEffect(cfg: Config, c: Conn, s: Segment, now: u32, sockOk: bool)
    requires c.open && (c.state == SynRcvd || c.state == Open) && c.snd.started && NoSecondSyn(c, s) && !s.rst
    ensures PacketEffect(c, s, RecvOpen(cfg, c, s, now, sockOk), now)
  {
    if s.syn || !s.ack {
      DiscardCloseEffect(cfg, c, {Protocol}, now);
    } else if SeqAcceptable(c, s.seqNr) && AckAcceptable(c, s.ackNr) {
      if c.state == Open {
        RecvAcceptedEffect(cfg, c, s, now);
      } else if s.ackNr != c.snd.iss {
        DiscardCloseEffect(cfg, c, {Protocol}, now);
      } else if c.pending && !sockOk {
        DiscardCloseEffect(cfg, c.(state := Open), {Protocol}, now);
      } else {
        RecvAcceptedEffect(cfg, HandOver(c), s, now);
      }
    }
  }

  lemma NewPacketEffect(cfg: Config, c: Conn, s: Segment, now: u32, iss: u16, sockOk: bool)
    requires c.open && CtlOk(c) && NoSecondSyn(c, s)
    ensures PacketEffect(c, s, NewPacket(cfg, c, s, now, iss, sockOk), now)
  {
    if s.rst {
      RecvRstEffect(cfg, c, s, now);
    } else if c.state == SynSent {
      DiscardCloseEffect(cfg, c, {Protocol}, now);
    } else if c.state == SynRcvd || c.state == Open {
      RecvOpenEffect(cfg, c, s, now, sockOk);
    }
  }

  /** The timer pass: unless the connection is on its way out, the retransmit queue is gone through. */
  lemma CheckTimeoutsEffect(cfg: Config, c: Conn, now: u32)
    requires c.open && CtlOk(c)
    ensures var d := CheckTimeouts(cfg, c, now);
            Closing(c, d) ||
            (d.state == c.state && d.opt == c.opt &&
             d.snd == Retransmit(c.snd, c.rcv.cur, now, c.opt.packetTimeout).(out := d.snd.out))
  {
    if c.pending && ConnExpired(c, now) {
      ConnCloseEffect(cfg, c, ALL_CLOSERS, now);
    } else if c.state != CloseWait {
      CheckAckQuiet(cfg, c.(snd := Retransmit(c.snd, c.rcv.cur, now, c.opt.packetTimeout)), now);
    } else if ConnExpired(c, now) {
      ConnCloseEffect(cfg, c, {Protocol, Timeout}, now);
    }
  }

  /** The in-sequence test of a reset is made without wrapping: an in-sequence reset closes the connection exactly
      if the last number received was not 0xFFFF. Otherwise nothing but its acknowledgement, if it has one, is taken. */
  lemma ResetMissesTheWrap(cfg: Config, c: Conn, s: Segment, now: u32)
    requires c.open && (c.state == SynRcvd || c.state == Open) && s.rst && s.seqNr == Wrap(c.rcv.cur + 1)
    ensures RecvRst(cfg, c, s, now).state == c.state <==> c.rcv.cur == 0xFFFF
    ensures c.rcv.cur == 0xFFFF ==> RecvRst(cfg, c, s, now) == if s.ack then TakeAck(c, s) else c
    ensures c.rcv.cur != 0xFFFF ==> Closing(if s.ack then TakeAck(c, s) else c, RecvRst(cfg, c, s, now))
  {
    AnswerRstEffect(cfg, if s.ack then TakeAck(c, s) else c, now);
  }
}
