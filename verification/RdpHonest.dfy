/** Every routine keeps the endpoint's traffic honest. */
module RdpHonest {
  import opened SeqNum
  import opened RdpModel
  import opened RdpSystem
  import opened RdpClose
  import opened RdpOrder
  import opened RdpAcks

  /** What a routine leaves behind: honest traffic, and no number the receiver had is lost while it is open. */
  predicate Keeps(w: nat, c: Conn, d: Conn) {
    Honest(w, d) && (d.state != Closed ==> Grows(c.rcv, d.rcv))
  }

  lemma FlushHonest(w: nat, c: Conn)
    requires Honest(w, c) && c.state == Closed
    ensures Honest(w, Flush(c))
  {
  }

  lemma SameHonest(w: nat, c: Conn, d: Conn)
    requires Honest(w, c) && d.listening == c.listening && d.rcv == c.rcv
    requires d.snd == c.snd.(una := d.snd.una)
    requires c.state == Closed ==> d.state == Closed
    ensures Honest(w, d)
  {
  }

  lemma CloseInternalHonest(cfg: Config, w: nat, c: Conn, who: set<Closer>, rst: bool, now: u32,
                            iss: u16, acc: seq<Payload>)
    requires Honest(w, c) && Fits(c, iss, acc)
    requires c.rcv.synced || c.state == CloseWait || c.state == Closed || !rst
    ensures Honest(w, CloseInternal(cfg, c, who, rst, now).0)
  {
    hide Honest, ReceiverOk, SenderOk, SendCmp;
    if c.state != Closed {
      var c1 := c.(closedBy := c.closedBy + who, closeLog := c.closeLog + who);
      var v := c1.(state := CloseWait, timestamp := now);
      SameHonest(w, c, c1);
      SameHonest(w, c, v);
      var c2 := if c.state == CloseWait then c1 else v;
      if c.state != CloseWait && rst {
        AckHonest(cfg, w, v, now, iss, acc);
        c2 := SendCmp(cfg, v, AckRst(v), now);
      }
      SameHonest(w, c2, c2.(state := Closed, closedBy := {}));
    }
  }

  lemma ConnCloseHonest(cfg: Config, w: nat, c: Conn, who: set<Closer>, now: u32, iss: u16, acc: seq<Payload>)
    requires Honest(w, c) && Fits(c, iss, acc)
    requires c.rcv.synced || c.state == CloseWait || c.state == Closed
    ensures Keeps(w, c, ConnClose(cfg, c, who, now))
  {
    if c.open {
      CloseInternalHonest(cfg, w, c, who, true, now, iss, acc);
      CloseInternalOk(cfg, c, who, true, iss, acc, now);
      var (d, again) := CloseInternal(cfg, c, who, true, now);
      if !again {
        FlushHonest(w, d);
      }
    }
  }

  lemma DiscardCloseHonest(cfg: Config, w: nat, c: Conn, who: set<Closer>, now: u32, iss: u16, acc: seq<Payload>)
    requires Honest(w, c) && Fits(c, iss, acc)
    requires c.rcv.synced || c.state == CloseWait || c.state == Closed
    ensures Keeps(w, c, DiscardClose(cfg, c, who, now))
  {
    if c.pending {
      ConnCloseHonest(cfg, w, c, who + {Userspace}, now, iss, acc);
    } else {
      ConnCloseHonest(cfg, w, c, who, now, iss, acc);
      var d := ConnClose(cfg, c, who, now);
      GrowsHonest(w, d, d.(rcv := WakeReader(cfg, d.rcv)));
    }
  }

  lemma NothingToFlush(cfg: Config, r: Rcv)
    ensures Grows(r, RxFlush(cfg, r, 0))
  {
  }

  lemma MessageTimersHonest(cfg: Config, w: nat, c: Conn, now: u32, iss: u16, acc: seq<Payload>)
    requires Honest(w, c) && Fits(c, iss, acc) && c.state != CloseWait
    ensures Keeps(w, c, MessageTimers(cfg, c, now))
  {
    hide Retransmit, RxFlush, Honest, SenderOk, ReceiverOk, Grows;
    RetransmitHonest(w, c, now, iss, acc);
    RetransmitOk(c.snd, c.rcv.cur, now, c.opt.packetTimeout);
    var c1 := c.(snd := Retransmit(c.snd, c.rcv.cur, now, c.opt.packetTimeout));
    if c1.state == Open {
      CheckAckHonest(cfg, w, c1, now, iss, acc);
    }
    var c2 := if c1.state == Open && c1.opt.delayedAcks != 0 then CheckAck(cfg, c1, now) else c1;
    assert c2.rcv == c.rcv && c2.state == c.state;
    if c.rcv.rxq != [] {
      RxFlushGrows(cfg, c.rcv, iss, acc, |c.rcv.rxq|);
    } else {
      NothingToFlush(cfg, c.rcv);
    }
    GrowsHonest(w, c2, c2.(rcv := RxFlush(cfg, c2.rcv, |c2.rcv.rxq|)));
  }

  lemma CheckTimeoutsHonest(cfg: Config, w: nat, c: Conn, now: u32, iss: u16, acc: seq<Payload>)
    requires Honest(w, c) && Fits(c, iss, acc) && CtlOk(c)
    ensures Keeps(w, c, CheckTimeouts(cfg, c, now))
  {
    if c.pending && ConnExpired(c, now) {
      ConnCloseHonest(cfg, w, c, ALL_CLOSERS, now, iss, acc);
    } else if c.state != CloseWait {
      MessageTimersHonest(cfg, w, c, now, iss, acc);
    } else {
      ConnCloseHonest(cfg, w, c, {Protocol, Timeout}, now, iss, acc);
    }
  }

  lemma AnswerRstHonest(cfg: Config, w: nat, c: Conn, now: u32, iss: u16, acc: seq<Payload>)
    requires Honest(w, c) && Fits(c, iss, acc) && c.state != Closed && c.rcv.synced
    ensures Keeps(w, c, AnswerRst(cfg, c, now))
  {
    var c1 := c.(state := CloseWait, timestamp := now);
    SameHonest(w, c, c1);
    AckHonest(cfg, w, c1, now, iss, acc);
    SendCmpOk(cfg, c1, iss, acc, AckRst(c1), now);
    DiscardCloseHonest(cfg, w, SendCmp(cfg, c1, AckRst(c1), now), {Protocol, Timeout}, now, iss, acc);
  }

  lemma RecvRstHonest(cfg: Config, w: nat, c: Conn, s: Segment, now: u32, iss: u16, acc: seq<Payload>)
    requires Honest(w, c) && Fits(c, iss, acc) && (c.rcv.synced || c.state == Closed)
    ensures Keeps(w, c, RecvRst(cfg, c, s, now))
  {
    var c1 := if s.ack then TakeAck(c, s) else c;
    SameHonest(w, c, c1);
    TakeAckOk(c, s, iss, acc);
    if c.state == CloseWait {
      DiscardCloseHonest(cfg, w, c1, if s.ack then {Protocol, Timeout} else {Protocol}, now, iss, acc);
    } else if c.state != Closed && s.seqNr == c.rcv.cur + 1 {
      AnswerRstHonest(cfg, w, c1, now, iss, acc);
    }
  }

  lemma RecvAheadHonest(cfg: Config, w: nat, c: Conn, s: Segment, now: u32, iss: u16, acc: seq<Payload>)
    requires Honest(w, c) && Fits(c, iss, acc) && c.state == Open && CarriesItsPayload(iss, acc, s)
    ensures Keeps(w, c, RecvAhead(cfg, c, s, now))
  {
    ScanRxOk(c.rcv, iss, acc, s.seqNr);
    ScanRxGrows(c.rcv, s.seqNr);
    var (found, q) := ScanRx(c.rcv.rxq, s.seqNr, |c.rcv.rxq|);
    var c1 := c.(rcv := c.rcv.(rxq := q));
    GrowsHonest(w, c, c1);
    if found {
      CheckAckHonest(cfg, w, c1, now, iss, acc);
    } else {
      StoreHonest(cfg, w, c1, s, now, iss, acc);
    }
  }

  lemma StoreHonest(cfg: Config, w: nat, c: Conn, s: Segment, now: u32, iss: u16, acc: seq<Payload>)
    requires Honest(w, c) && Fits(c, iss, acc) && c.state == Open && CarriesItsPayload(iss, acc, s)
    ensures var d := c.(rcv := RxAdd(cfg, c.rcv, s)); Keeps(w, c, SendCmp(cfg, d, Eack(d), now))
  {
    RxAddGrows(cfg, c.rcv, s);
    var d := c.(rcv := RxAdd(cfg, c.rcv, s));
    assert ReceiverOk(d.rcv, iss, acc);
    GrowsHonest(w, c, d);
    AckHonest(cfg, w, d, now, iss, acc);
  }

  lemma RecvInOrderHonest(cfg: Config, w: nat, c: Conn, s: Segment, now: u32, iss: u16, acc: seq<Payload>)
    requires Honest(w, c) && Fits(c, iss, acc) && c.state == Open && CarriesItsPayload(iss, acc, s)
    requires s.seqNr == Wrap(c.rcv.cur + 1)
    ensures Keeps(w, c, RecvInOrder(cfg, c, s, now))
  {
    if |c.rcv.inbox| < cfg.inboxLen {
      DeliverOk(cfg, c.rcv, iss, acc, s);
      DeliverGrows(cfg, c.rcv, iss, acc, c.rcv.rxq, s);
      var c1 := c.(rcv := Deliver(cfg, c.rcv, s.data).(cur := s.seqNr));
      GrowsHonest(w, c, c1);
      CheckAckHonest(cfg, w, c1, now, iss, acc);
      var c2 := CheckAck(cfg, c1, now);
      RxFlushGrows(cfg, c2.rcv, iss, acc, |c2.rcv.rxq|);
      GrowsHonest(w, c2, c2.(rcv := RxFlush(cfg, c2.rcv, |c2.rcv.rxq|)));
    }
  }

  lemma EackHonest(w: nat, c: Conn, eacks: seq<u16>, now: u32)
    requires Honest(w, c)
    ensures Keeps(w, c, c.(snd := c.snd.(txq := EackFilter(c.snd.txq, eacks, now, c.opt.packetTimeout))))
  {
    var d := c.(snd := c.snd.(txq := EackFilter(c.snd.txq, eacks, now, c.opt.packetTimeout)));
    EackFilterThins(c.snd.iss, c.snd.txq, eacks, now, c.opt.packetTimeout);
    hide EackFilter;
    FromOk(w, c, d);
    assert OutOk(w, d);
  }

  lemma RecvAcceptedHonest(cfg: Config, w: nat, c: Conn, s: Segment, now: u32, iss: u16, acc: seq<Payload>)
    requires Honest(w, c) && Fits(c, iss, acc) && c.state == Open
    requires s.data != [] ==> CarriesItsPayload(iss, acc, s)
    ensures Keeps(w, c, RecvAccepted(cfg, c, s, now))
  {
    var c1 := TakeAck(c, s);
    SameHonest(w, c, c1);
    TakeAckOk(c, s, iss, acc);
    hide EackFilter, RecvAhead, RecvInOrder, Honest, Ok, CarriesItsPayload;
    if s.eak {
      EackHonest(w, c1, s.eacks, now);
    } else if s.data != [] {
      if s.seqNr != Wrap(c.rcv.cur + 1) {
        assert RecvAccepted(cfg, c, s, now) == RecvAhead(cfg, c1, s, now);
        RecvAheadHonest(cfg, w, c1, s, now, iss, acc);
      } else {
        assert RecvAccepted(cfg, c, s, now) == RecvInOrder(cfg, c1, s, now);
        RecvInOrderHonest(cfg, w, c1, s, now, iss, acc);
      }
    }
  }

  /** A segment outside the window while the handshake is unfinished would put a second SYN in the queue; an
      honest peer never sends one. */
  predicate NoSecondSyn(c: Conn, s: Segment) {
    c.state == SynRcvd && !s.syn && !s.rst && s.ack ==> SeqAcceptable(c, s.seqNr)
  }

  lemma RecvOpenHonest(cfg: Config, w: nat, c: Conn, s: Segment, now: u32, sockOk: bool, iss: u16, acc: seq<Payload>)
    requires Honest(w, c) && Fits(c, iss, acc) && (c.state == SynRcvd || c.state == Open)
    requires s.data != [] ==> CarriesItsPayload(iss, acc, s)
    requires NoSecondSyn(c, s) && !s.rst
    ensures Keeps(w, c, RecvOpen(cfg, c, s, now, sockOk))
  {
    if s.syn || !s.ack {
      DiscardCloseHonest(cfg, w, c, {Protocol}, now, iss, acc);
    } else if !SeqAcceptable(c, s.seqNr) {
      AckHonest(cfg, w, c, now, iss, acc);
    } else if AckAcceptable(c, s.ackNr) {
      if c.state == Open {
        RecvAcceptedHonest(cfg, w, c, s, now, iss, acc);
      } else if s.ackNr != c.snd.iss {
        DiscardCloseHonest(cfg, w, c, {Protocol}, now, iss, acc);
      } else if c.pending && !sockOk {
        SameHonest(w, c, c.(state := Open));
        DiscardCloseHonest(cfg, w, c.(state := Open), {Protocol}, now, iss, acc);
      } else {
        SameHonest(w, c, HandOver(c));
        RecvAcceptedHonest(cfg, w, HandOver(c), s, now, iss, acc);
      }
    }
  }

  lemma AcceptHonest(cfg: Config, w: nat, c: Conn, s: Segment, now: u32, own: u16, iss: u16, acc: seq<Payload>)
    requires Honest(w, c) && Fits(c, iss, acc) && c.state == Closed && !c.snd.started && !c.rcv.synced
    requires c.listening && s.seqNr == iss
    ensures Honest(w, SendCmp(cfg, Accept(c, s, own), SynAck(Accept(c, s, own)), now))
  {
  }

  lemma EstablishedHonest(cfg: Config, w: nat, c: Conn, s: Segment, now: u32, iss: u16, acc: seq<Payload>)
    requires Honest(w, c) && Fits(c, iss, acc) && c.state == SynSent && s.seqNr == iss
    ensures Honest(w, SendCmp(cfg, Established(c, s, now), Ack(Established(c, s, now)), now))
  {
  }

  /** The segments an endpoint that does not know its peer's number yet can be sent: the handshake answer only. */
  predicate Expected(c: Conn, s: Segment) {
    !c.rcv.synced && c.state != Closed ==> s.syn && s.ack && !s.rst
  }

  lemma NewPacketHonest(cfg: Config, w: nat, c: Conn, s: Segment, now: u32, own: u16, sockOk: bool,
                        iss: u16, acc: seq<Payload>)
    requires Honest(w, c) && Fits(c, iss, acc) && CtlOk(c) && c.open
    requires s.data != [] ==> CarriesItsPayload(iss, acc, s)
    requires s.syn ==> s.seqNr == iss
    requires Expected(c, s) && NoSecondSyn(c, s)
    ensures Honest(w, NewPacket(cfg, c, s, now, own, sockOk))
    ensures c.rcv.synced ==> Keeps(w, c, NewPacket(cfg, c, s, now, own, sockOk))
  {
    hide RecvRst, RecvOpen, Honest, AckAcceptable, NoSecondSyn, CarriesItsPayload;
    if s.rst {
      RecvRstHonest(cfg, w, c, s, now, iss, acc);
    } else if c.state == SynSent {
      EstablishedHonest(cfg, w, c, s, now, iss, acc);
    } else if c.state == CloseWait {
      SameHonest(w, c, TakeAck(c, s));
      TakeAckOk(c, s, iss, acc);
      if c.rcv.synced {
        AckHonest(cfg, w, TakeAck(c, s), now, iss, acc);
      }
    } else {
      RecvOpenHonest(cfg, w, c, s, now, sockOk, iss, acc);
    }
  }

  lemma ReopenHonest(cfg: Config, w: nat, c: Conn, s: Segment, now: u32, own: u16, sockOk: bool,
                     iss: u16, acc: seq<Payload>)
    requires Honest(w, c) && Fits(c, iss, acc) && CtlOk(c) && !c.open && c.listening
    requires s.syn ==> s.seqNr == iss && !c.snd.started
    ensures Honest(w, RoutePacket(cfg, c, s, now, own, sockOk))
  {
    var c1 := Reopen(c, now);
    ReopenOk(c, now, iss, acc);
    GrowsHonest(w, c, c1);
    if s.rst {
      RecvRstHonest(cfg, w, c1, s, now, iss, acc);
      RecvRstOk(cfg, c1, s, iss, acc, now);
      ConnCloseHonest(cfg, w, RecvRst(cfg, c1, s, now), {Userspace}, now, iss, acc);
    } else if s.syn {
      AcceptHonest(cfg, w, c1, s, now, own, iss, acc);
    } else {
      SendHonest(cfg, w, c1, Rst(c1), now);
      SendCmpOk(cfg, c1, iss, acc, Rst(c1), now);
      DiscardCloseHonest(cfg, w, SendCmp(cfg, c1, Rst(c1), now), {Protocol}, now, iss, acc);
    }
  }

  lemma PushHonest(cfg: Config, w: nat, c: Conn, data: Payload, now: u32, iss: u16, acc: seq<Payload>)
    requires Honest(w, c) && Fits(c, iss, acc) && c.state == Open && |c.snd.accepted| + 1 < ORDER_LIMIT
    ensures Honest(w, c.(snd := SndPush(cfg, c.snd, data, c.rcv.cur, now)))
  {
    OwnNumbers(c, iss, acc);
    var d := c.(snd := SndPush(cfg, c.snd, data, c.rcv.cur, now));
    var s := Segment(false, true, false, false, c.snd.nxt, c.rcv.cur, data, [], NO_OPTS);
    forall x | x in d.snd.out
      ensures SegOk(w, d.listening, d.snd.iss, |d.snd.accepted|, d.rcv, x)
      ensures d.state != Closed ==> EackOk(d.rcv, x)
    {
      assert x in c.snd.out || x == s;
    }
    forall e | e in d.snd.txq
      ensures TxSeg(w, d.listening, d.snd.iss, |d.snd.accepted|, d.rcv.synced, e)
    {
      assert e in c.snd.txq || e == TxEntry(s, now, 0);
    }
    assert forall e :: e in c.snd.txq ==> TxOff(c.snd.iss, e) <= |c.snd.accepted|;
  }

  lemma ConnectHonest(cfg: Config, w: nat, c: Conn, opts: Options, now: u32, own: u16, iss: u16, acc: seq<Payload>)
    requires Honest(w, c) && Fits(c, iss, acc) && CtlOk(c) && !c.snd.started && !c.listening && opts.window == w
    ensures Honest(w, ConnectStart(cfg, c, opts, now, own))
  {
  }

  lemma ConnectEndHonest(cfg: Config, w: nat, c: Conn, woken: bool, now: u32, iss: u16, acc: seq<Payload>)
    requires Honest(w, c) && Fits(c, iss, acc) && CtlOk(c) && c.connecting
    ensures Keeps(w, c, ConnectEnd(cfg, c, woken, now))
  {
    if woken && c.state == Open {
      SameHonest(w, c, ConnectEnd(cfg, c, woken, now));
    } else {
      CloseInternalHonest(cfg, w, c, {Protocol}, false, now, iss, acc);
      CloseInternalOk(cfg, c, {Protocol}, false, iss, acc, now);
      var c1 := CloseInternal(cfg, c, {Protocol}, false, now).0;
      ConnCloseHonest(cfg, w, c1, {Userspace}, now, iss, acc);
      SameHonest(w, ConnClose(cfg, c1, {Userspace}, now), ConnectEnd(cfg, c, woken, now));
    }
  }

  lemma UserReadHonest(cfg: Config, w: nat, c: Conn, now: u32, iss: u16, acc: seq<Payload>)
    requires Honest(w, c) && Fits(c, iss, acc) && c.rcv.synced && c.snd.started
    ensures Keeps(w, c, UserRead(cfg, c, now))
  {
    if c.open && c.rcv.inbox != [] {
      PopOk(c.rcv, iss, acc, c.state);
      var c1 := c.(rcv := RcvPop(c.rcv));
      GrowsHonest(w, c, c1);
      CheckAckHonest(cfg, w, c1, now, iss, acc);
    }
  }

  lemma UserCloseHonest(cfg: Config, w: nat, c: Conn, now: u32, iss: u16, acc: seq<Payload>)
    requires Honest(w, c) && Fits(c, iss, acc) && c.rcv.synced
    ensures Keeps(w, c, UserClose(cfg, c, now))
  {
    ConnCloseHonest(cfg, w, c, {Userspace}, now, iss, acc);
    SameHonest(w, ConnClose(cfg, c, {Userspace}, now), UserClose(cfg, c, now));
  }
}
