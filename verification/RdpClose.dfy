/** Close safety: a connection is given up only after everybody closed it, and never under a user who still holds
    its handle. */
module RdpClose {
  import opened Base
  import opened SeqNum
  import opened RdpModel
  import opened RdpSystem

  /** Control state of an endpoint between two steps. */
  predicate CtlOk(c: Conn) {
    && (c.open <==> c.state != Closed)
    && CtlCore(c)
  }

  /** The same, without the tie between the slot and the RDP state, which is loose inside a step. */
  predicate CtlCore(c: Conn) {
    && (c.state != Closed ==> c.snd.started && c.closeLog == c.closedBy != ALL_CLOSERS)
    && (c.state == Closed ==> c.closeLog == if c.snd.started then ALL_CLOSERS else {})
    && (c.handle || c.connecting ==> c.state != Closed && !c.pending && Userspace !in c.closedBy)
    && !(c.handle && c.connecting)
    && (c.state != CloseWait ==> c.closedBy == {})
    && (c.state == SynRcvd || c.state == Open ==> c.rcv.synced)
    && (c.rcv.synced ==> c.snd.started)
    && (c.handle ==> c.rcv.synced)
    && (c.state == SynRcvd ==> c.pending)
    && (c.pending ==> c.listening)
    && (c.listening && c.snd.started ==> c.rcv.synced)
  }

  lemma RxFlushSynced(cfg: Config, r: Rcv, i: nat)
    requires i <= |r.rxq|
    ensures RxFlush(cfg, r, i).synced == r.synced && |r.delivered| <= |RxFlush(cfg, r, i).delivered|
    decreases |r.rxq|, i
  {
    if i == 0 || cfg.inboxLen - |r.inbox| <= 2 {
    } else if r.rxq[0].seqNr == Wrap(r.cur + 1) {
      RxFlushSynced(cfg, Deliver(cfg, r.(rxq := r.rxq[1..]), r.rxq[0].data).(cur := Wrap(r.cur + 1)), |r.rxq| - 1);
    } else {
      RxFlushSynced(cfg, r.(rxq := r.rxq[1..] + [r.rxq[0]]), i - 1);
    }
  }

  /** The fields close safety speaks about. */
  predicate SameCtl(c: Conn, d: Conn) {
    && d.open == c.open && d.state == c.state && d.closedBy == c.closedBy && d.closeLog == c.closeLog
    && d.handle == c.handle && d.connecting == c.connecting && d.pending == c.pending
    && d.listening == c.listening && d.snd.started == c.snd.started && d.rcv.synced == c.rcv.synced
    && |c.rcv.delivered| <= |d.rcv.delivered|
  }

  /** What no step ever takes back. */
  predicate Onward(c: Conn, d: Conn) {
    && d.listening == c.listening && (c.rcv.synced ==> d.rcv.synced) && |c.rcv.delivered| <= |d.rcv.delivered|
  }

  lemma SendCmpCtl(cfg: Config, c: Conn, s: Segment, now: u32)
    ensures SameCtl(c, SendCmp(cfg, c, s, now))
  {
  }

  lemma CheckAckCtl(cfg: Config, c: Conn, now: u32)
    ensures SameCtl(c, CheckAck(cfg, c, now))
  {
    hide SendCmp, ShouldAck, Ack;
    SendCmpCtl(cfg, c, Ack(c), now);
  }

  lemma MessageTimersCtl(cfg: Config, c: Conn, now: u32)
    ensures SameCtl(c, MessageTimers(cfg, c, now))
  {
    var c1 := c.(snd := Retransmit(c.snd, c.rcv.cur, now, c.opt.packetTimeout));
    CheckAckCtl(cfg, c1, now);
    var c2 := if c1.state == Open && c1.opt.delayedAcks != 0 then CheckAck(cfg, c1, now) else c1;
    RxFlushSynced(cfg, c2.rcv, |c2.rcv.rxq|);
  }

  lemma RecvAheadCtl(cfg: Config, c: Conn, s: Segment, now: u32)
    ensures SameCtl(c, RecvAhead(cfg, c, s, now))
  {
    var (found, q) := ScanRx(c.rcv.rxq, s.seqNr, |c.rcv.rxq|);
    var c1 := c.(rcv := c.rcv.(rxq := q));
    if found {
      CheckAckCtl(cfg, c1, now);
    } else {
      var c2 := c1.(rcv := RxAdd(cfg, c1.rcv, s));
      SendCmpCtl(cfg, c2, Eack(c2), now);
    }
  }

  lemma RecvInOrderCtl(cfg: Config, c: Conn, s: Segment, now: u32)
    ensures SameCtl(c, RecvInOrder(cfg, c, s, now))
  {
    if |c.rcv.inbox| < cfg.inboxLen {
      var c1 := c.(rcv := Deliver(cfg, c.rcv, s.data).(cur := s.seqNr));
      CheckAckCtl(cfg, c1, now);
      var c2 := CheckAck(cfg, c1, now);
      RxFlushSynced(cfg, c2.rcv, |c2.rcv.rxq|);
    }
  }

  lemma RecvAcceptedCtl(cfg: Config, c: Conn, s: Segment, now: u32)
    ensures SameCtl(c, RecvAccepted(cfg, c, s, now))
  {
    hide RecvAhead, RecvInOrder, EackFilter;
    var c1 := TakeAck(c, s);
    assert SameCtl(c, c1);
    if s.eak || s.data == [] {
    } else if s.seqNr != Wrap(c.rcv.cur + 1) {
      assert RecvAccepted(cfg, c, s, now) == RecvAhead(cfg, c1, s, now);
      RecvAheadCtl(cfg, c1, s, now);
    } else {
      assert RecvAccepted(cfg, c, s, now) == RecvInOrder(cfg, c1, s, now);
      RecvInOrderCtl(cfg, c1, s, now);
    }
  }

  /** csp_conn_close keeps the books: the slot goes only when all three closers are in. */
  lemma ConnCloseCtl(cfg: Config, c: Conn, who: set<Closer>, now: u32)
    requires c.open && CtlCore(c)
    requires c.handle || c.connecting ==> Userspace !in who
    ensures CtlOk(ConnClose(cfg, c, who, now))
    ensures ConnClose(cfg, c, who, now).handle == c.handle
    ensures ConnClose(cfg, c, who, now).snd.started == c.snd.started
    ensures ConnClose(cfg, c, who, now).rcv.synced == c.rcv.synced
    ensures Onward(c, ConnClose(cfg, c, who, now))
    ensures c.state != Closed && !ConnClose(cfg, c, who, now).open ==> c.closeLog + who == ALL_CLOSERS
  {
  }

  lemma DiscardCloseCtl(cfg: Config, c: Conn, who: set<Closer>, now: u32)
    requires c.open && CtlCore(c) && Userspace !in who
    ensures CtlOk(DiscardClose(cfg, c, who, now))
    ensures DiscardClose(cfg, c, who, now).handle == c.handle
    ensures DiscardClose(cfg, c, who, now).snd.started == c.snd.started
    ensures DiscardClose(cfg, c, who, now).rcv.synced == c.rcv.synced
    ensures Onward(c, DiscardClose(cfg, c, who, now))
  {
  }

  lemma CheckTimeoutsCtl(cfg: Config, c: Conn, now: u32)
    requires c.open && CtlOk(c)
    ensures CtlOk(CheckTimeouts(cfg, c, now)) && CheckTimeouts(cfg, c, now).handle == c.handle
    ensures CheckTimeouts(cfg, c, now).snd.started == c.snd.started
    ensures CheckTimeouts(cfg, c, now).rcv.synced == c.rcv.synced
    ensures Onward(c, CheckTimeouts(cfg, c, now))
  {
    if c.pending && ConnExpired(c, now) {
      ConnCloseCtl(cfg, c, ALL_CLOSERS, now);
    } else if c.state != CloseWait {
      MessageTimersCtl(cfg, c, now);
    } else if ConnExpired(c, now) {
      ConnCloseCtl(cfg, c, {Protocol, Timeout}, now);
    }
  }

  lemma RecvRstCtl(cfg: Config, c: Conn, s: Segment, now: u32)
    requires c.open && CtlCore(c)
    ensures c.state != Closed ==> CtlOk(RecvRst(cfg, c, s, now))
    ensures c.state == Closed ==> SameCtl(c, RecvRst(cfg, c, s, now))
    ensures RecvRst(cfg, c, s, now).handle == c.handle
    ensures RecvRst(cfg, c, s, now).snd.started == c.snd.started
    ensures RecvRst(cfg, c, s, now).rcv.synced == c.rcv.synced
    ensures Onward(c, RecvRst(cfg, c, s, now))
  {
    var c1 := if s.ack then TakeAck(c, s) else c;
    if c.state == CloseWait {
      DiscardCloseCtl(cfg, c1, if s.ack then {Protocol, Timeout} else {Protocol}, now);
    } else if c.state != Closed && s.seqNr == c.rcv.cur + 1 {
      var c2 := c1.(state := CloseWait, timestamp := now);
      SendCmpCtl(cfg, c2, AckRst(c2), now);
      DiscardCloseCtl(cfg, SendCmp(cfg, c2, AckRst(c2), now), {Protocol, Timeout}, now);
    }
  }

  lemma RecvOpenCtl(cfg: Config, c: Conn, s: Segment, now: u32, sockOk: bool)
    requires c.open && CtlOk(c) && (c.state == SynRcvd || c.state == Open)
    ensures CtlOk(RecvOpen(cfg, c, s, now, sockOk))
    ensures RecvOpen(cfg, c, s, now, sockOk).snd.started == c.snd.started
    ensures RecvOpen(cfg, c, s, now, sockOk).rcv.synced == c.rcv.synced
    ensures Onward(c, RecvOpen(cfg, c, s, now, sockOk))
    ensures c.handle ==> RecvOpen(cfg, c, s, now, sockOk).handle
  {
    if s.syn || !s.ack {
      DiscardCloseCtl(cfg, c, {Protocol}, now);
    } else if !SeqAcceptable(c, s.seqNr) {
      SendCmpCtl(cfg, c, SynAck(c), now);
      SendCmpCtl(cfg, c, Eack(c), now);
    } else if AckAcceptable(c, s.ackNr) {
      if c.state == Open {
        RecvAcceptedCtl(cfg, c, s, now);
      } else if s.ackNr != c.snd.iss {
        DiscardCloseCtl(cfg, c, {Protocol}, now);
      } else if c.pending && !sockOk {
        DiscardCloseCtl(cfg, c.(state := Open), {Protocol}, now);
      } else {
        RecvAcceptedCtl(cfg, HandOver(c), s, now);
      }
    }
  }

  lemma RecvSynSentCtl(cfg: Config, c: Conn, s: Segment, now: u32)
    requires c.open && CtlOk(c) && c.state == SynSent
    ensures CtlOk(RecvSynSent(cfg, c, s, now)) && RecvSynSent(cfg, c, s, now).handle == c.handle
    ensures RecvSynSent(cfg, c, s, now).snd.started == c.snd.started
    ensures RecvSynSent(cfg, c, s, now).rcv.synced ==> c.rcv.synced || s.syn
    ensures Onward(c, RecvSynSent(cfg, c, s, now))
  {
    if s.syn && s.ack {
      var c1 := Established(c, s, now);
      SendCmpCtl(cfg, c1, Ack(c1), now);
    } else if s.ack {
      SendCmpCtl(cfg, c, Rst(c), now);
    } else {
      DiscardCloseCtl(cfg, c, {Protocol}, now);
    }
  }

  lemma NewPacketCtl(cfg: Config, c: Conn, s: Segment, now: u32, iss: u16, sockOk: bool)
    requires c.open && CtlOk(c)
    ensures CtlOk(NewPacket(cfg, c, s, now, iss, sockOk))
    ensures c.handle ==> NewPacket(cfg, c, s, now, iss, sockOk).handle
    ensures NewPacket(cfg, c, s, now, iss, sockOk).snd.started == c.snd.started
    ensures NewPacket(cfg, c, s, now, iss, sockOk).rcv.synced ==> c.rcv.synced || s.syn
    ensures Onward(c, NewPacket(cfg, c, s, now, iss, sockOk))
  {
    if s.rst {
      RecvRstCtl(cfg, c, s, now);
    } else if c.state == SynSent {
      RecvSynSentCtl(cfg, c, s, now);
    } else if c.state == CloseWait {
      SendCmpCtl(cfg, TakeAck(c, s), AckRst(c), now);
    } else {
      RecvOpenCtl(cfg, c, s, now, sockOk);
    }
  }

  /** A segment that opens the slot either starts a connection or leaves the slot closed again. */
  lemma ReopenCtl(cfg: Config, c: Conn, s: Segment, now: u32, iss: u16, sockOk: bool)
    requires CtlOk(c) && !c.open && c.listening
    ensures CtlOk(RoutePacket(cfg, c, s, now, iss, sockOk)) && !RoutePacket(cfg, c, s, now, iss, sockOk).handle
    ensures c.snd.started ==> RoutePacket(cfg, c, s, now, iss, sockOk).snd.started
    ensures RoutePacket(cfg, c, s, now, iss, sockOk).rcv.synced ==> c.rcv.synced || s.syn
    ensures Onward(c, RoutePacket(cfg, c, s, now, iss, sockOk))
  {
  }

  lemma RouteWorkCtl(cfg: Config, c: Conn, s: Option<Segment>, now: u32, iss: u16, sockOk: bool)
    requires CtlOk(c)
    ensures CtlOk(RouteWork(cfg, c, s, now, iss, sockOk))
    ensures c.handle ==> RouteWork(cfg, c, s, now, iss, sockOk).handle
    ensures c.snd.started ==> RouteWork(cfg, c, s, now, iss, sockOk).snd.started
    ensures RouteWork(cfg, c, s, now, iss, sockOk).rcv.synced ==> c.rcv.synced || (s.Some? && s.value.syn)
    ensures Onward(c, RouteWork(cfg, c, s, now, iss, sockOk))
  {
    if c.open {
      CheckTimeoutsCtl(cfg, c, now);
    }
    var c1 := TimerPass(cfg, c, now);
    if s.Some? {
      if c1.open {
        NewPacketCtl(cfg, c1, s.value, now, iss, sockOk);
      } else if c1.listening {
        ReopenCtl(cfg, c1, s.value, now, iss, sockOk);
      }
    }
  }

  lemma ConnectEndCtl(cfg: Config, c: Conn, woken: bool, now: u32)
    requires CtlOk(c) && c.connecting
    ensures CtlOk(ConnectEnd(cfg, c, woken, now))
    ensures ConnectEnd(cfg, c, woken, now).rcv.synced == c.rcv.synced
    ensures Onward(c, ConnectEnd(cfg, c, woken, now))
  {
    if !(woken && c.state == Open) {
      var c0 := c.(connecting := false);
      var c1 := CloseInternal(cfg, c0, {Protocol}, false, now).0;
      assert CtlOk(c1);
      ConnCloseCtl(cfg, c1, {Userspace}, now);
      assert ConnectEnd(cfg, c, woken, now) == ConnClose(cfg, c1, {Userspace}, now);
    }
  }

  lemma UserCtl(cfg: Config, c: Conn, data: Payload, now: u32)
    requires CtlOk(c) && c.handle
    ensures CtlOk(UserSend(cfg, c, data, now)) && UserSend(cfg, c, data, now).handle
    ensures CtlOk(UserRead(cfg, c, now)) && UserRead(cfg, c, now).handle
    ensures CtlOk(UserClose(cfg, c, now))
    ensures UserSend(cfg, c, data, now).rcv.synced == UserRead(cfg, c, now).rcv.synced == c.rcv.synced
    ensures UserClose(cfg, c, now).rcv.synced == c.rcv.synced
    ensures Onward(c, UserSend(cfg, c, data, now)) && Onward(c, UserRead(cfg, c, now))
    ensures Onward(c, UserClose(cfg, c, now))
  {
    hide CheckAck, ReadyForTx;
    ConnCloseCtl(cfg, c.(handle := false), {Userspace}, now);
    assert UserClose(cfg, c, now) == ConnClose(cfg, c.(handle := false), {Userspace}, now);
    if c.rcv.inbox != [] {
      CheckAckCtl(cfg, c.(rcv := RcvPop(c.rcv)), now);
    }
  }

  /** What the users of a slot may do: connect while it is closed, and use a handle while they hold it. Any segment may
      arrive, and a slot may be used any number of times. */
  predicate CanAct(c: Conn, act: Act) {
    match act
    case Connect(_, _) => !c.open && !c.listening
    case ConnectDone(_, _) => c.connecting
    case Route(_, _, _, _) => true
    case Send(_, _) => c.handle
    case Read(_) => c.handle
    case Close(_) => c.handle
  }

  lemma DoCtl(cfg: Config, opts: Options, c: Conn, act: Act)
    requires CtlOk(c) && CanAct(c, act)
    ensures CtlOk(Do(cfg, opts, c, act))
    ensures c.handle && !Do(cfg, opts, c, act).handle ==> act.Close?
    ensures Do(cfg, opts, c, act).rcv.synced ==>
              c.rcv.synced || (act.Route? && act.s.Some? && act.s.value.syn)
    ensures Onward(c, Do(cfg, opts, c, act))
  {
    match act
    case Connect(now, iss) => SendCmpCtl(cfg, Connecting(c, opts, now, iss), Syn(opts, iss), now);
    case ConnectDone(now, woken) => ConnectEndCtl(cfg, c, woken, now);
    case Route(s, now, iss, sockOk) => RouteWorkCtl(cfg, c, s, now, iss, sockOk);
    case Send(data, now) => UserCtl(cfg, c, data, now);
    case Read(now) => UserCtl(cfg, c, [], now);
    case Close(now) => UserCtl(cfg, c, [], now);
  }

  // ---------------------------------------------------------------- one slot, any peer, any number of uses

  /** The life of one slot: whatever arrives, from whatever peer, through any number of connections. */
  ghost predicate IsLife(cfg: Config, opts: Options, acts: seq<Act>, cs: seq<Conn>) {
    && |cs| == |acts| + 1 && Fresh(cs[0])
    && forall i :: 0 <= i < |acts| ==> CanAct(cs[i], acts[i]) && cs[i + 1] == Do(cfg, opts, cs[i], acts[i])
  }

  lemma {:induction false} LifeCtl(cfg: Config, opts: Options, acts: seq<Act>, cs: seq<Conn>, i: nat)
    requires IsLife(cfg, opts, acts, cs) && i <= |acts|
    ensures CtlOk(cs[i])
    decreases i
  {
    if i > 0 {
      LifeCtl(cfg, opts, acts, cs, i - 1);
      assert cs[i - 1 + 1] == Do(cfg, opts, cs[i - 1], acts[i - 1]);
      DoCtl(cfg, opts, cs[i - 1], acts[i - 1]);
    }
  }

  /** Close safety over the whole life of a slot: while a user holds the handle the slot is open and userspace has not
      closed it; a connection back in RDP_CLOSED has been closed by userspace, the protocol and the timeout since it was
      begun; and a handle is lost only by closing it. */
  lemma CloseSafety(cfg: Config, opts: Options, acts: seq<Act>, cs: seq<Conn>, i: nat)
    requires IsLife(cfg, opts, acts, cs) && i <= |acts|
    ensures cs[i].handle ==> cs[i].open && Userspace !in cs[i].closeLog
    ensures cs[i].snd.started && cs[i].state == Closed ==> cs[i].closeLog == ALL_CLOSERS
    ensures i < |acts| && cs[i].handle && !(cs[i + 1].handle && cs[i + 1].open) ==> acts[i].Close?
  {
    LifeCtl(cfg, opts, acts, cs, i);
    if i < |acts| {
      LifeCtl(cfg, opts, acts, cs, i + 1);
      DoCtl(cfg, opts, cs[i], acts[i]);
    }
  }

  // ---------------------------------------------------------------- the two endpoints

  lemma EnabledCanAct(cfg: Config, limit: nat, c: Conn, peer: Conn, act: Act)
    requires CtlOk(c) && Enabled(cfg, limit, c, peer, act)
    ensures CanAct(c, act)
  {
  }

  lemma {:induction false} RunCtl(cfg: Config, opts: Options, limit: nat, evs: seq<Event>, ys: seq<Sys>, i: nat)
    requires IsRun(cfg, opts, limit, evs, ys) && i <= |evs|
    ensures CtlOk(ys[i].a) && CtlOk(ys[i].b)
  {
    if i > 0 {
      RunCtl(cfg, opts, limit, evs, ys, i - 1);
      var y, ev := ys[i - 1], evs[i - 1];
      assert Step(cfg, opts, limit, y, ev, ys[i - 1 + 1]);
      EnabledCanAct(cfg, limit, At(y, ev.node), Peer(y, ev.node), ev.act);
      DoCtl(cfg, opts, At(y, ev.node), ev.act);
    }
  }
}
