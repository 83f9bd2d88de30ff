/** The whole system: window fit and recoverability in every state of every run. */
module RdpWindow {
  import opened Base
  import opened SeqNum
  import opened RdpModel
  import opened RdpSystem
  import opened RdpClose
  import opened RdpOrder
  import opened RdpAcks
  import opened RdpHonest
  import opened RdpEffect
  import opened RdpRecover

  /** A connection that has run its course. */
  predicate Dead(c: Conn) { c.snd.started && c.state == Closed }

  // ---------------------------------------------------------------- one node: numbers

  lemma TimerPassWindow(cfg: Config, w: nat, c: Conn, now: u32, delivered: nat)
    requires WindowOk(w, c, delivered) && CtlOk(c)
    ensures WindowOk(w, TimerPass(cfg, c, now), delivered)
  {
    if c.open {
      CheckTimeoutsEffect(cfg, c, now);
      CheckTimeoutsCtl(cfg, c, now);
    }
  }

  /** A segment that finds the slot closed starts the one connection, or changes no number. */
  lemma ReopenWindow(cfg: Config, w: nat, c: Conn, s: Segment, now: u32, own: u16, sockOk: bool, delivered: nat)
    requires WindowOk(w, c, delivered) && CtlOk(c) && !c.open && c.listening
    requires s.syn && !s.rst ==> !c.snd.started && c.snd.accepted == [] && s.opts.window == w
    ensures WindowOk(w, RoutePacket(cfg, c, s, now, own, sockOk), delivered)
    ensures c.snd.started ==> RoutePacket(cfg, c, s, now, own, sockOk).state == Closed
  {
  }

  lemma NewPacketWindow(cfg: Config, w: nat, c: Conn, s: Segment, now: u32, own: u16, sockOk: bool, delivered: nat)
    requires WindowOk(w, c, delivered) && CtlOk(c) && c.open && NoSecondSyn(c, s) && delivered < 0xFFFF
    requires s.ack ==> Offset(c.snd.iss, s.ackNr) <= delivered
    ensures WindowOk(w, NewPacket(cfg, c, s, now, own, sockOk), delivered)
  {
    var d := NewPacket(cfg, c, s, now, own, sockOk);
    assert PacketEffect(c, s, d, now) by {
      NewPacketEffect(cfg, c, s, now, own, sockOk);
    }
    assert c.rcv.synced ==> d.rcv.synced by {
      NewPacketCtl(cfg, c, s, now, own, sockOk);
    }
    PacketWindow(w, c, s, d, now, delivered);
  }

  /** What the actor may assume of a segment it takes off the network: the acknowledgement and the window it
      announces are honest, and it suits the state the timer pass left. */
  predicate InputOk(cfg: Config, w: nat, c: Conn, p: Conn, s: Option<Segment>, now: u32) {
    s.Some? ==>
      && SingleUse(cfg, c, s.value, now)
      && (c.state != Closed && s.value.ack ==> Offset(c.snd.iss, s.value.ackNr) <= |p.rcv.delivered|)
      && (s.value.syn && !c.snd.started && c.listening ==> s.value.opts.window == w)
      && NoSecondSyn(TimerPass(cfg, c, now), s.value)
  }

  lemma RouteWindow(cfg: Config, w: nat, c: Conn, p: Conn, s: Option<Segment>, now: u32, own: u16, sockOk: bool)
    requires WindowOk(w, c, |p.rcv.delivered|) && CtlOk(c) && |p.rcv.delivered| < 0xFFFF
    requires InputOk(cfg, w, c, p, s, now) && (c.snd.accepted != [] ==> c.snd.started)
    ensures WindowOk(w, RouteWork(cfg, c, s, now, own, sockOk), |p.rcv.delivered|)
    ensures Dead(c) ==> Dead(RouteWork(cfg, c, s, now, own, sockOk))
  {
    var c1 := TimerPass(cfg, c, now);
    TimerPassWindow(cfg, w, c, now, |p.rcv.delivered|);
    if c.open {
      CheckTimeoutsCtl(cfg, c, now);
      CheckTimeoutsEffect(cfg, c, now);
    }
    if s.Some? {
      if c1.open {
        NewPacketWindow(cfg, w, c1, s.value, now, own, sockOk, |p.rcv.delivered|);
      } else if c1.listening {
        ReopenWindow(cfg, w, c1, s.value, now, own, sockOk, |p.rcv.delivered|);
        ReopenCtl(cfg, c1, s.value, now, own, sockOk);
      }
    }
  }

  lemma ConnectEndWindow(cfg: Config, w: nat, c: Conn, woken: bool, now: u32, delivered: nat)
    requires WindowOk(w, c, delivered) && CtlOk(c) && c.connecting
    ensures WindowOk(w, ConnectEnd(cfg, c, woken, now), delivered)
  {
  }

  lemma DoWindow(cfg: Config, opts: Options, limit: nat, c: Conn, p: Conn, act: Act)
    requires Sane(cfg, opts, limit) && Enabled(cfg, limit, c, p, act) && CtlOk(c) && SenderOk(c.snd)
    requires WindowOk(opts.window, c, |p.rcv.delivered|) && |p.rcv.delivered| <= |c.snd.accepted| <= limit
    requires act.Route? ==> InputOk(cfg, opts.window, c, p, act.s, act.now)
    ensures WindowOk(opts.window, Do(cfg, opts, c, act), |p.rcv.delivered|)
    ensures Dead(c) ==> Dead(Do(cfg, opts, c, act))
  {
    match act
    case Connect(now, iss) =>
    case ConnectDone(now, woken) => ConnectEndWindow(cfg, opts.window, c, woken, now, |p.rcv.delivered|);
    case Route(s, now, iss, sockOk) => RouteWindow(cfg, opts.window, c, p, s, now, iss, sockOk);
    case Send(data, now) =>
      if SendOutcome(cfg, c, data) == Sent {
        SendWindow(cfg, opts.window, c, data, now, |p.rcv.delivered|);
      }
    case Read(now) =>
      if c.open && c.rcv.inbox != [] {
        CheckAckQuiet(cfg, c.(rcv := RcvPop(c.rcv)), now);
        CheckAckCtl(cfg, c.(rcv := RcvPop(c.rcv)), now);
      }
    case Close(now) =>
      ConnCloseEffect(cfg, c, {Userspace}, now);
      UserCtl(cfg, c, [], now);
  }

  // ---------------------------------------------------------------- one node: honest traffic

  lemma TimerPassHonest(cfg: Config, w: nat, c: Conn, now: u32, iss: u16, acc: seq<Payload>)
    requires Honest(w, c) && Fits(c, iss, acc) && CtlOk(c)
    ensures Keeps(w, c, TimerPass(cfg, c, now))
  {
    if c.open {
      CheckTimeoutsHonest(cfg, w, c, now, iss, acc);
    }
  }

  lemma RouteHonest(cfg: Config, w: nat, c: Conn, p: Conn, s: Option<Segment>, now: u32, own: u16, sockOk: bool)
    requires Honest(w, c) && Fits(c, p.snd.iss, p.snd.accepted) && CtlOk(c) && SenderOk(p.snd)
    requires s.Some? ==> s.value in p.snd.out && SingleUse(cfg, c, s.value, now)
    requires s.Some? ==> Expected(TimerPass(cfg, c, now), s.value) && NoSecondSyn(TimerPass(cfg, c, now), s.value)
    ensures Honest(w, RouteWork(cfg, c, s, now, own, sockOk))
    ensures c.rcv.synced && c.open ==> Keeps(w, c, RouteWork(cfg, c, s, now, own, sockOk))
  {
    var c1 := TimerPass(cfg, c, now);
    TimerPassHonest(cfg, w, c, now, p.snd.iss, p.snd.accepted);
    TimerPassOk(cfg, c, p.snd.iss, p.snd.accepted, now);
    if s.Some? {
      assert WellSent(p.snd, s.value);
      if c1.open {
        NewPacketHonest(cfg, w, c1, s.value, now, own, sockOk, p.snd.iss, p.snd.accepted);
      } else if c1.listening {
        ReopenHonest(cfg, w, c1, s.value, now, own, sockOk, p.snd.iss, p.snd.accepted);
        if c.snd.started {
          ReopenStaysClosed(cfg, c1, s.value, now, own, sockOk);
        }
      }
    }
  }

  lemma ReopenStaysClosed(cfg: Config, c: Conn, s: Segment, now: u32, own: u16, sockOk: bool)
    requires CtlOk(c) && !c.open && c.listening && c.snd.started && !s.syn
    ensures RoutePacket(cfg, c, s, now, own, sockOk).state == Closed
  {
  }

  lemma DoHonest(cfg: Config, opts: Options, limit: nat, c: Conn, p: Conn, act: Act)
    requires Sane(cfg, opts, limit) && Enabled(cfg, limit, c, p, act) && CtlOk(c) && SenderOk(p.snd)
    requires Honest(opts.window, c) && Ok(c, p.snd.iss, p.snd.accepted) && |c.snd.accepted| <= limit
    requires act.Route? && act.s.Some? ==>
               Expected(TimerPass(cfg, c, act.now), act.s.value) && NoSecondSyn(TimerPass(cfg, c, act.now), act.s.value)
    ensures Honest(opts.window, Do(cfg, opts, c, act))
    ensures c.rcv.synced && c.open ==> Keeps(opts.window, c, Do(cfg, opts, c, act))
  {
    var w, iss, acc := opts.window, p.snd.iss, p.snd.accepted;
    match act
    case Connect(now, own) => ConnectHonest(cfg, w, c, opts, now, own, iss, acc);
    case ConnectDone(now, woken) => ConnectEndHonest(cfg, w, c, woken, now, iss, acc);
    case Route(s, now, own, sockOk) => RouteHonest(cfg, w, c, p, s, now, own, sockOk);
    case Send(data, now) =>
      if SendOutcome(cfg, c, data) == Sent {
        PushHonest(cfg, w, c, data, now, iss, acc);
      }
    case Read(now) => UserReadHonest(cfg, w, c, now, iss, acc);
    case Close(now) => UserCloseHonest(cfg, w, c, now, iss, acc);
  }

  // ---------------------------------------------------------------- one node: the retransmit queue

  ghost predicate HasMarks(w: nat, c: Conn) { exists lo: nat, hi: nat :: Marked(w, c, lo, hi) }

  lemma FreshMarks(w: nat, c: Conn)
    requires Live(c) ==> c.snd.accepted == [] && Una(c) == 0 && 1 <= w
    ensures HasMarks(w, c)
  {
    assert Marked(w, c, 0, 0);
  }

  /** The timer pass over a live connection: what the receiver lacks stays, what it acknowledged goes. */
  lemma TimerPassQueue(cfg: Config, w: nat, c: Conn, now: u32, r: Rcv, lo: nat, hi: nat)
    requires Marked(w, c, lo, hi) && Honest(w, c) && CtlOk(c) && WindowOk(w, c, |r.delivered|)
    requires |r.delivered| <= |c.snd.accepted| < 0x7FFF
    ensures Marked(w, TimerPass(cfg, c, now), hi, hi)
    ensures AllHeld(c.snd, r) && r.irs == c.snd.iss && TimerPass(cfg, c, now).state != Closed ==>
              AllHeld(TimerPass(cfg, c, now).snd, r)
  {
    if c.open {
      var d := CheckTimeouts(cfg, c, now);
      CheckTimeoutsEffect(cfg, c, now);
      if !Closing(c, d) {
        PassMarked(w, c, d, c.rcv.cur, now, lo, hi);
        if AllHeld(c.snd, r) && r.irs == c.snd.iss {
          PassHeld(w, c, d, r, c.rcv.cur, now);
        }
      } else if d.state != Closed && AllHeld(c.snd, r) {
        ShrinkHeld(c.snd, d.snd, r);
      }
    }
  }

  lemma RouteQueue(cfg: Config, w: nat, c: Conn, p: Conn, s: Option<Segment>, now: u32, own: u16, sockOk: bool)
    requires HasMarks(w, c) && Honest(w, c) && CtlOk(c) && WindowOk(w, c, |p.rcv.delivered|) && 1 <= w
    requires Fits(c, p.snd.iss, p.snd.accepted)
    requires |p.rcv.delivered| <= |c.snd.accepted| < 0x7FFF && InputOk(cfg, w, c, p, s, now)
    requires c.open && s.Some? && p.state != Closed ==> EackOk(p.rcv, s.value)
    ensures HasMarks(w, RouteWork(cfg, c, s, now, own, sockOk))
    ensures c.open && AllHeld(c.snd, p.rcv) && p.rcv.irs == c.snd.iss && p.state != Closed &&
            RouteWork(cfg, c, s, now, own, sockOk).state != Closed ==>
              AllHeld(RouteWork(cfg, c, s, now, own, sockOk).snd, p.rcv)
  {
    var lo: nat, hi: nat :| Marked(w, c, lo, hi);
    var c1, d := TimerPass(cfg, c, now), RouteWork(cfg, c, s, now, own, sockOk);
    TimerPassQueue(cfg, w, c, now, p.rcv, lo, hi);
    TimerPassWindow(cfg, w, c, now, |p.rcv.delivered|);
    TimerPassOk(cfg, c, p.snd.iss, p.snd.accepted, now);
    TimerPassHonest(cfg, w, c, now, p.snd.iss, p.snd.accepted);
    if s.Some? && c1.open {
      PacketQueue(cfg, w, c1, p, s.value, now, own, sockOk, hi);
    } else if s.Some? && c1.listening {
      ReopenQueue(cfg, w, c1, s.value, now, own, sockOk);
    } else {
      assert Marked(w, d, hi, hi);
    }
  }

  lemma PacketQueue(cfg: Config, w: nat, c: Conn, p: Conn, s: Segment, now: u32, own: u16, sockOk: bool, hi: nat)
    requires Marked(w, c, hi, hi) && c.open && CtlOk(c) && WindowOk(w, c, |p.rcv.delivered|)
    requires Honest(w, c) && |p.rcv.delivered| <= |c.snd.accepted| < 0x7FFF && NoSecondSyn(c, s)
    requires s.ack ==> Offset(c.snd.iss, s.ackNr) <= |p.rcv.delivered|
    requires p.state != Closed ==> EackOk(p.rcv, s)
    ensures HasMarks(w, NewPacket(cfg, c, s, now, own, sockOk))
    ensures AllHeld(c.snd, p.rcv) && p.state != Closed && NewPacket(cfg, c, s, now, own, sockOk).state != Closed ==>
              AllHeld(NewPacket(cfg, c, s, now, own, sockOk).snd, p.rcv)
  {
    var d := NewPacket(cfg, c, s, now, own, sockOk);
    assert PacketEffect(c, s, d, now) by {
      NewPacketEffect(cfg, c, s, now, own, sockOk);
    }
    NewPacketWindow(cfg, w, c, s, now, own, sockOk, |p.rcv.delivered|);
    if d.state != Closed {
      PacketMarked(w, c, s, d, now, hi);
      assert Marked(w, d, hi, if Una(d) <= hi then hi else Una(d));
      if AllHeld(c.snd, p.rcv) && p.state != Closed {
        PacketHeld(c, s, d, now, p.rcv);
      }
    } else {
      FreshMarks(w, d);
    }
  }

  lemma ReopenQueue(cfg: Config, w: nat, c: Conn, s: Segment, now: u32, own: u16, sockOk: bool)
    requires CtlOk(c) && !c.open && c.listening && 1 <= w
    requires s.syn ==> !c.snd.started && c.snd.accepted == []
    ensures HasMarks(w, RoutePacket(cfg, c, s, now, own, sockOk))
  {
    var c1, d := Reopen(c, now), RoutePacket(cfg, c, s, now, own, sockOk);
    if s.rst {
      ConnCloseEffect(cfg, RecvRst(cfg, c1, s, now), {Userspace}, now);
      ReopenCtl(cfg, c, s, now, own, sockOk);
    } else if !s.syn {
      DiscardCloseEffect(cfg, SendCmp(cfg, c1, Rst(c1), now), {Protocol}, now);
    }
    FreshMarks(w, d);
  }

  lemma QuietQueue(w: nat, c: Conn, d: Conn, r: Rcv)
    requires HasMarks(w, c) && (Quiet(c, d) || Closing(c, d))
    ensures HasMarks(w, d)
    ensures AllHeld(c.snd, r) && d.state != Closed ==> AllHeld(d.snd, r)
  {
    var lo: nat, hi: nat :| Marked(w, c, lo, hi);
    assert Marked(w, d, lo, hi);
    if AllHeld(c.snd, r) && d.state != Closed {
      ShrinkHeld(c.snd, d.snd, r);
    }
  }

  lemma ConnectEndQuiet(cfg: Config, c: Conn, woken: bool, now: u32)
    requires c.open
    ensures Quiet(c, ConnectEnd(cfg, c, woken, now)) || Closing(c, ConnectEnd(cfg, c, woken, now))
  {
    if !(woken && c.state == Open) {
      CloseInternalEffect(cfg, c, {Protocol}, false, now);
      ConnCloseEffect(cfg, CloseInternal(cfg, c, {Protocol}, false, now).0, {Userspace}, now);
    }
  }

  lemma DoQueue(cfg: Config, opts: Options, limit: nat, c: Conn, p: Conn, act: Act)
    requires Sane(cfg, opts, limit) && Enabled(cfg, limit, c, p, act) && CtlOk(c)
    requires HasMarks(opts.window, c) && Honest(opts.window, c) && Ok(c, p.snd.iss, p.snd.accepted)
    requires WindowOk(opts.window, c, |p.rcv.delivered|) && |p.rcv.delivered| <= |c.snd.accepted| <= limit
    requires act.Route? ==> InputOk(cfg, opts.window, c, p, act.s, act.now)
    requires act.Route? && act.s.Some? && c.open && p.state != Closed ==> EackOk(p.rcv, act.s.value)
    ensures HasMarks(opts.window, Do(cfg, opts, c, act))
    ensures c.open && AllHeld(c.snd, p.rcv) && p.rcv.irs == c.snd.iss && p.state != Closed &&
            Do(cfg, opts, c, act).state != Closed ==>
              AllHeld(Do(cfg, opts, c, act).snd, p.rcv)
  {
    hide RouteWork, ConnectEnd, CheckAck, ConnClose, AllHeld, InputOk, Honest, EackOk;
    var w, d := opts.window, Do(cfg, opts, c, act);
    match act
    case Connect(now, own) => FreshMarks(w, d);
    case ConnectDone(now, woken) =>
      ConnectEndQuiet(cfg, c, woken, now);
      QuietQueue(w, c, d, p.rcv);
    case Route(s, now, own, sockOk) => RouteQueue(cfg, w, c, p, s, now, own, sockOk);
    case Send(data, now) =>
      if SendOutcome(cfg, c, data) == Sent {
        var lo: nat, hi: nat :| Marked(w, c, lo, hi);
        SendWindow(cfg, w, c, data, now, |p.rcv.delivered|);
        SendMarked(cfg, w, c, data, now, lo, hi);
        if AllHeld(c.snd, p.rcv) {
          SendHeld(cfg, c, data, now, p.rcv);
        }
      }
    case Read(now) =>
      if c.open && c.rcv.inbox != [] {
        CheckAckQuiet(cfg, c.(rcv := RcvPop(c.rcv)), now);
      }
      QuietQueue(w, c, d, p.rcv);
    case Close(now) =>
      ConnCloseEffect(cfg, c, {Userspace}, now);
      QuietQueue(w, c, d, p.rcv);
  }

  // ---------------------------------------------------------------- the handshake

  /** Until the connecting side has its answer, the other side has sent nothing but answers, and resets once it
      gave up; and it has been sent nothing but SYNs. */
  predicate Handshake(a: Conn, b: Conn) {
    !a.rcv.synced ==>
      && (b.state == Closed || b.state == SynRcvd)
      && (forall s :: s in b.snd.out ==> (s.syn && s.ack && !s.rst) || (s.rst && Dead(b)))
      && (Dead(b) || forall s :: s in a.snd.out ==> s.syn && !s.ack && !s.rst)
  }

  /** The listening side, still waiting, or done. */
  lemma ListenerTimer(cfg: Config, w: nat, b: Conn, now: u32)
    requires CtlOk(b) && Honest(w, b) && b.listening && (b.state == Closed || b.state == SynRcvd)
    requires b.state == SynRcvd ==> b.snd.accepted == []
    requires forall s :: s in b.snd.out ==> (s.syn && s.ack && !s.rst) || (s.rst && Dead(b))
    ensures var d := TimerPass(cfg, b, now);
            && (d.state == Closed || d.state == SynRcvd)
            && (forall s :: s in d.snd.out ==> (s.syn && s.ack && !s.rst) || (s.rst && Dead(d)))
  {
    if b.open {
      var d := CheckTimeouts(cfg, b, now);
      if ConnExpired(b, now) {
        CloseInternalEffect(cfg, b, ALL_CLOSERS, true, now);
        assert d.state == Closed && d.snd.started;
        assert d.snd.out == b.snd.out + [AckRst(b)];
      } else {
        var sends := PassSends(b.snd.txq, b.snd.una, b.rcv.cur, now, b.opt.packetTimeout);
        assert d.snd.out == b.snd.out + sends;
        forall s | s in sends ensures s.syn && s.ack && !s.rst {
          PassSendsFrom(b.snd.txq, b.snd.una, b.rcv.cur, now, b.opt.packetTimeout, s);
          var e :| e in b.snd.txq && s == e.seg.(ackNr := b.rcv.cur);
          assert TxSeg(w, b.listening, b.snd.iss, |b.snd.accepted|, b.rcv.synced, e);
        }
      }
    }
  }

  /** The listening side acts before the connecting side has its answer. */
  lemma ListenerStep(cfg: Config, opts: Options, limit: nat, a: Conn, b: Conn, act: Act)
    requires Handshake(a, b) && !a.rcv.synced && Enabled(cfg, limit, b, a, act)
    requires CtlOk(b) && Honest(opts.window, b) && b.listening && Ok(b, a.snd.iss, a.snd.accepted)
    requires SenderOk(a.snd) && WindowOk(opts.window, b, |a.rcv.delivered|)
    ensures Handshake(a, Do(cfg, opts, b, act))
  {
    assert act.Route?;
    var s, now := act.s, act.now;
    var b1 := TimerPass(cfg, b, now);
    ListenerTimer(cfg, opts.window, b, now);
    TimerPassOk(cfg, b, a.snd.iss, a.snd.accepted, now);
    if s.Some? {
      assert WellSent(a.snd, s.value);
      if !b1.open && b.snd.started {
        DeadSendsResets(cfg, b1, s.value, now, act.iss, act.sockOk);
      }
    }
  }

  /** A slot that is not used again answers everything with a reset, or not at all. */
  lemma DeadSendsResets(cfg: Config, c: Conn, s: Segment, now: u32, own: u16, sockOk: bool)
    requires CtlOk(c) && !c.open && c.listening && c.snd.started && !s.syn
    ensures var d := RoutePacket(cfg, c, s, now, own, sockOk);
            Dead(d) && (d.snd.out == c.snd.out || d.snd.out == c.snd.out + [Rst(c)])
  {
  }

  // ---------------------------------------------------------------- the system

  ghost predicate WInv(w: nat, limit: nat, y: Sys) {
    && Inv(y) && !y.a.listening && y.b.listening
    && |y.a.snd.accepted| <= limit && |y.b.snd.accepted| <= limit
    && WindowOk(w, y.a, |y.b.rcv.delivered|) && WindowOk(w, y.b, |y.a.rcv.delivered|)
    && Honest(w, y.b) && HasMarks(w, y.b)
    && (!Dead(y.b) ==> Honest(w, y.a) && HasMarks(w, y.a))
    && Handshake(y.a, y.b)
    && (y.a.state != Closed && y.b.state != Closed ==>
          AllHeld(y.a.snd, y.b.rcv) && AllHeld(y.b.snd, y.a.rcv))
  }

  /** What the connecting side is sent suits it. */
  lemma InputToA(cfg: Config, w: nat, limit: nat, y: Sys, s: Segment, now: u32)
    requires WInv(w, limit, y) && s in y.b.snd.out && SingleUse(cfg, y.a, s, now) && limit < 0x8000
    ensures InputOk(cfg, w, y.a, y.b, Some(s), now)
    ensures !Dead(y.b) ==> Expected(TimerPass(cfg, y.a, now), s)
    ensures y.b.state != Closed ==> EackOk(y.b.rcv, s)
  {
    assert SegOk(w, y.b.listening, y.b.snd.iss, |y.b.snd.accepted|, y.b.rcv, s);
    if y.a.open {
      CheckTimeoutsCtl(cfg, y.a, now);
    }
  }

  /** Before anything is delivered, every number of the first window is acceptable. */
  lemma FirstWindow(c: Conn, iss: u16, x: u16, w: nat)
    requires c.rcv.cur == Wrap(iss) && c.opt.window == w && 1 <= Offset(iss, x) <= w + 1 && 1 <= w < 0x4000
    ensures SeqAcceptable(c, x)
  {
  }

  /** What the listening side is sent suits it. */
  lemma InputToB(cfg: Config, w: nat, limit: nat, y: Sys, s: Segment, now: u32)
    requires WInv(w, limit, y) && s in y.a.snd.out && SingleUse(cfg, y.b, s, now)
    requires 1 <= w && limit + 2 * w < 0x8000
    ensures InputOk(cfg, w, y.b, y.a, Some(s), now)
    ensures Expected(TimerPass(cfg, y.b, now), s)
    ensures y.b.open && y.a.state != Closed ==> EackOk(y.a.rcv, s)
  {
    var b1 := TimerPass(cfg, y.b, now);
    TimerPassOk(cfg, y.b, y.a.snd.iss, y.a.snd.accepted, now);
    if y.b.open {
      CheckTimeoutsCtl(cfg, y.b, now);
      CheckTimeoutsEffect(cfg, y.b, now);
    }
    if !Dead(y.b) {
      assert SegOk(w, y.a.listening, y.a.snd.iss, |y.a.snd.accepted|, y.a.rcv, s);
      if b1.state == SynRcvd && !s.syn && !s.rst && s.ack {
        FirstWindow(b1, y.a.snd.iss, s.seqNr, w);
      }
    }
  }

  lemma StepA(cfg: Config, opts: Options, limit: nat, y: Sys, act: Act)
    requires Sane(cfg, opts, limit) && WInv(opts.window, limit, y) && Enabled(cfg, limit, y.a, y.b, act)
    ensures WInv(opts.window, limit, y.(a := Do(cfg, opts, y.a, act)))
  {
    var w, a, b, d := opts.window, y.a, y.b, Do(cfg, opts, y.a, act);
    StepInv(cfg, opts, limit, y, Event(A, act), y.(a := d));
    EnabledCanAct(cfg, limit, a, b, act);
    DoCtl(cfg, opts, a, act);
    DoOk(cfg, opts, limit, a, b, act);
    if act.Route? && act.s.Some? {
      InputToA(cfg, w, limit, y, act.s.value, act.now);
    }
    DoWindow(cfg, opts, limit, a, b, act);
    if !Dead(b) {
      DoHonest(cfg, opts, limit, a, b, act);
      DoQueue(cfg, opts, limit, a, b, act);
      assert !d.rcv.synced ==> forall s :: s in d.snd.out ==>
        SegOk(w, d.listening, d.snd.iss, |d.snd.accepted|, d.rcv, s);
      if d.state != Closed && b.state != Closed && a.rcv.synced {
        GrowsHeld(b.snd, a.rcv, d.rcv);
      }
    }
  }

  lemma StepB(cfg: Config, opts: Options, limit: nat, y: Sys, act: Act)
    requires Sane(cfg, opts, limit) && WInv(opts.window, limit, y) && Enabled(cfg, limit, y.b, y.a, act)
    ensures WInv(opts.window, limit, y.(b := Do(cfg, opts, y.b, act)))
  {
    var w, a, b, d := opts.window, y.a, y.b, Do(cfg, opts, y.b, act);
    StepInv(cfg, opts, limit, y, Event(B, act), y.(b := d));
    EnabledCanAct(cfg, limit, b, a, act);
    DoCtl(cfg, opts, b, act);
    DoOk(cfg, opts, limit, b, a, act);
    if act.Route? && act.s.Some? {
      InputToB(cfg, w, limit, y, act.s.value, act.now);
    }
    DoWindow(cfg, opts, limit, b, a, act);
    DoHonest(cfg, opts, limit, b, a, act);
    DoQueue(cfg, opts, limit, b, a, act);
    if !a.rcv.synced {
      ListenerStep(cfg, opts, limit, a, b, act);
    }
    if d.state != Closed && a.state != Closed && b.rcv.synced {
      GrowsHeld(a.snd, b.rcv, d.rcv);
    }
  }

  lemma {:induction false} RunW(cfg: Config, opts: Options, limit: nat, evs: seq<Event>, ys: seq<Sys>, i: nat)
    requires Sane(cfg, opts, limit) && IsRun(cfg, opts, limit, evs, ys) && i <= |evs|
    ensures WInv(opts.window, limit, ys[i])
  {
    if i == 0 {
      FreshMarks(opts.window, ys[0].a);
      FreshMarks(opts.window, ys[0].b);
    } else {
      RunW(cfg, opts, limit, evs, ys, i - 1);
      var y, ev := ys[i - 1], evs[i - 1];
      assert Step(cfg, opts, limit, y, ev, ys[i - 1 + 1]);
      if ev.node.A? {
        StepA(cfg, opts, limit, y, ev.act);
      } else {
        StepB(cfg, opts, limit, y, ev.act);
      }
    }
  }

  /** Window fit, in every state of every run: counted from the initial number, the oldest unacknowledged number
      is at most the next one, the next one is at most a window past what the peer has delivered, and the peer
      would accept every number it still lacks. Stale acknowledgements that step backwards do not break this. */
  lemma WindowFit(cfg: Config, opts: Options, limit: nat, evs: seq<Event>, ys: seq<Sys>, i: nat, n: Node, k: nat)
    requires Sane(cfg, opts, limit) && IsRun(cfg, opts, limit, evs, ys) && i <= |evs|
    ensures var s, r := At(ys[i], n), Peer(ys[i], n);
            && (s.snd.started ==> s.snd.nxt == Wrap(s.snd.iss + |s.snd.accepted| + 1))
            && |s.snd.accepted| <= |r.rcv.delivered| + opts.window
            && (s.state != Closed ==> Una(s) <= |r.rcv.delivered| + 1 <= |s.snd.accepted| + 1)
            && (r.state == Open && |r.rcv.delivered| <= k < |s.snd.accepted| ==>
                  SeqAcceptable(r, Wrap(s.snd.iss + 1 + k)))
  {
    RunW(cfg, opts, limit, evs, ys, i);
    var s, r := At(ys[i], n), Peer(ys[i], n);
    if r.state == Open && |r.rcv.delivered| <= k < |s.snd.accepted| {
      LackingIsAcceptable(r, s.snd.iss, |r.rcv.delivered|, k, opts.window);
    }
  }

  lemma LackingIsAcceptable(r: Conn, iss: u16, d: nat, k: nat, w: nat)
    requires r.rcv.cur == Wrap(iss + d) && r.opt.window == w && d <= k < d + w && w < 0x4000
    ensures SeqAcceptable(r, Wrap(iss + 1 + k))
  {
    var base := r.rcv.cur;
    assert Wrap(base + (k - d + 1)) == Wrap(iss + 1 + k);
    BetweenIsInRange(base, k - d + 1, 1, 2 * w);
  }

  predicate InTxQueue(s: Conn, k: nat) {
    && k < |s.snd.accepted|
    && (exists e :: e in s.snd.txq && e.seg.seqNr == Wrap(s.snd.iss + 1 + k) && e.seg.data == s.snd.accepted[k])
  }

  predicate InReorderQueue(s: Conn, r: Conn, k: nat) {
    && k < |s.snd.accepted|
    && (exists t :: t in r.rcv.rxq && t.seqNr == Wrap(s.snd.iss + 1 + k) && t.data == s.snd.accepted[k])
  }

  /** Recoverability, in every state of every run: while both connections exist, every payload accepted and not
      yet delivered is in the sender's retransmit queue or in the receiver's reorder queue, with its number. The
      retransmit queue never overflows and no acknowledgement frees a segment that is still needed. */
  lemma Recoverability(cfg: Config, opts: Options, limit: nat, evs: seq<Event>, ys: seq<Sys>, i: nat, n: Node, k: nat)
    requires Sane(cfg, opts, limit) && IsRun(cfg, opts, limit, evs, ys) && i <= |evs|
    requires At(ys[i], n).state != Closed && Peer(ys[i], n).state != Closed
    requires |Peer(ys[i], n).rcv.delivered| <= k < |At(ys[i], n).snd.accepted|
    ensures InTxQueue(At(ys[i], n), k) || InReorderQueue(At(ys[i], n), Peer(ys[i], n), k)
  {
    RunW(cfg, opts, limit, evs, ys, i);
    HeldMeans(opts.window, At(ys[i], n), Peer(ys[i], n), k);
  }

  lemma HeldMeans(w: nat, s: Conn, r: Conn, k: nat)
    requires AllHeld(s.snd, r.rcv) && SenderOk(s.snd) && ReceiverOk(r.rcv, s.snd.iss, s.snd.accepted) && r.rcv.synced
    requires TxOk(w, s) && |r.rcv.delivered| <= k < |s.snd.accepted|
    ensures InTxQueue(s, k) || InReorderQueue(s, r, k)
  {
    assert Held(s.snd, r.rcv, k);
    if InTx(s.snd, k) {
      KeptMeans(w, s, k);
    } else {
      WaitingMeans(s, r, k);
    }
  }

  lemma KeptMeans(w: nat, s: Conn, k: nat)
    requires SenderOk(s.snd) && TxOk(w, s) && k < |s.snd.accepted| && InTx(s.snd, k)
    ensures InTxQueue(s, k)
  {
  }

  lemma WaitingMeans(s: Conn, r: Conn, k: nat)
    requires ReceiverOk(r.rcv, s.snd.iss, s.snd.accepted) && r.rcv.synced
    requires |r.rcv.delivered| <= k < |s.snd.accepted| && Covers(r.rcv, Wrap(s.snd.iss + 1 + k))
    ensures InReorderQueue(s, r, k)
  {
    OffsetOfWrap(s.snd.iss, k + 1);
    OffsetOfWrap(s.snd.iss + 1, k);
    var t :| t in r.rcv.rxq && t.seqNr == Wrap(s.snd.iss + 1 + k);
    assert CarriesItsPayload(s.snd.iss, s.snd.accepted, t);
  }

  /** While the connecting side waits for its answer, nothing it is sent looks like a half-open connection. */
  lemma HalfOpenUnreachable(cfg: Config, opts: Options, limit: nat, evs: seq<Event>, ys: seq<Sys>, i: nat, s: Segment)
    requires Sane(cfg, opts, limit) && IsRun(cfg, opts, limit, evs, ys) && i <= |evs|
    requires ys[i].a.state == SynSent && s in ys[i].b.snd.out && !s.rst
    ensures s.syn && s.ack
  {
    RunW(cfg, opts, limit, evs, ys, i);
  }
}
