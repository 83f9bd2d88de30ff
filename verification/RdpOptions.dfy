/** Both ends of a connection work with the options of the side that connected. */
module RdpOptions {
  import opened Base
  import opened SeqNum
  import opened RdpModel
  import opened RdpSystem
  import opened RdpClose
  import opened RdpOrder
  import opened RdpAcks
  import opened RdpHonest
  import opened RdpEffect
  import opened RdpRecover
  import opened RdpWindow

  /** Every SYN of the connecting side, sent or waiting to be sent again, carries the options. */
  predicate Announces(opts: Options, c: Conn) {
    c.listening
    || ((forall s <- c.snd.out :: s.syn ==> s.opts == opts)
        && (forall e <- c.snd.txq :: e.seg.syn ==> e.seg.opts == opts))
  }

  predicate Uses(opts: Options, c: Conn) { c.state != Closed ==> c.opt == opts }

  predicate Agrees(opts: Options, c: Conn) { Announces(opts, c) && Uses(opts, c) }

  // ---------------------------------------------------------------- building blocks

  lemma CmpAgrees(cfg: Config, opts: Options, c: Conn, s: Segment, now: u32)
    requires Announces(opts, c) && !s.syn
    ensures Announces(opts, SendCmp(cfg, c, s, now)) && SendCmp(cfg, c, s, now) == c.(
              snd := SendCmp(cfg, c, s, now).snd, rcvLsa := SendCmp(cfg, c, s, now).rcvLsa,
              ackTimestamp := SendCmp(cfg, c, s, now).ackTimestamp)
  {
  }

  lemma {:induction false} EackKeeps(opts: Options, q: seq<TxEntry>, eacks: seq<u16>, now: u32, pt: u32)
    requires forall e <- q :: e.seg.syn ==> e.seg.opts == opts
    ensures forall e <- EackFilter(q, eacks, now, pt) :: e.seg.syn ==> e.seg.opts == opts
    decreases q
  {
    if q != [] {
      EackKeeps(opts, q[1..], eacks, now, pt);
    }
  }

  lemma {:induction false} PassKeeps(opts: Options, q: seq<TxEntry>, una: u16, ackNr: u16, now: u32, pt: u32)
    requires forall e <- q :: e.seg.syn ==> e.seg.opts == opts
    ensures forall e <- PassFilter(q, una, ackNr, now, pt) :: e.seg.syn ==> e.seg.opts == opts
    ensures forall s <- PassSends(q, una, ackNr, now, pt) :: s.syn ==> s.opts == opts
    decreases q
  {
    hide SeqBefore, Due;
    if q != [] {
      PassKeeps(opts, q[1..], una, ackNr, now, pt);
    }
  }

  lemma CheckAckAgrees(cfg: Config, opts: Options, c: Conn, now: u32)
    requires Announces(opts, c)
    ensures Announces(opts, CheckAck(cfg, c, now)) && CheckAck(cfg, c, now).state == c.state
    ensures CheckAck(cfg, c, now).opt == c.opt && CheckAck(cfg, c, now).listening == c.listening
  {
    hide SendCmp, ShouldAck, Announces;
    CmpAgrees(cfg, opts, c, Ack(c), now);
  }

  lemma CloseInternalAgrees(cfg: Config, opts: Options, c: Conn, who: set<Closer>, rst: bool, now: u32)
    requires Announces(opts, c)
    ensures var d := CloseInternal(cfg, c, who, rst, now).0;
            && Announces(opts, d) && d.opt == c.opt && d.listening == c.listening
            && (c.state == Closed ==> d.state == Closed)
  {
    hide SendCmp, AckRst, Announces;
    if c.state != Closed {
      var c1 := c.(closedBy := c.closedBy + who, closeLog := c.closeLog + who);
      var w := c1.(state := CloseWait, timestamp := now);
      SameSnd(opts, c, c1);
      SameSnd(opts, c, w);
      RstAgrees(cfg, opts, w, now);
      var c2 := if c.state == CloseWait then c1 else if rst then SendCmp(cfg, w, AckRst(w), now) else w;
      SameSnd(opts, c2, c2.(state := Closed, closedBy := {}));
      assert CloseInternal(cfg, c, who, rst, now).0
          == if c2.closedBy != ALL_CLOSERS then c2 else c2.(state := Closed, closedBy := {});
    }
  }

  lemma RstAgrees(cfg: Config, opts: Options, c: Conn, now: u32)
    requires Announces(opts, c)
    ensures var d := SendCmp(cfg, c, AckRst(c), now);
            Announces(opts, d) && d.opt == c.opt && d.listening == c.listening
  {
    hide SendCmp, Announces;
    CmpAgrees(cfg, opts, c, AckRst(c), now);
  }

  lemma FlushAgrees(opts: Options, c: Conn)
    requires Announces(opts, c)
    ensures Announces(opts, Flush(c))
  {
  }

  lemma ConnCloseAgrees(cfg: Config, opts: Options, c: Conn, who: set<Closer>, now: u32)
    requires Announces(opts, c)
    ensures var d := ConnClose(cfg, c, who, now);
            && Announces(opts, d) && d.opt == c.opt && d.listening == c.listening
            && (c.state == Closed ==> d.state == Closed)
  {
    hide CloseInternal, Announces;
    CloseInternalAgrees(cfg, opts, c, who, true, now);
    FlushAgrees(opts, CloseInternal(cfg, c, who, true, now).0);
  }

  lemma DiscardCloseAgrees(cfg: Config, opts: Options, c: Conn, who: set<Closer>, now: u32)
    requires Announces(opts, c)
    ensures Announces(opts, DiscardClose(cfg, c, who, now)) && DiscardClose(cfg, c, who, now).opt == c.opt
    ensures c.state == Closed ==> DiscardClose(cfg, c, who, now).state == Closed
  {
    hide ConnClose, Announces;
    ConnCloseAgrees(cfg, opts, c, who, now);
    ConnCloseAgrees(cfg, opts, c, who + {Userspace}, now);
    var c1 := ConnClose(cfg, c, who, now);
    SameSnd(opts, c1, c1.(rcv := WakeReader(cfg, c1.rcv)));
  }

  lemma SameSnd(opts: Options, c: Conn, d: Conn)
    requires Announces(opts, c) && d.snd.out == c.snd.out && d.snd.txq == c.snd.txq && d.listening == c.listening
    ensures Announces(opts, d)
  {
  }

  lemma RetransmitAgrees(opts: Options, c: Conn, now: u32)
    requires Announces(opts, c)
    ensures Announces(opts, c.(snd := Retransmit(c.snd, c.rcv.cur, now, c.opt.packetTimeout)))
  {
    hide PassFilter, PassSends;
    if !c.listening {
      PassKeeps(opts, c.snd.txq, c.snd.una, c.rcv.cur, now, c.opt.packetTimeout);
    }
  }

  lemma TimerPassAgrees(cfg: Config, opts: Options, c: Conn, now: u32)
    requires Agrees(opts, c)
    ensures Agrees(opts, TimerPass(cfg, c, now)) && TimerPass(cfg, c, now).opt == c.opt
    ensures c.state == Closed ==> TimerPass(cfg, c, now).state == Closed
  {
    hide CheckAck, RxFlush, Retransmit, ConnClose, Announces;
    ConnCloseAgrees(cfg, opts, c, ALL_CLOSERS, now);
    ConnCloseAgrees(cfg, opts, c, {Protocol, Timeout}, now);
    RetransmitAgrees(opts, c, now);
    var c1 := c.(snd := Retransmit(c.snd, c.rcv.cur, now, c.opt.packetTimeout));
    CheckAckAgrees(cfg, opts, c1, now);
    var c2 := if c1.state == Open && c1.opt.delayedAcks != 0 then CheckAck(cfg, c1, now) else c1;
    SameSnd(opts, c2, c2.(rcv := RxFlush(cfg, c2.rcv, |c2.rcv.rxq|)));
  }

  // ---------------------------------------------------------------- incoming segments

  lemma RecvRstAgrees(cfg: Config, opts: Options, c: Conn, s: Segment, now: u32)
    requires Announces(opts, c)
    ensures Announces(opts, RecvRst(cfg, c, s, now)) && RecvRst(cfg, c, s, now).opt == c.opt
    ensures c.state == Closed ==> RecvRst(cfg, c, s, now).state == Closed
  {
    hide SendCmp, DiscardClose, Announces;
    var c1 := if s.ack then TakeAck(c, s) else c;
    SameSnd(opts, c, c1);
    var c2 := c1.(state := CloseWait, timestamp := now);
    SameSnd(opts, c, c2);
    CmpAgrees(cfg, opts, c2, AckRst(c2), now);
    DiscardCloseAgrees(cfg, opts, SendCmp(cfg, c2, AckRst(c2), now), {Protocol, Timeout}, now);
    DiscardCloseAgrees(cfg, opts, c1, if s.ack then {Protocol, Timeout} else {Protocol}, now);
  }

  lemma EackTaken(opts: Options, c: Conn, eacks: seq<u16>, now: u32)
    requires Announces(opts, c)
    ensures Announces(opts, c.(snd := c.snd.(txq := EackFilter(c.snd.txq, eacks, now, c.opt.packetTimeout))))
  {
    hide EackFilter;
    if !c.listening {
      EackKeeps(opts, c.snd.txq, eacks, now, c.opt.packetTimeout);
    }
  }

  lemma RecvAheadAgrees(cfg: Config, opts: Options, c: Conn, s: Segment, now: u32)
    requires Announces(opts, c)
    ensures Announces(opts, RecvAhead(cfg, c, s, now)) && RecvAhead(cfg, c, s, now).opt == c.opt
  {
    hide SendCmp, CheckAck, ScanRx, RxAdd, Announces;
    var (found, q) := ScanRx(c.rcv.rxq, s.seqNr, |c.rcv.rxq|);
    var ahead := c.(rcv := c.rcv.(rxq := q));
    SameSnd(opts, c, ahead);
    CheckAckAgrees(cfg, opts, ahead, now);
    var kept := ahead.(rcv := RxAdd(cfg, ahead.rcv, s));
    SameSnd(opts, c, kept);
    CmpAgrees(cfg, opts, kept, Eack(kept), now);
  }

  lemma RecvInOrderAgrees(cfg: Config, opts: Options, c: Conn, s: Segment, now: u32)
    requires Announces(opts, c)
    ensures Announces(opts, RecvInOrder(cfg, c, s, now)) && RecvInOrder(cfg, c, s, now).opt == c.opt
  {
    hide CheckAck, RxFlush, Deliver, Announces;
    var given := c.(rcv := Deliver(cfg, c.rcv, s.data).(cur := s.seqNr));
    SameSnd(opts, c, given);
    CheckAckAgrees(cfg, opts, given, now);
    var acked := CheckAck(cfg, given, now);
    SameSnd(opts, acked, acked.(rcv := RxFlush(cfg, acked.rcv, |acked.rcv.rxq|)));
  }

  lemma RecvAcceptedAgrees(cfg: Config, opts: Options, c: Conn, s: Segment, now: u32)
    requires Announces(opts, c)
    ensures Announces(opts, RecvAccepted(cfg, c, s, now)) && RecvAccepted(cfg, c, s, now).opt == c.opt
  {
    hide RecvAhead, RecvInOrder, EackFilter, Announces;
    var c1 := TakeAck(c, s);
    SameSnd(opts, c, c1);
    EackTaken(opts, c1, s.eacks, now);
    RecvAheadAgrees(cfg, opts, c1, s, now);
    RecvInOrderAgrees(cfg, opts, c1, s, now);
  }

  lemma RecvOpenAgrees(cfg: Config, opts: Options, c: Conn, s: Segment, now: u32, sockOk: bool)
    requires Announces(opts, c) && (c.state == SynRcvd ==> c.listening)
    ensures Announces(opts, RecvOpen(cfg, c, s, now, sockOk)) && RecvOpen(cfg, c, s, now, sockOk).opt == c.opt
  {
    hide SendCmp, DiscardClose, RecvAccepted, SeqAcceptable, AckAcceptable, Announces;
    CmpAgrees(cfg, opts, c, Eack(c), now);
    if c.state == SynRcvd {
      ListenerAnnounces(cfg, opts, c, SynAck(c), now);
    }
    DiscardCloseAgrees(cfg, opts, c, {Protocol}, now);
    SameSnd(opts, c, c.(state := Open));
    DiscardCloseAgrees(cfg, opts, c.(state := Open), {Protocol}, now);
    RecvAcceptedAgrees(cfg, opts, c, s, now);
    SameSnd(opts, c, HandOver(c));
    RecvAcceptedAgrees(cfg, opts, HandOver(c), s, now);
  }

  lemma ListenerAnnounces(cfg: Config, opts: Options, c: Conn, s: Segment, now: u32)
    requires c.listening
    ensures Announces(opts, SendCmp(cfg, c, s, now)) && SendCmp(cfg, c, s, now).opt == c.opt
    ensures SendCmp(cfg, c, s, now).state == c.state
  {
  }

  lemma NewPacketAgrees(cfg: Config, opts: Options, c: Conn, s: Segment, now: u32, iss: u16, sockOk: bool)
    requires Agrees(opts, c) && CtlOk(c) && c.open
    ensures Agrees(opts, NewPacket(cfg, c, s, now, iss, sockOk))
  {
    hide RecvRst, RecvOpen, SendCmp, DiscardClose, AckAcceptable, Announces;
    RecvRstAgrees(cfg, opts, c, s, now);
    RecvOpenAgrees(cfg, opts, c, s, now, sockOk);
    var e := Established(c, s, now);
    SameSnd(opts, c, e);
    CmpAgrees(cfg, opts, e, Ack(e), now);
    CmpAgrees(cfg, opts, c, Rst(c), now);
    DiscardCloseAgrees(cfg, opts, c, {Protocol}, now);
    SameSnd(opts, c, TakeAck(c, s));
    CmpAgrees(cfg, opts, TakeAck(c, s), AckRst(c), now);
  }

  /** A segment that finds the slot closed: a SYN brings the options with it. */
  lemma ReopenAgrees(cfg: Config, opts: Options, c: Conn, s: Segment, now: u32, iss: u16, sockOk: bool)
    requires c.listening && !c.open && CtlOk(c) && (s.syn && !s.rst ==> s.opts == opts)
    ensures Agrees(opts, RoutePacket(cfg, c, s, now, iss, sockOk))
  {
    hide SendCmp, DiscardClose, ConnClose, RecvRst;
    var c1 := Reopen(c, now);
    RecvRstAgrees(cfg, opts, c1, s, now);
    ConnCloseAgrees(cfg, opts, RecvRst(cfg, c1, s, now), {Userspace}, now);
    ListenerAnnounces(cfg, opts, Accept(c1, s, iss), SynAck(Accept(c1, s, iss)), now);
    ListenerAnnounces(cfg, opts, c1, Rst(c1), now);
    DiscardCloseAgrees(cfg, opts, SendCmp(cfg, c1, Rst(c1), now), {Protocol}, now);
  }

  lemma RouteAgrees(cfg: Config, opts: Options, c: Conn, s: Option<Segment>, now: u32, iss: u16, sockOk: bool)
    requires Agrees(opts, c) && CtlOk(c)
    requires s.Some? && s.value.syn && !s.value.rst && !TimerPass(cfg, c, now).open && c.listening ==>
               s.value.opts == opts
    ensures Agrees(opts, RouteWork(cfg, c, s, now, iss, sockOk))
  {
    TimerPassAgrees(cfg, opts, c, now);
    if c.open {
      CheckTimeoutsCtl(cfg, c, now);
    }
    hide TimerPass, NewPacket, Agrees, CtlOk;
    var c1 := TimerPass(cfg, c, now);
    if s.Some? {
      if c1.open {
        NewPacketAgrees(cfg, opts, c1, s.value, now, iss, sockOk);
        Undisturbed(cfg, c1, s.value, now, iss, sockOk);
      } else if c1.listening {
        StillListens(cfg, c, now);
        ReopenAgrees(cfg, opts, c1, s.value, now, iss, sockOk);
      }
    }
  }

  lemma StillListens(cfg: Config, c: Conn, now: u32)
    requires CtlOk(c)
    ensures TimerPass(cfg, c, now).listening == c.listening
  {
    if c.open {
      CheckTimeoutsCtl(cfg, c, now);
    }
  }

  lemma Undisturbed(cfg: Config, c: Conn, s: Segment, now: u32, iss: u16, sockOk: bool)
    requires CtlOk(c) && c.open
    ensures RoutePacket(cfg, c, s, now, iss, sockOk) == NewPacket(cfg, c, s, now, iss, sockOk)
  {
    hide NewPacket;
  }

  // ---------------------------------------------------------------- runs

  lemma DoAgrees(cfg: Config, opts: Options, limit: nat, c: Conn, p: Conn, act: Act)
    requires Agrees(opts, c) && CtlOk(c) && Enabled(cfg, limit, c, p, act)
    requires (act.Route? && act.s.Some? && act.s.value.syn && !act.s.value.rst && !TimerPass(cfg, c, act.now).open
              && c.listening) ==> act.s.value.opts == opts
    ensures Agrees(opts, Do(cfg, opts, c, act))
  {
    match act
    case Connect(now, iss) =>
    case ConnectDone(now, woken) =>
      hide CloseInternal, ConnClose;
      CloseInternalAgrees(cfg, opts, c, {Protocol}, false, now);
      ConnCloseAgrees(cfg, opts, CloseInternal(cfg, c, {Protocol}, false, now).0, {Userspace}, now);
    case Route(s, now, iss, sockOk) => RouteAgrees(cfg, opts, c, s, now, iss, sockOk);
    case Send(data, now) =>
    case Read(now) =>
      if c.open && c.rcv.inbox != [] {
        hide CheckAck;
        CheckAckAgrees(cfg, opts, c.(rcv := RcvPop(c.rcv)), now);
      }
    case Close(now) =>
      hide ConnClose;
      ConnCloseAgrees(cfg, opts, c, {Userspace}, now);
  }

  /** The options agree: in every state of every run, an end that is not closed works with the options of the side that
      connected, which every SYN announces. */
  lemma {:induction false} OptionsAgree(cfg: Config, opts: Options, limit: nat, evs: seq<Event>, ys: seq<Sys>, i: nat)
    requires IsRun(cfg, opts, limit, evs, ys) && i <= |evs|
    ensures ys[i].a.state != Closed ==> ys[i].a.opt == opts
    ensures ys[i].b.state != Closed ==> ys[i].b.opt == opts
    ensures Agrees(opts, ys[i].a) && Agrees(opts, ys[i].b) && !ys[i].a.listening && ys[i].b.listening
    decreases i
  {
    if i > 0 {
      OptionsAgree(cfg, opts, limit, evs, ys, i - 1);
      RunCtl(cfg, opts, limit, evs, ys, i - 1);
      var y, ev := ys[i - 1], evs[i - 1];
      assert Step(cfg, opts, limit, y, ev, ys[i - 1 + 1]);
      var c, p := At(y, ev.node), Peer(y, ev.node);
      EnabledCanAct(cfg, limit, c, p, ev.act);
      DoCtl(cfg, opts, c, ev.act);
      DoAgrees(cfg, opts, limit, c, p, ev.act);
    }
  }
}
