/** What a side has sent and received only grows, and what it has accepted grows by user sends alone. */
module RdpTrace {
  import opened Base
  import opened SeqNum
  import opened RdpModel
  import opened RdpSystem
  import opened RdpClose

  /** Everything sent and accepted before is still there, first, and no less has been delivered. */
  predicate Extends(c: Conn, d: Conn) {
    c.snd.out <= d.snd.out && c.snd.accepted <= d.snd.accepted && |c.rcv.delivered| <= |d.rcv.delivered|
  }

  /** The same, with nothing new accepted. */
  predicate Sends(c: Conn, d: Conn) { Extends(c, d) && d.snd.accepted == c.snd.accepted }

  lemma CmpSends(cfg: Config, c: Conn, s: Segment, now: u32)
    ensures Sends(c, SendCmp(cfg, c, s, now))
  {
  }

  lemma CheckAckSends(cfg: Config, c: Conn, now: u32)
    ensures Sends(c, CheckAck(cfg, c, now))
  {
    hide SendCmp, ShouldAck, Ack;
    CmpSends(cfg, c, Ack(c), now);
  }

  lemma AckKeepsReceiver(cfg: Config, c: Conn, now: u32)
    ensures CheckAck(cfg, c, now).rcv == c.rcv
  {
  }

  lemma CloseInternalSends(cfg: Config, c: Conn, who: set<Closer>, rst: bool, now: u32)
    ensures Sends(c, CloseInternal(cfg, c, who, rst, now).0)
  {
    hide SendCmp, AckRst;
    if c.state != Closed {
      var c1 := c.(closedBy := c.closedBy + who, closeLog := c.closeLog + who);
      var w := c1.(state := CloseWait, timestamp := now);
      CmpSends(cfg, w, AckRst(w), now);
      var c2 := if c.state == CloseWait then c1 else if rst then SendCmp(cfg, w, AckRst(w), now) else w;
      assert CloseInternal(cfg, c, who, rst, now).0
          == if c2.closedBy != ALL_CLOSERS then c2 else c2.(state := Closed, closedBy := {});
    }
  }

  lemma ConnCloseSends(cfg: Config, c: Conn, who: set<Closer>, now: u32)
    ensures Sends(c, ConnClose(cfg, c, who, now))
  {
    hide CloseInternal;
    CloseInternalSends(cfg, c, who, true, now);
  }

  lemma DiscardCloseSends(cfg: Config, c: Conn, who: set<Closer>, now: u32)
    ensures Sends(c, DiscardClose(cfg, c, who, now))
  {
    hide ConnClose;
    ConnCloseSends(cfg, c, who, now);
    ConnCloseSends(cfg, c, who + {Userspace}, now);
  }

  lemma TimerPassSends(cfg: Config, c: Conn, now: u32)
    ensures Sends(c, TimerPass(cfg, c, now))
  {
    hide CheckAck, RxFlush, PassFilter, PassSends, ConnClose;
    ConnCloseSends(cfg, c, ALL_CLOSERS, now);
    ConnCloseSends(cfg, c, {Protocol, Timeout}, now);
    CheckAckSends(cfg, c.(snd := Retransmit(c.snd, c.rcv.cur, now, c.opt.packetTimeout)), now);
    AckKeepsReceiver(cfg, c.(snd := Retransmit(c.snd, c.rcv.cur, now, c.opt.packetTimeout)), now);
    RxFlushSynced(cfg, c.rcv, |c.rcv.rxq|);
  }

  lemma RecvRstSends(cfg: Config, c: Conn, s: Segment, now: u32)
    ensures Sends(c, RecvRst(cfg, c, s, now))
  {
    hide SendCmp, DiscardClose, AckRst;
    var c1 := if s.ack then TakeAck(c, s) else c;
    var c2 := c1.(state := CloseWait, timestamp := now);
    CmpSends(cfg, c2, AckRst(c2), now);
    DiscardCloseSends(cfg, SendCmp(cfg, c2, AckRst(c2), now), {Protocol, Timeout}, now);
    DiscardCloseSends(cfg, c1, if s.ack then {Protocol, Timeout} else {Protocol}, now);
  }

  lemma RecvAheadSends(cfg: Config, c: Conn, s: Segment, now: u32)
    ensures Sends(c, RecvAhead(cfg, c, s, now))
  {
    hide SendCmp, CheckAck, ScanRx, Eack;
    var (found, q) := ScanRx(c.rcv.rxq, s.seqNr, |c.rcv.rxq|);
    var ahead := c.(rcv := c.rcv.(rxq := q));
    CheckAckSends(cfg, ahead, now);
    var kept := ahead.(rcv := RxAdd(cfg, ahead.rcv, s));
    CmpSends(cfg, kept, Eack(kept), now);
  }

  lemma RecvInOrderSends(cfg: Config, c: Conn, s: Segment, now: u32)
    ensures Sends(c, RecvInOrder(cfg, c, s, now))
  {
    hide CheckAck, RxFlush;
    var given := c.(rcv := Deliver(cfg, c.rcv, s.data).(cur := s.seqNr));
    CheckAckSends(cfg, given, now);
    AckKeepsReceiver(cfg, given, now);
    RxFlushSynced(cfg, given.rcv, |given.rcv.rxq|);
  }

  lemma RecvAcceptedSends(cfg: Config, c: Conn, s: Segment, now: u32)
    ensures Sends(c, RecvAccepted(cfg, c, s, now))
  {
    hide RecvAhead, RecvInOrder, EackFilter;
    RecvAheadSends(cfg, TakeAck(c, s), s, now);
    RecvInOrderSends(cfg, TakeAck(c, s), s, now);
  }

  lemma RecvOpenSends(cfg: Config, c: Conn, s: Segment, now: u32, sockOk: bool)
    ensures Sends(c, RecvOpen(cfg, c, s, now, sockOk))
  {
    hide SendCmp, DiscardClose, RecvAccepted, SynAck, Eack, SeqAcceptable, AckAcceptable;
    CmpSends(cfg, c, SynAck(c), now);
    CmpSends(cfg, c, Eack(c), now);
    DiscardCloseSends(cfg, c, {Protocol}, now);
    DiscardCloseSends(cfg, c.(state := Open), {Protocol}, now);
    RecvAcceptedSends(cfg, c, s, now);
    RecvAcceptedSends(cfg, HandOver(c), s, now);
  }

  lemma RecvClosedSends(cfg: Config, c: Conn, s: Segment, now: u32, iss: u16)
    ensures Sends(c, RecvClosed(cfg, c, s, now, iss))
  {
    hide SendCmp, DiscardClose, Rst, SynAck;
    CmpSends(cfg, c, Rst(c), now);
    DiscardCloseSends(cfg, SendCmp(cfg, c, Rst(c), now), {Protocol}, now);
    CmpSends(cfg, Accept(c, s, iss), SynAck(Accept(c, s, iss)), now);
  }

  lemma RecvSynSentSends(cfg: Config, c: Conn, s: Segment, now: u32)
    ensures Sends(c, RecvSynSent(cfg, c, s, now))
  {
    hide SendCmp, DiscardClose, Rst, Ack;
    CmpSends(cfg, Established(c, s, now), Ack(Established(c, s, now)), now);
    CmpSends(cfg, c, Rst(c), now);
    DiscardCloseSends(cfg, c, {Protocol}, now);
  }

  lemma NewPacketSends(cfg: Config, c: Conn, s: Segment, now: u32, iss: u16, sockOk: bool)
    ensures Sends(c, NewPacket(cfg, c, s, now, iss, sockOk))
  {
    hide RecvRst, RecvClosed, RecvSynSent, RecvOpen, SendCmp, AckRst, AckAcceptable;
    RecvRstSends(cfg, c, s, now);
    RecvClosedSends(cfg, c, s, now, iss);
    RecvSynSentSends(cfg, c, s, now);
    RecvOpenSends(cfg, c, s, now, sockOk);
    CmpSends(cfg, TakeAck(c, s), AckRst(c), now);
  }

  lemma RouteWorkSends(cfg: Config, c: Conn, s: Option<Segment>, now: u32, iss: u16, sockOk: bool)
    ensures Sends(c, RouteWork(cfg, c, s, now, iss, sockOk))
  {
    hide TimerPass, NewPacket, ConnClose;
    TimerPassSends(cfg, c, now);
    var c1 := TimerPass(cfg, c, now);
    if s.Some? && (c1.open || c1.listening) {
      var c2 := if c1.open then c1 else Reopen(c1, now);
      NewPacketSends(cfg, c2, s.value, now, iss, sockOk);
      ConnCloseSends(cfg, NewPacket(cfg, c2, s.value, now, iss, sockOk), {Userspace}, now);
    }
  }

  /** Every act of a node adds to what it has sent and received and takes nothing away. */
  lemma DoSends(cfg: Config, opts: Options, c: Conn, act: Act)
    ensures Extends(c, Do(cfg, opts, c, act)) && (!act.Send? ==> Do(cfg, opts, c, act).snd.accepted == c.snd.accepted)
  {
    hide RouteWork, CheckAck, CloseInternal, ConnClose, SendCmp;
    match act
    case Connect(now, iss) => CmpSends(cfg, Connecting(c, opts, now, iss), Syn(opts, iss), now);
    case ConnectDone(now, woken) =>
      CloseInternalSends(cfg, c, {Protocol}, false, now);
      ConnCloseSends(cfg, CloseInternal(cfg, c, {Protocol}, false, now).0, {Userspace}, now);
    case Route(s, now, iss, sockOk) => RouteWorkSends(cfg, c, s, now, iss, sockOk);
    case Send(data, now) =>
    case Read(now) =>
      if c.open && c.rcv.inbox != [] {
        CheckAckSends(cfg, c.(rcv := RcvPop(c.rcv)), now);
      }
    case Close(now) => ConnCloseSends(cfg, c, {Userspace}, now);
  }

  lemma ExtendsOn(c: Conn, d: Conn, e: Conn)
    requires Extends(c, d) && Extends(d, e)
    ensures Extends(c, e)
  {
  }

  lemma ExtendsSelf(c: Conn)
    ensures Extends(c, c)
  {
  }

  lemma StepSends(cfg: Config, opts: Options, limit: nat, y: Sys, ev: Event, z: Sys)
    requires Step(cfg, opts, limit, y, ev, z)
    ensures Extends(y.a, z.a) && Extends(y.b, z.b)
    ensures !ev.act.Send? ==> z.a.snd.accepted == y.a.snd.accepted && z.b.snd.accepted == y.b.snd.accepted
  {
    hide Do, Enabled, Extends;
    DoSends(cfg, opts, At(y, ev.node), ev.act);
    ExtendsSelf(Peer(y, ev.node));
  }

  /** Between two states of a run both sides have sent and received no less. */
  lemma {:induction false} RunSends(cfg: Config, opts: Options, limit: nat, evs: seq<Event>, ys: seq<Sys>, i: nat,
                                    j: nat)
    requires IsRun(cfg, opts, limit, evs, ys) && i <= j < |ys|
    ensures Extends(ys[i].a, ys[j].a) && Extends(ys[i].b, ys[j].b)
    ensures (forall k :: i <= k < j ==> !evs[k].act.Send?) ==>
              ys[j].a.snd.accepted == ys[i].a.snd.accepted && ys[j].b.snd.accepted == ys[i].b.snd.accepted
    decreases j
  {
    hide Init, Extends;
    if i == j {
      ExtendsSelf(ys[i].a);
      ExtendsSelf(ys[i].b);
    } else {
      RunSends(cfg, opts, limit, evs, ys, i, j - 1);
      assert Step(cfg, opts, limit, ys[j - 1], evs[j - 1], ys[j - 1 + 1]);
      hide Step;
      StepSends(cfg, opts, limit, ys[j - 1], evs[j - 1], ys[j]);
      ExtendsOn(ys[i].a, ys[j - 1].a, ys[j].a);
      ExtendsOn(ys[i].b, ys[j - 1].b, ys[j].b);
    }
  }
}
