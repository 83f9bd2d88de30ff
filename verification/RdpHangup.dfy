/** Closing: a user's close tells the peer, the peer answers, and the slots are given back. */
module RdpHangup {
  import opened Base
  import opened SeqNum
  import opened RdpModel
  import opened RdpSystem
  import opened RdpClose
  import opened RdpOrder
  import opened RdpAcks
  import opened RdpRecover
  import opened RdpTrace
  import opened RdpProgress
  import opened RdpConnect
  import opened RdpReopen

  /** A slot that was given back, with nothing left in its queues but perhaps the wake-up of its reader. */
  predicate GivenBack(c: Conn) {
    && !c.open && c.state == Closed && c.snd.txq == [] && c.rcv.rxq == []
    && (c.rcv.inbox == [] || c.rcv.inbox == [None])
  }

  lemma AllClosers(s: set<Closer>)
    ensures s == ALL_CLOSERS <==> Userspace in s && Protocol in s && Timeout in s
  {
    if Userspace in s && Protocol in s && Timeout in s {
      forall x: Closer ensures x in s <==> x in ALL_CLOSERS {
        match x {
          case Userspace =>
          case Protocol =>
          case Timeout =>
        }
      }
    }
  }

  // ---------------------------------------------------------------- the side that closes

  /** Closing an open connection sends a reset that acknowledges, and waits. */
  lemma CloseTells(cfg: Config, c: Conn, now: u32)
    requires CtlOk(c) && c.state == Open
    ensures var d := UserClose(cfg, c, now);
            && d.state == CloseWait && d.open && !d.handle && d.closedBy == {Userspace} && d.timestamp == now
            && d.snd == c.snd.(out := c.snd.out + [AckRst(c)]) && d.rcv == c.rcv && d.opt == c.opt
            && AckRst(c) == Segment(false, true, false, true, c.snd.nxt, c.rcv.cur, [], [], NO_OPTS)
            && d.pending == c.pending && d.listening == c.listening
  {
    AllClosers({Userspace});
  }

  /** Closing a connection the other two have closed gives the slot back at once. */
  lemma LastCloseGivesBack(cfg: Config, c: Conn, now: u32)
    requires c.open && c.state == CloseWait && Protocol in c.closedBy && Timeout in c.closedBy
    ensures GivenBack(UserClose(cfg, c, now)) && UserClose(cfg, c, now).snd.out == c.snd.out
  {
    AllClosers(c.closedBy + {Userspace});
  }

  /** While a connection waits, a timer pass gives its slot back if and only if the connection timeout has passed and
      the user has closed it, or never had it. */
  lemma PassGivesBack(cfg: Config, c: Conn, now: u32)
    requires CtlOk(c) && c.state == CloseWait
    ensures var d := TimerPass(cfg, c, now);
            if ConnExpired(c, now) && (c.pending || Userspace in c.closedBy) then GivenBack(d) else d.open
  {
    hide ConnExpired;
    AllClosers(c.closedBy + {Protocol, Timeout});
    AllClosers(c.closedBy + ALL_CLOSERS);
  }

  // ---------------------------------------------------------------- the side that is told

  /** A reset in sequence is answered: the connection waits for its user alone, who is woken. */
  lemma ResetAnswered(cfg: Config, c: Conn, s: Segment, now: u32)
    requires CtlOk(c) && c.state == Open && !c.pending && s.rst && s.ack && s.seqNr == c.rcv.cur + 1
    ensures var d := RecvRst(cfg, c, s, now);
            && d.state == CloseWait && d.open && d.handle == c.handle && d.closedBy == {Protocol, Timeout}
            && d.snd.out == c.snd.out + [AckRst(c)] && d.snd.txq == c.snd.txq
            && d.rcv == WakeReader(cfg, c.rcv)
            && (|c.rcv.inbox| < cfg.inboxLen ==> d.rcv.inbox == c.rcv.inbox + [None])
  {
    var c1 := TakeAck(c, s);
    var w := c1.(state := CloseWait, timestamp := now);
    var e := SendCmp(cfg, w, AckRst(w), now);
    assert e.closedBy == {} && {} + {Protocol, Timeout} == {Protocol, Timeout};
    AllClosers({Protocol, Timeout});
    assert CloseInternal(cfg, e, {Protocol, Timeout}, true, now).1;
  }

  /** The answer ends the wait of the side that closed. */
  lemma AnswerGivesBack(cfg: Config, c: Conn, g: Segment, now: u32, iss: u16, sockOk: bool)
    requires CtlOk(c) && c.state == CloseWait && !c.pending && Userspace in c.closedBy && g.rst && g.ack
    requires !c.listening || !ConnExpired(c, now)
    ensures GivenBack(RouteWork(cfg, c, Some(g), now, iss, sockOk))
  {
    PassGivesBack(cfg, c, now);
    var e := TimerPass(cfg, c, now);
    if !ConnExpired(c, now) {
      assert e == c;
      var c1 := TakeAck(c, g);
      AllClosers(c1.closedBy + {Protocol, Timeout});
      assert RouteWork(cfg, c, Some(g), now, iss, sockOk) == DiscardClose(cfg, c1, {Protocol, Timeout}, now);
    } else {
      StillListening(cfg, c, now);
    }
  }

  lemma StillListening(cfg: Config, c: Conn, now: u32)
    requires CtlOk(c)
    ensures TimerPass(cfg, c, now).listening == c.listening
  {
    if c.open {
      CheckTimeoutsCtl(cfg, c, now);
    }
  }

  // ---------------------------------------------------------------- the handshake

  /** What the peer makes of the reset, wherever it has got to: it leaves the open state exactly if it has received
      everything, once its timer pass has taken what waits in its reorder queue, and its last number was not 0xFFFF. */
  lemma ResetTaken(cfg: Config, w: nat, c: Conn, r: Conn, now: u32, iss: u16, sockOk: bool)
    requires Sound(w, r, c, |c.rcv.delivered|) && c.snd.nxt == Wrap(c.snd.iss + 1 + |c.snd.accepted|)
    ensures var q, e := RouteWork(cfg, r, Some(AckRst(c)), now, iss, sockOk), TimerPass(cfg, r, now);
            if Flushed(cfg, r) == |c.snd.accepted| && Wrap(c.snd.iss + |c.snd.accepted|) != 0xFFFF
            then q == RecvRst(cfg, e, AckRst(c), now) && AckRst(c).seqNr == e.rcv.cur + 1
            else q == TakeAck(e, AckRst(c))
  {
    hide TimerPass, Flushed, TxOk, CtlOk, ReceiverOk, Coupled, AnswerRst, Offset;
    Passed(cfg, w, r, c, |c.rcv.delivered|, now);
    InSequence(c.snd.iss, Flushed(cfg, r), |c.snd.accepted|);
  }

  /** The test of a reset is made without wrapping. */
  lemma InSequence(iss: u16, f: nat, n: nat)
    requires f <= n < 0x8000
    ensures Wrap(iss + 1 + n) == Wrap(iss + f) + 1 <==> f == n && Wrap(iss + n) != 0xFFFF
  {
  }

  /** The closing handshake, from any run with both ends open and held and everything the closing side had accepted
      delivered: its reset takes the peer out of the open state, if and only if the peer's last number is not 0xFFFF.
      Then the peer's user is woken, the peer's answer gives the slot of the closing side back, and the close of the
      peer's user gives back the other. `t0` to `t3` are the times of the four steps. */
  lemma Hangup(cfg: Config, opts: Options, limit: nat, evs: seq<Event>, ys: seq<Sys>, n: RdpSystem.Node, t0: u32,
               t1: u32, t2: u32, t3: u32)
    requires Sane(cfg, opts, limit) && IsRun(cfg, opts, limit, evs, ys) && InUse(Last(ys))
    requires Peer(Last(ys), n).rcv.delivered == At(Last(ys), n).snd.accepted
    ensures var c, r := At(Last(ys), n), Peer(Last(ys), n);
            var d, q := UserClose(cfg, c, t0), RouteWork(cfg, r, Some(AckRst(c)), t1, 0, true);
            && d.snd.out == c.snd.out + [AckRst(c)] && d.state == CloseWait && !d.handle
            && (q.state == Open <==> r.rcv.cur == 0xFFFF)
            && (r.rcv.cur != 0xFFFF ==>
                  && q.state == CloseWait && q.handle && q.rcv == WakeReader(cfg, TimerPass(cfg, r, t1).rcv)
                  && q.snd.out == TimerPass(cfg, r, t1).snd.out + [AckRst(TimerPass(cfg, r, t1))]
                  && GivenBack(UserClose(cfg, q, t3))
                  && (!c.listening || !ConnExpired(d, t2) ==>
                        GivenBack(RouteWork(cfg, d, Some(AckRst(TimerPass(cfg, r, t1))), t2, 0, true))))
  {
    var c, r, w := At(Last(ys), n), Peer(Last(ys), n), opts.window;
    hide Init, Step, RouteWork, TimerPass, UserClose, ConnExpired, RecvRst;
    BothSound(cfg, opts, limit, evs, ys, n);
    HangupParts(cfg, w, c, r, t0, t1, t2, t3);
  }

  lemma HangupParts(cfg: Config, w: nat, c: Conn, r: Conn, t0: u32, t1: u32, t2: u32, t3: u32)
    requires Sound(w, c, r, |r.rcv.delivered|) && Sound(w, r, c, |c.rcv.delivered|)
    requires r.rcv.delivered == c.snd.accepted
    ensures var d, q := UserClose(cfg, c, t0), RouteWork(cfg, r, Some(AckRst(c)), t1, 0, true);
            && d.snd.out == c.snd.out + [AckRst(c)] && d.state == CloseWait && !d.handle
            && (q.state == Open <==> r.rcv.cur == 0xFFFF)
            && (r.rcv.cur != 0xFFFF ==>
                  && q.state == CloseWait && q.handle && q.rcv == WakeReader(cfg, TimerPass(cfg, r, t1).rcv)
                  && q.snd.out == TimerPass(cfg, r, t1).snd.out + [AckRst(TimerPass(cfg, r, t1))]
                  && GivenBack(UserClose(cfg, q, t3))
                  && (!c.listening || !ConnExpired(d, t2) ==>
                        GivenBack(RouteWork(cfg, d, Some(AckRst(TimerPass(cfg, r, t1))), t2, 0, true))))
  {
    hide RouteWork, TimerPass, UserClose, ConnExpired, RecvRst, Flushed, TxOk, ReceiverOk, Coupled, GivenBack,
         Wrap, Offset;
    var d, e := UserClose(cfg, c, t0), TimerPass(cfg, r, t1);
    CloseTells(cfg, c, t0);
    FlushedBound(cfg, w, r, c, |c.rcv.delivered|);
    Passed(cfg, w, r, c, |c.rcv.delivered|, t1);
    ResetTaken(cfg, w, c, r, t1, 0, true);
    ClosedCtl(cfg, c, t0);
    if r.rcv.cur != 0xFFFF {
      ResetAnswered(cfg, e, AckRst(c), t1);
      LastCloseGivesBack(cfg, RouteWork(cfg, r, Some(AckRst(c)), t1, 0, true), t3);
      if !c.listening || !ConnExpired(d, t2) {
        AnswerGivesBack(cfg, d, AckRst(e), t2, 0, true);
      }
    }
  }

  lemma ClosedCtl(cfg: Config, c: Conn, now: u32)
    requires CtlOk(c) && c.handle
    ensures CtlOk(UserClose(cfg, c, now))
  {
    UserCtl(cfg, c, [], now);
  }

  /** The handshake as a run: close, the reset arrives, the answer arrives, close; both slots are given back. */
  lemma HangupRun(cfg: Config, opts: Options, limit: nat, evs: seq<Event>, ys: seq<Sys>, n: RdpSystem.Node, t0: u32,
                  t1: u32, t2: u32, t3: u32)
    returns (evs1: seq<Event>, ys1: seq<Sys>)
    requires Sane(cfg, opts, limit) && IsRun(cfg, opts, limit, evs, ys) && InUse(Last(ys))
    requires Peer(Last(ys), n).rcv.delivered == At(Last(ys), n).snd.accepted && Peer(Last(ys), n).rcv.cur != 0xFFFF
    requires !At(Last(ys), n).listening || !TimeAfter(t2, t0 + At(Last(ys), n).opt.connTimeout)
    ensures IsRun(cfg, opts, limit, evs1, ys1) && ys1[0] == ys[0] && |evs1| == |evs| + 4
    ensures GivenBack(Last(ys1).a) && GivenBack(Last(ys1).b)
  {
    hide Init, Step, RouteWork, TimerPass, UserClose, GivenBack, AckRst, TimeAfter, Sane;
    var c, r := At(Last(ys), n), Peer(Last(ys), n);
    HangupFacts(cfg, opts, limit, evs, ys, n, t0, t1, t2, t3);
    NotSyn(c);
    NotSyn(TimerPass(cfg, r, t1));
    evs1, ys1 := FourEvents(cfg, opts, limit, evs, ys, n, AckRst(c), AckRst(TimerPass(cfg, r, t1)), t0, t1, t2, t3);
  }

  lemma HangupFacts(cfg: Config, opts: Options, limit: nat, evs: seq<Event>, ys: seq<Sys>, n: RdpSystem.Node, t0: u32,
                    t1: u32, t2: u32, t3: u32)
    requires Sane(cfg, opts, limit) && IsRun(cfg, opts, limit, evs, ys) && InUse(Last(ys))
    requires Peer(Last(ys), n).rcv.delivered == At(Last(ys), n).snd.accepted && Peer(Last(ys), n).rcv.cur != 0xFFFF
    requires !At(Last(ys), n).listening || !TimeAfter(t2, t0 + At(Last(ys), n).opt.connTimeout)
    ensures var c, r := At(Last(ys), n), Peer(Last(ys), n);
            var d, q, g := UserClose(cfg, c, t0), RouteWork(cfg, r, Some(AckRst(c)), t1, 0, true),
                           AckRst(TimerPass(cfg, r, t1));
            && AckRst(c) in d.snd.out && g in q.snd.out && q.handle
            && GivenBack(RouteWork(cfg, d, Some(g), t2, 0, true)) && GivenBack(UserClose(cfg, q, t3))
  {
    hide Init, Step, RouteWork, TimerPass, UserClose, GivenBack, WakeReader, ConnExpired, AckRst, TimeAfter, CtlOk;
    RunCtl(cfg, opts, limit, evs, ys, |evs|);
    Hangup(cfg, opts, limit, evs, ys, n, t0, t1, t2, t3);
    Expires(cfg, At(Last(ys), n), t0, t2);
  }

  lemma FourEvents(cfg: Config, opts: Options, limit: nat, evs: seq<Event>, ys: seq<Sys>, n: RdpSystem.Node,
                   s: Segment, g: Segment, t0: u32, t1: u32, t2: u32, t3: u32)
    returns (evs1: seq<Event>, ys1: seq<Sys>)
    requires IsRun(cfg, opts, limit, evs, ys) && At(Last(ys), n).handle && !s.syn && !g.syn
    requires s in UserClose(cfg, At(Last(ys), n), t0).snd.out
    requires var q := RouteWork(cfg, Peer(Last(ys), n), Some(s), t1, 0, true); g in q.snd.out && q.handle
    ensures IsRun(cfg, opts, limit, evs1, ys1) && ys1[0] == ys[0] && |evs1| == |evs| + 4
    ensures At(Last(ys1), n) == RouteWork(cfg, UserClose(cfg, At(Last(ys), n), t0), Some(g), t2, 0, true)
    ensures Peer(Last(ys1), n) == UserClose(cfg, RouteWork(cfg, Peer(Last(ys), n), Some(s), t1, 0, true), t3)
  {
    hide Init, Step, RouteWork, UserClose, TimerPass;
    var m := Other(n);
    evs1, ys1 := Next(cfg, opts, limit, evs, ys, Event(n, Close(t0)));
    hide Init, Step, IsRun;
    evs1, ys1 := Next(cfg, opts, limit, evs1, ys1, Event(m, Route(Some(s), t1, 0, true)));
    evs1, ys1 := Next(cfg, opts, limit, evs1, ys1, Event(n, Route(Some(g), t2, 0, true)));
    evs1, ys1 := Next(cfg, opts, limit, evs1, ys1, Event(m, Close(t3)));
  }

  lemma NotSyn(c: Conn)
    ensures !AckRst(c).syn
  {
  }

  lemma Expires(cfg: Config, c: Conn, t0: u32, t: u32)
    requires CtlOk(c) && c.state == Open
    ensures ConnExpired(UserClose(cfg, c, t0), t) <==> TimeAfter(t, t0 + c.opt.connTimeout)
  {
    hide UserClose, TimeAfter;
    CloseTells(cfg, c, t0);
  }

  /** A silent peer: after the close of an open connection, a timer pass gives the slot back if and only if the
      connection timeout has passed since. */
  lemma SilentPeer(cfg: Config, opts: Options, limit: nat, evs: seq<Event>, ys: seq<Sys>, n: RdpSystem.Node, t0: u32,
                   t1: u32)
    requires IsRun(cfg, opts, limit, evs, ys) && At(Last(ys), n).state == Open && At(Last(ys), n).handle
    ensures var d := TimerPass(cfg, UserClose(cfg, At(Last(ys), n), t0), t1);
            if TimeAfter(t1, t0 + At(Last(ys), n).opt.connTimeout) then GivenBack(d) else d.open
  {
    hide Init, Step, TimerPass, UserClose, TimeAfter;
    var c := At(Last(ys), n);
    RunCtl(cfg, opts, limit, evs, ys, |evs|);
    CloseTells(cfg, c, t0);
    ClosedCtl(cfg, c, t0);
    PassGivesBack(cfg, UserClose(cfg, c, t0), t1);
  }
}
