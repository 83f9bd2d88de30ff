/** The transmit window without delayed acknowledgements: the segments left to send again that open it. */
module RdpShut {
  import opened Base
  import opened SeqNum
  import opened RdpModel
  import opened RdpSystem
  import opened RdpClose
  import opened RdpOrder
  import opened RdpAcks
  import opened RdpEffect
  import opened RdpRecover
  import opened RdpWindow
  import opened RdpTrace
  import opened RdpOptions
  import opened RdpProgress
  import opened RdpRounds
  import opened RdpReopen

  /** A segment of its own that a side would send again. */
  predicate Unacked(c: Conn) { exists e :: e in c.snd.txq && Una(c) <= TxOff(c.snd.iss, e) }

  /** A segment in its peer's retransmit queue that a side lacks, even after its next timer pass. */
  predicate Lacks(cfg: Config, c: Conn, p: Conn) {
    exists e :: e in p.snd.txq && Flushed(cfg, c) < TxOff(p.snd.iss, e)
  }

  /** When the window of a side can open without delayed acknowledgements: it is open, or the side has a segment to send
      again, or its peer has one the side has not received. */
  predicate CanReopen(cfg: Config, c: Conn, p: Conn) { ReadyForTx(c) || Unacked(c) || Lacks(cfg, c, p) }

  // ---------------------------------------------------------------- what stays in a retransmit queue

  /** The number is still waiting in the retransmit queue, with nothing acknowledged meanwhile. */
  predicate Waits(c: Conn, d: Conn, x: u16) {
    && d.open && d.state == Open && !d.pending && d.handle
    && d.snd.una == c.snd.una && d.snd.iss == c.snd.iss && (exists e :: e in d.snd.txq && e.seg.seqNr == x)
  }

  /** Every event of the node is a read or a timer pass. */
  predicate OnlyOwn(n: RdpSystem.Node, more: seq<Event>) {
    forall e <- more :: e.node == n ==> e.act.Read? || (e.act.Route? && e.act.s.None?)
  }

  lemma PassWaits(cfg: Config, c: Conn, now: u32, x: u16)
    requires Waits(c, c, x) && !SeqBefore(x, c.snd.una)
    ensures Waits(c, RouteWork(cfg, c, None, now, 0, true), x)
  {
    PassIsTimers(cfg, c, now);
    PassLeaves(c.snd.txq, c.snd.una, c.rcv.cur, now, c.opt.packetTimeout);
    hide SeqBefore, PassFilter, PassSends, RxFlush;
    var d := MessageTimers(cfg, c, now);
    assert d.snd.txq == PassFilter(c.snd.txq, c.snd.una, c.rcv.cur, now, c.opt.packetTimeout);
  }

  lemma ReadWaits(cfg: Config, c: Conn, now: u32, x: u16)
    requires Waits(c, c, x)
    ensures Waits(c, UserRead(cfg, c, now), x)
  {
    if c.rcv.inbox != [] {
      ReadOne(cfg, c, now);
    }
  }

  lemma {:induction false} RunWaits(cfg: Config, opts: Options, limit: nat, evs: seq<Event>, ys: seq<Sys>, i: nat,
                                    j: nat, n: RdpSystem.Node, x: u16)
    requires IsRun(cfg, opts, limit, evs, ys) && i <= j < |ys| && OnlyOwn(n, evs[i..])
    requires Waits(At(ys[i], n), At(ys[i], n), x) && !SeqBefore(x, At(ys[i], n).snd.una)
    ensures Waits(At(ys[i], n), At(ys[j], n), x)
    decreases j
  {
    hide SeqBefore;
    if i < j {
      RunWaits(cfg, opts, limit, evs, ys, i, j - 1, n, x);
      var y, ev := ys[j - 1], evs[j - 1];
      assert Step(cfg, opts, limit, y, ev, ys[j - 1 + 1]);
      assert evs[i..][j - 1 - i] == ev && ev in evs[i..];
      var c := At(y, n);
      if ev.node == n {
        if ev.act.Read? {
          ReadWaits(cfg, c, ev.act.now, x);
        } else {
          PassAnyWaits(cfg, c, ev.act.now, ev.act.iss, ev.act.sockOk, x);
        }
      }
    }
  }

  lemma PassAnyWaits(cfg: Config, c: Conn, now: u32, iss: u16, sockOk: bool, x: u16)
    requires Waits(c, c, x) && !SeqBefore(x, c.snd.una)
    ensures Waits(c, RouteWork(cfg, c, None, now, iss, sockOk), x)
  {
    hide TimerPass, SeqBefore;
    PassWaits(cfg, c, now, x);
  }

  // ---------------------------------------------------------------- sending again

  /** An entry that is not acknowledged is sent again in time. */
  lemma EntrySentAgain(cfg: Config, w: nat, c: Conn, p: Conn, d: nat, x: u16) returns (now: u32, s: Segment)
    requires Sound(w, c, p, d) && Waits(c, c, x) && Una(c) <= Offset(c.snd.iss, x)
    ensures Draws(c, RouteWork(cfg, c, None, now, 0, true), s)
    ensures !s.syn && s.ack && !s.rst && !s.eak && s.seqNr == x && s.ackNr == c.rcv.cur
    ensures 1 <= Offset(c.snd.iss, x) <= |c.snd.accepted|
  {
    var e :| e in c.snd.txq && e.seg.seqNr == x;
    assert TxSeg(w, c.listening, c.snd.iss, |c.snd.accepted|, c.rcv.synced, e);
    AckedMeans(c, e);
    DueInTime(e, c.opt.packetTimeout);
    now, s := Wrap32(e.sentAt + c.opt.packetTimeout + 1), e.seg.(ackNr := c.rcv.cur);
    PassIsTimers(cfg, c, now);
    RxFlushSynced(cfg, c.rcv, |c.rcv.rxq|);
    hide MessageTimers, Wrap32, SeqBefore, Due, RxFlush, PassSends, TxOk, CtlOk, ReceiverOk, Offset;
    SendsDue(c.snd.txq, c.snd.una, c.rcv.cur, now, c.opt.packetTimeout, e);
    NewlySent(c.snd.out, PassSends(c.snd.txq, c.snd.una, c.rcv.cur, now, c.opt.packetTimeout),
              MessageTimers(cfg, c, now).snd.out, s);
  }

  lemma OldIsUnacceptable(c: Conn, iss: u16, d: nat, o: nat, w: nat)
    requires c.rcv.cur == Wrap(iss + d) && c.opt.window == w && o <= d && d + 2 * w < o + 0x1_0000 && 1 <= w
    ensures !SeqAcceptable(c, Wrap(iss + o))
  {
    hide SeqBetween, Wrap;
    BetweenFailsBelow(iss, o, d + 1, d + 2 * w);
    WrapModulo(iss + d, 1);
    WrapModulo(iss + d, w * 2);
    SameBetween(Wrap(iss + o), c.rcv.cur + 1, c.rcv.cur + c.opt.window * 2, iss + (d + 1), iss + (d + 2 * w));
  }

  /** A duplicate of something delivered draws an extended acknowledgement, and nothing else happens. */
  lemma DuplicateDrawsEack(cfg: Config, w: nat, c: Conn, p: Conn, d: nat, s: Segment, o: nat, now: u32, iss: u16,
                           sockOk: bool)
    requires Sound(w, c, p, d) && !s.syn && !s.rst && s.ack
    requires s.seqNr == Wrap(p.snd.iss + o) && o <= Flushed(cfg, c)
    ensures var e := TimerPass(cfg, c, now);
            RouteWork(cfg, c, Some(s), now, iss, sockOk) == SendCmp(cfg, e, Eack(e), now)
  {
    hide TimerPass, Flushed, Wrap, TxOk, CtlOk, SeqAcceptable, ReceiverOk, Coupled, SendCmp, Eack;
    var f, e := Flushed(cfg, c), TimerPass(cfg, c, now);
    Passed(cfg, w, c, p, d, now);
    OldIsUnacceptable(e, p.snd.iss, f, o, w);
  }

  // ---------------------------------------------------------------- the window opens again

  /** The extended acknowledgement a full receiver sends. */
  lemma EackIsAck(cfg: Config, w: nat, c: Conn, p: Conn, d: nat)
    requires Sound(w, c, p, d) && |c.rcv.delivered| == |p.snd.accepted|
    ensures var e := TimerPass(cfg, c, 0);
            var b := SendCmp(cfg, e, Eack(e), 0);
            && Draws(c, b, Eack(e)) && Eack(e).seqNr == Wrap(c.snd.iss + |c.snd.accepted| + 1)
            && Eack(e).ackNr == Wrap(p.snd.iss + |p.snd.accepted|)
  {
    hide TimerPass, Flushed, TxOk, CtlOk, ReceiverOk, Coupled, EackList;
    TimerPassSends(cfg, c, 0);
    Passed(cfg, w, c, p, d, 0);
    var e := TimerPass(cfg, c, 0);
    SendCmpQuiet(cfg, e, Eack(e), 0);
    var b := SendCmp(cfg, e, Eack(e), 0);
    assert b.snd.out == e.snd.out + [Eack(e)];
    NewlySent(c.snd.out, e.snd.out[|c.snd.out|..] + [Eack(e)], b.snd.out, Eack(e));
  }

  /** From a segment of its own: sent again, it draws an acknowledgement of everything. */
  lemma OwnSegmentReopens(cfg: Config, opts: Options, limit: nat, users: bool, evs: seq<Event>, ys: seq<Sys>,
                          n: RdpSystem.Node)
    requires Sane(cfg, opts, limit) && IsRun(cfg, opts, limit, evs, ys) && InUse(Last(ys)) && cfg.inboxLen >= 3
    requires forall p <- At(Last(ys), n).snd.accepted :: p != []
    requires Unacked(At(Last(ys), n))
    ensures Reopens(cfg, opts, limit, users, evs, ys, n)
  {
    hide Init, Step, Sound, Unacked, SeqBefore, Offset, Waits, Sane;
    var c, r := At(Last(ys), n), Peer(Last(ys), n);
    RunSound(cfg, opts, limit, evs, ys, n);
    var x := UnackedEntry(opts.window, c, r, |r.rcv.delivered|);
    var evs1, ys1 := DeliverAll(cfg, opts, limit, users, evs, ys, n);
    RunWaits(cfg, opts, limit, evs1, ys1, |evs|, |ys1| - 1, n, x);
    StillUnacked(c, At(Last(ys1), n), x);
    SentAgainReopens(cfg, opts, limit, users, evs, ys, evs1, ys1, n, x);
  }

  /** The number of an entry that is not acknowledged. */
  lemma UnackedEntry(w: nat, c: Conn, p: Conn, d: nat) returns (x: u16)
    requires Sound(w, c, p, d) && Unacked(c)
    ensures Waits(c, c, x) && !SeqBefore(x, c.snd.una) && Una(c) <= Offset(c.snd.iss, x)
  {
    var e :| e in c.snd.txq && Una(c) <= TxOff(c.snd.iss, e);
    x := e.seg.seqNr;
    assert TxSeg(w, c.listening, c.snd.iss, |c.snd.accepted|, c.rcv.synced, e);
    hide Offset, SeqBefore, TxOk, CtlOk, ReceiverOk, Coupled;
    AckedMeans(c, e);
  }

  lemma SentAgainReopens(cfg: Config, opts: Options, limit: nat, users: bool, evs: seq<Event>, ys: seq<Sys>,
                         evs1: seq<Event>, ys1: seq<Sys>, n: RdpSystem.Node, x: u16)
    requires Sane(cfg, opts, limit) && Continues(cfg, opts, limit, users, evs, ys, evs1, ys1) && InUse(Last(ys1))
    requires Peer(Last(ys1), n).rcv.delivered == At(Last(ys1), n).snd.accepted
    requires Waits(At(Last(ys1), n), At(Last(ys1), n), x)
    requires Una(At(Last(ys1), n)) <= Offset(At(Last(ys1), n).snd.iss, x)
    ensures Reopens(cfg, opts, limit, users, evs, ys, n)
  {
    var c := At(Last(ys1), n);
    hide RouteWork, Init, Step, AdmittedRun, Wrap, Offset, Waits, Sane, Reopens, SentSince;
    var now, s := OwnSentAgain(cfg, opts, limit, evs1, ys1, n, x);
    var evs2, ys2 := Drawn(cfg, opts, limit, users, evs, ys, evs1, ys1, Event(n, Route(None, now, 0, true)), s);
    DuplicateReopens(cfg, opts, limit, users, evs, ys, evs2, ys2, n, s, Offset(c.snd.iss, x));
  }

  lemma OwnSentAgain(cfg: Config, opts: Options, limit: nat, evs: seq<Event>, ys: seq<Sys>, n: RdpSystem.Node, x: u16)
    returns (now: u32, s: Segment)
    requires Sane(cfg, opts, limit) && IsRun(cfg, opts, limit, evs, ys) && InUse(Last(ys))
    requires Waits(At(Last(ys), n), At(Last(ys), n), x) && Una(At(Last(ys), n)) <= Offset(At(Last(ys), n).snd.iss, x)
    ensures Draws(At(Last(ys), n), RouteWork(cfg, At(Last(ys), n), None, now, 0, true), s)
    ensures !s.syn && s.ack && !s.rst && s.seqNr == Wrap(At(Last(ys), n).snd.iss + Offset(At(Last(ys), n).snd.iss, x))
    ensures Offset(At(Last(ys), n).snd.iss, x) <= |At(Last(ys), n).snd.accepted|
  {
    hide RouteWork, Init, Step, Sane, Draws, Waits, Offset, Wrap, Sound;
    var c, r := At(Last(ys), n), Peer(Last(ys), n);
    RunSound(cfg, opts, limit, evs, ys, n);
    now, s := EntrySentAgain(cfg, opts.window, c, r, |r.rcv.delivered|, x);
    WrapOfOffset(c.snd.iss, x);
  }

  /** The answer to a duplicate, at a receiver that has everything. */
  lemma EackDrawn(cfg: Config, w: nat, r: Conn, c: Conn, d: nat, s: Segment, o: nat) returns (g: Segment)
    requires Sound(w, r, c, d) && |r.rcv.delivered| == |c.snd.accepted|
    requires !s.syn && !s.rst && s.ack && s.seqNr == Wrap(c.snd.iss + o) && o <= |c.snd.accepted|
    ensures !g.syn && !g.rst && g.ack
    ensures g.seqNr == Wrap(r.snd.iss + (|r.snd.accepted| + 1)) && g.ackNr == Wrap(c.snd.iss + |c.snd.accepted|)
    ensures Draws(r, RouteWork(cfg, r, Some(s), 0, 0, true), g)
  {
    hide RouteWork, Flushed, Sound, Wrap, TimerPass, Eack, SendCmp;
    FlushedBound(cfg, w, r, c, d);
    DuplicateDrawsEack(cfg, w, r, c, d, s, o, 0, 0, true);
    EackIsAck(cfg, w, r, c, d);
    EackShape(cfg, r);
    g := Eack(TimerPass(cfg, r, 0));
  }

  lemma DuplicateReopens(cfg: Config, opts: Options, limit: nat, users: bool, evs: seq<Event>, ys: seq<Sys>,
                         evs1: seq<Event>, ys1: seq<Sys>, n: RdpSystem.Node, s: Segment, o: nat)
    requires Sane(cfg, opts, limit) && Continues(cfg, opts, limit, users, evs, ys, evs1, ys1) && InUse(Last(ys1))
    requires Peer(Last(ys1), n).rcv.delivered == At(Last(ys1), n).snd.accepted
    requires SentSince(Last(ys), Last(ys1), n, s) && !s.syn && !s.rst && s.ack
    requires s.seqNr == Wrap(At(Last(ys1), n).snd.iss + o) && o <= |At(Last(ys1), n).snd.accepted|
    ensures Reopens(cfg, opts, limit, users, evs, ys, n)
  {
    hide RouteWork, Flushed, ReadyForTx, Wrap, Init, Step, AcksAll, Draws, Sane;
    var g := AnswerToDuplicate(cfg, opts, limit, evs1, ys1, n, s, o);
    PeerAcks(cfg, opts, limit, users, evs, ys, evs1, ys1, n, Route(Some(s), 0, 0, true), g,
             |Peer(Last(ys1), n).snd.accepted| + 1);
  }

  lemma AnswerToDuplicate(cfg: Config, opts: Options, limit: nat, evs: seq<Event>, ys: seq<Sys>, n: RdpSystem.Node,
                          s: Segment, o: nat) returns (g: Segment)
    requires Sane(cfg, opts, limit) && IsRun(cfg, opts, limit, evs, ys) && InUse(Last(ys))
    requires Peer(Last(ys), n).rcv.delivered == At(Last(ys), n).snd.accepted && !s.syn && !s.rst && s.ack
    requires s.seqNr == Wrap(At(Last(ys), n).snd.iss + o) && o <= |At(Last(ys), n).snd.accepted|
    ensures Draws(Peer(Last(ys), n), RouteWork(cfg, Peer(Last(ys), n), Some(s), 0, 0, true), g)
    ensures AcksAll(cfg, At(Last(ys), n), Peer(Last(ys), n), g, |Peer(Last(ys), n).snd.accepted| + 1)
  {
    var c, r, w := At(Last(ys), n), Peer(Last(ys), n), opts.window;
    hide RouteWork, Flushed, Sound, Wrap, Init, Step, Sane, Draws, AcksAll;
    BothSound(cfg, opts, limit, evs, ys, n);
    g := EackDrawn(cfg, w, r, c, |c.rcv.delivered|, s, o);
    assert AcksAll(cfg, c, r, g, |r.snd.accepted| + 1) by {
      EackAcksAll(cfg, w, c, r, |r.rcv.delivered|, g);
    }
  }

  lemma EackAcksAll(cfg: Config, w: nat, c: Conn, r: Conn, d: nat, g: Segment)
    requires Sound(w, c, r, d) && !g.syn && !g.rst && g.ack && g.seqNr == Wrap(r.snd.iss + (|r.snd.accepted| + 1))
    requires g.ackNr == Wrap(c.snd.iss + |c.snd.accepted|)
    ensures AcksAll(cfg, c, r, g, |r.snd.accepted| + 1)
  {
    hide Sound, Flushed, Wrap;
    FlushedBound(cfg, w, c, r, d);
  }

  lemma EackShape(cfg: Config, c: Conn)
    ensures var g := Eack(TimerPass(cfg, c, 0)); !g.syn && !g.rst && g.ack
  {
    hide TimerPass;
  }

  // ---------------------------------------------------------------- from a segment of the peer

  /** The same numbers, options and payloads. */
  predicate SameNumbers(c: Conn, d: Conn) {
    && d.snd.una == c.snd.una && d.snd.nxt == c.snd.nxt && d.snd.iss == c.snd.iss && d.opt == c.opt
    && d.snd.accepted == c.snd.accepted
  }

  lemma PassSameNumbers(cfg: Config, w: nat, c: Conn, p: Conn, d: nat)
    requires Sound(w, c, p, d)
    ensures SameNumbers(c, RouteWork(cfg, c, None, 0, 0, true))
  {
    hide TimerPass, TxOk, CtlOk, ReceiverOk;
    Passed(cfg, w, c, p, d, 0);
  }

  /** Where the sender has nothing to send again, everything undelivered waits at the receiver, whose reads and timer
      passes alone bring it out. */
  lemma {:induction false} DeliverQueued(cfg: Config, opts: Options, limit: nat, evs: seq<Event>, ys: seq<Sys>,
                                         n: RdpSystem.Node)
    returns (more: seq<Event>, zs: seq<Sys>)
    requires Sane(cfg, opts, limit) && IsRun(cfg, opts, limit, evs, ys) && cfg.inboxLen >= 3 && InUse(Last(ys))
    requires !Unacked(At(Last(ys), n)) && forall p <- At(Last(ys), n).snd.accepted :: p != []
    ensures IsRun(cfg, opts, limit, evs + more, ys + zs) && HarmlessRun(Last(ys), more, zs) && InUse(Last(ys + zs))
    ensures At(Last(ys + zs), n) == At(Last(ys), n) && OnlyOwn(Other(n), more)
    ensures SameNumbers(Peer(Last(ys), n), Peer(Last(ys + zs), n))
    ensures Peer(Last(ys + zs), n).rcv.delivered == At(Last(ys), n).snd.accepted
    decreases |At(Last(ys), n).snd.accepted| - |Peer(Last(ys), n).rcv.delivered|
  {
    hide Init, Step, Do, Enabled, Harmless, Unacked, InReorderQueue, RouteWork, Sound;
    var m, k := Other(n), |Peer(Last(ys), n).rcv.delivered|;
    OrderedDelivery(cfg, opts, limit, evs, ys, |evs|, m);
    if k == |At(Last(ys), n).snd.accepted| {
      more, zs := [], [];
      assert evs + [] == evs && ys + [] == ys;
    } else {
      RunCtl(cfg, opts, limit, evs, ys, |evs|);
      var more1, zs1 := Drains(cfg, opts, limit, evs, ys, m);
      var evs1, ys1 := evs + more1, ys + zs1;
      var accepted := At(Last(ys), n).snd.accepted;
      assert accepted[k] in accepted;
      NotKept(cfg, opts, limit, evs1, ys1, n);
      RunSound(cfg, opts, limit, evs1, ys1, m);
      PassSameNumbers(cfg, opts.window, Peer(Last(ys1), n), At(Last(ys1), n), |At(Last(ys1), n).rcv.delivered|);
      var ev, z := FromReorderQueue(cfg, opts, limit, evs1, ys1, n);
      var more2, zs2 := more1 + [ev], zs1 + [z];
      assert evs + more2 == evs1 + [ev] && ys + zs2 == ys1 + [z];
      OwnHarmless(Last(ys), more2, zs2);
      OrderedDelivery(cfg, opts, limit, evs + more2, ys + zs2, |evs + more2|, m);
      var more3, zs3 := DeliverQueued(cfg, opts, limit, evs + more2, ys + zs2, n);
      Joined(cfg, opts, limit, evs, ys, more2, zs2, more3, zs3);
      more, zs := more2 + more3, zs2 + zs3;
      assert evs + more == evs + more2 + more3 && ys + zs == ys + zs2 + zs3;
    }
  }

  lemma OwnHarmless(y: Sys, more: seq<Event>, zs: seq<Sys>)
    requires |more| == |zs| && forall e <- more :: e.act.Read? || (e.act.Route? && e.act.s.None?)
    ensures HarmlessRun(y, more, zs)
  {
  }

  /** A payload that is not in the retransmit queue waits at the receiver. */
  lemma NotKept(cfg: Config, opts: Options, limit: nat, evs: seq<Event>, ys: seq<Sys>, n: RdpSystem.Node)
    requires Sane(cfg, opts, limit) && IsRun(cfg, opts, limit, evs, ys) && InUse(Last(ys)) && !Unacked(At(Last(ys), n))
    requires |Peer(Last(ys), n).rcv.delivered| < |At(Last(ys), n).snd.accepted|
    ensures InReorderQueue(At(Last(ys), n), Peer(Last(ys), n), |Peer(Last(ys), n).rcv.delivered|)
  {
    hide Init, Step, InReorderQueue, Unacked, InTxQueue;
    var c, k := At(Last(ys), n), |Peer(Last(ys), n).rcv.delivered|;
    Recoverability(cfg, opts, limit, evs, ys, |evs|, n, k);
    RunSound(cfg, opts, limit, evs, ys, n);
    if InTxQueue(c, k) {
      KeptIsUnacked(c, k);
    }
  }

  lemma KeptIsUnacked(c: Conn, k: nat)
    requires InTxQueue(c, k) && Una(c) <= k + 1 < 0x8000
    ensures Unacked(c)
  {
    var e :| e in c.snd.txq && e.seg.seqNr == Wrap(c.snd.iss + 1 + k) && e.seg.data == c.snd.accepted[k];
    OffsetOfWrap(c.snd.iss, k + 1);
  }

  /** A segment of the peer that is still lacking, sent again, brings the acknowledgement with it. */
  lemma PeerSegmentReopens(cfg: Config, opts: Options, limit: nat, users: bool, evs: seq<Event>, ys: seq<Sys>,
                           n: RdpSystem.Node)
    requires Sane(cfg, opts, limit) && IsRun(cfg, opts, limit, evs, ys) && InUse(Last(ys)) && cfg.inboxLen >= 3
    requires forall p <- At(Last(ys), n).snd.accepted :: p != []
    requires !Unacked(At(Last(ys), n)) && Lacks(cfg, At(Last(ys), n), Peer(Last(ys), n))
    ensures Reopens(cfg, opts, limit, users, evs, ys, n)
  {
    var c, r, m := At(Last(ys), n), Peer(Last(ys), n), Other(n);
    hide Flushed, Sound, Init, Step, Unacked, Waits, Offset, SeqBefore, Lacks, Sane;
    BothSound(cfg, opts, limit, evs, ys, n);
    var x := LackedEntry(cfg, opts.window, c, r, |r.rcv.delivered|, |c.rcv.delivered|);
    var more, zs := DeliverQueued(cfg, opts, limit, evs, ys, n);
    var evs1, ys1 := evs + more, ys + zs;
    assert evs1[|evs|..] == more && ys1[|ys|..] == zs;
    HarmlessIsAdmitted(users, Last(ys), more, zs);
    RunWaits(cfg, opts, limit, evs1, ys1, |evs|, |ys1| - 1, m, x);
    StillUnacked(r, At(Last(ys1), m), x);
    PeerSentAgain(cfg, opts, limit, users, evs, ys, evs1, ys1, n, x);
  }

  /** The number of an entry that is lacking: it waits, and is not acknowledged. */
  lemma LackedEntry(cfg: Config, w: nat, c: Conn, r: Conn, d: nat, f: nat) returns (x: u16)
    requires Sound(w, c, r, d) && Sound(w, r, c, f) && f == |c.rcv.delivered| && Lacks(cfg, c, r)
    ensures Waits(r, r, x) && !SeqBefore(x, r.snd.una)
    ensures Una(r) <= Offset(r.snd.iss, x) && Flushed(cfg, c) < Offset(r.snd.iss, x)
  {
    var e :| e in r.snd.txq && Flushed(cfg, c) < TxOff(r.snd.iss, e);
    x := e.seg.seqNr;
    assert TxSeg(w, r.listening, r.snd.iss, |r.snd.accepted|, r.rcv.synced, e);
    hide Flushed, Waits, Offset, SeqBefore, TxOk, CtlOk, ReceiverOk, Coupled;
    FlushedBound(cfg, w, c, r, d);
    AckedMeans(r, e);
    WaitsNow(w, r, c, f, e);
  }

  lemma StillUnacked(c: Conn, d: Conn, x: u16)
    requires Waits(c, d, x) && Una(c) <= Offset(c.snd.iss, x)
    ensures Waits(d, d, x) && Una(d) <= Offset(d.snd.iss, x) && d.snd.iss == c.snd.iss
  {
    hide Offset;
  }

  lemma WaitsNow(w: nat, c: Conn, p: Conn, d: nat, e: TxEntry)
    requires Sound(w, c, p, d) && e in c.snd.txq
    ensures Waits(c, c, e.seg.seqNr)
  {
  }

  lemma PeerSentAgain(cfg: Config, opts: Options, limit: nat, users: bool, evs: seq<Event>, ys: seq<Sys>,
                      evs1: seq<Event>, ys1: seq<Sys>, n: RdpSystem.Node, x: u16)
    requires Sane(cfg, opts, limit) && Continues(cfg, opts, limit, users, evs, ys, evs1, ys1) && InUse(Last(ys1))
    requires Peer(Last(ys1), n).rcv.delivered == At(Last(ys1), n).snd.accepted
    requires Waits(Peer(Last(ys1), n), Peer(Last(ys1), n), x)
    requires Una(Peer(Last(ys1), n)) <= Offset(Peer(Last(ys1), n).snd.iss, x)
    requires Flushed(cfg, At(Last(ys1), n)) < Offset(Peer(Last(ys1), n).snd.iss, x)
    ensures Reopens(cfg, opts, limit, users, evs, ys, n)
  {
    hide RouteWork, Flushed, ReadyForTx, Wrap, Init, Step, AcksAll, Draws, Sane, Waits, Offset;
    var now, s := AckSentAgain(cfg, opts, limit, evs1, ys1, n, x);
    PeerAcks(cfg, opts, limit, users, evs, ys, evs1, ys1, n, Route(None, now, 0, true), s,
             Offset(Peer(Last(ys1), n).snd.iss, x));
  }

  lemma AgainAcksAll(cfg: Config, w: nat, c: Conn, r: Conn, d: nat, s: Segment, x: u16)
    requires Sound(w, r, c, d) && |r.rcv.delivered| == |c.snd.accepted|
    requires !s.syn && s.ack && !s.rst && s.seqNr == x && s.ackNr == r.rcv.cur
    requires Flushed(cfg, c) < Offset(r.snd.iss, x) <= |r.snd.accepted|
    ensures AcksAll(cfg, c, r, s, Offset(r.snd.iss, x))
  {
    hide Flushed, Wrap, Offset, TxOk, CtlOk, ReceiverOk, Coupled;
    WrapOfOffset(r.snd.iss, x);
  }

  lemma AckSentAgain(cfg: Config, opts: Options, limit: nat, evs: seq<Event>, ys: seq<Sys>, n: RdpSystem.Node, x: u16)
    returns (now: u32, s: Segment)
    requires Sane(cfg, opts, limit) && IsRun(cfg, opts, limit, evs, ys) && InUse(Last(ys))
    requires Peer(Last(ys), n).rcv.delivered == At(Last(ys), n).snd.accepted
    requires Waits(Peer(Last(ys), n), Peer(Last(ys), n), x)
    requires Una(Peer(Last(ys), n)) <= Offset(Peer(Last(ys), n).snd.iss, x)
    requires Flushed(cfg, At(Last(ys), n)) < Offset(Peer(Last(ys), n).snd.iss, x)
    ensures Draws(Peer(Last(ys), n), RouteWork(cfg, Peer(Last(ys), n), None, now, 0, true), s)
    ensures AcksAll(cfg, At(Last(ys), n), Peer(Last(ys), n), s, Offset(Peer(Last(ys), n).snd.iss, x))
  {
    var c, r := At(Last(ys), n), Peer(Last(ys), n);
    hide RouteWork, Flushed, Wrap, Init, Step, Sane, Draws, Waits, Offset, Sound, AcksAll;
    BothSound(cfg, opts, limit, evs, ys, n);
    now, s := EntrySentAgain(cfg, opts.window, r, c, |c.rcv.delivered|, x);
    assert AcksAll(cfg, c, r, s, Offset(r.snd.iss, x)) by {
      AgainAcksAll(cfg, opts.window, c, r, |c.rcv.delivered|, s, x);
    }
  }
}
