/** Where timer passes and reads send no acknowledgement: a window that cannot open by what is still to be sent again,
    or by what the peer may still send, never opens. */
module RdpSilence {
  import opened Base
  import opened SeqNum
  import opened RdpModel
  import opened RdpSystem
  import opened RdpClose
  import opened RdpOrder
  import opened RdpAcks
  import opened RdpEffect
  import opened RdpRecover
  import opened RdpWindow
  import opened RdpTrace
  import opened RdpOptions
  import opened RdpProgress
  import opened RdpRounds
  import opened RdpReopen
  import opened RdpShut

  /** Neither a read nor a timer pass ever sends an acknowledgement: without delayed acknowledgements, or where the
      receive queue is too short for two windows. */
  predicate NeverAcks(cfg: Config, opts: Options) { opts.delayedAcks == 0 || cfg.inboxLen <= 2 * opts.window < 0x8000 }

  lemma NoAck(cfg: Config, c: Conn, now: u32)
    requires NeverAcks(cfg, c.opt) && c.opt.delayedAcks != 0
    ensures CheckAck(cfg, c, now) == c
  {
    hide ShouldAck, SendCmp;
  }

  /** All that a side with a shut window sends: extended acknowledgements under its next number. */
  predicate Echo(c: Conn, g: Segment) { g.ack && g.eak && !g.syn && !g.rst && g.seqNr == c.snd.nxt }

  /** All that its peer sends: segments the side has received already. */
  predicate Stale(cfg: Config, c: Conn, p: Conn, g: Segment) {
    g.ack && !g.syn && !g.rst && Offset(p.snd.iss, g.seqNr) <= Flushed(cfg, c)
  }

  /** The side stays as it is, and sends nothing but echoes. */
  predicate Muted(cfg: Config, c: Conn, d: Conn) {
    && d.state == Open && d.handle && d.opt == c.opt
    && d.snd.iss == c.snd.iss && d.snd.una == c.snd.una && d.snd.nxt == c.snd.nxt && From(c.snd.txq, d.snd.txq)
    && Flushed(cfg, c) <= Flushed(cfg, d) && Extends(c, d) && (forall g <- d.snd.out[|c.snd.out|..] :: Echo(c, g))
  }

  /** Its peer sends nothing that the side lacks. */
  predicate Repeats(cfg: Config, c: Conn, p: Conn, q: Conn) {
    && q.state == Open && q.handle && q.snd.iss == p.snd.iss && From(p.snd.txq, q.snd.txq)
    && q.snd.accepted == p.snd.accepted
    && Extends(p, q) && (forall g <- q.snd.out[|p.snd.out|..] :: Stale(cfg, c, p, g))
  }

  // ---------------------------------------------------------------- the side with the shut window

  /** A shorter queue leaves room for at least as much. */
  lemma {:induction false} FlushMore(cfg: Config, r: Rcv, t: Rcv, i: nat)
    requires i <= |r.rxq| && t.rxq == r.rxq && t.cur == r.cur && t.delivered == r.delivered && |t.inbox| <= |r.inbox|
    ensures |RxFlush(cfg, r, i).delivered| <= |RxFlush(cfg, t, i).delivered|
    decreases |r.rxq|, i
  {
    if i == 0 || cfg.inboxLen - |r.inbox| <= 2 {
      RxFlushSynced(cfg, t, i);
    } else if r.rxq[0].seqNr == Wrap(r.cur + 1) {
      var next := Wrap(r.cur + 1);
      FlushMore(cfg, Deliver(cfg, r.(rxq := r.rxq[1..]), r.rxq[0].data).(cur := next),
                Deliver(cfg, t.(rxq := r.rxq[1..]), r.rxq[0].data).(cur := next), |r.rxq| - 1);
    } else {
      FlushMore(cfg, r.(rxq := r.rxq[1..] + [r.rxq[0]]), t.(rxq := r.rxq[1..] + [r.rxq[0]]), i - 1);
    }
  }

  lemma FromSelf(q: seq<TxEntry>)
    ensures From(q, q)
  {
    assert forall e <- q :: SameSeg(e.seg, e.seg);
  }

  lemma ReadOnly(cfg: Config, c: Conn, now: u32)
    requires NeverAcks(cfg, c.opt)
    ensures UserRead(cfg, c, now) == if c.open && c.rcv.inbox != [] then c.(rcv := RcvPop(c.rcv)) else c
  {
    hide CheckAck;
    if c.open && c.rcv.inbox != [] && c.opt.delayedAcks != 0 {
      NoAck(cfg, c.(rcv := RcvPop(c.rcv)), now);
    }
  }

  lemma SideReads(cfg: Config, c: Conn, now: u32)
    requires c.state == Open && c.handle && NeverAcks(cfg, c.opt)
    ensures Muted(cfg, c, UserRead(cfg, c, now))
  {
    FromSelf(c.snd.txq);
    ReadOnly(cfg, c, now);
    if c.open && c.rcv.inbox != [] {
      FlushMore(cfg, c.rcv, RcvPop(c.rcv), |c.rcv.rxq|);
    }
  }

  /** A timer pass sends again only what is in the queue and not acknowledged. */
  lemma PassSendsUnacked(w: nat, c: Conn, p: Conn, d: nat, now: u32, g: Segment)
    requires Sound(w, c, p, d)
    requires g in PassSends(c.snd.txq, c.snd.una, c.rcv.cur, now, c.opt.packetTimeout)
    ensures exists e :: e in c.snd.txq && Una(c) <= TxOff(c.snd.iss, e) && g == e.seg.(ackNr := c.rcv.cur)
    ensures g.ack && !g.syn && !g.rst
  {
    hide SeqBefore, PassSends, Offset;
    PassSendsFrom(c.snd.txq, c.snd.una, c.rcv.cur, now, c.opt.packetTimeout, g);
    var e :| e in c.snd.txq && !SeqBefore(e.seg.seqNr, c.snd.una) && g == e.seg.(ackNr := c.rcv.cur);
    assert TxSeg(w, c.listening, c.snd.iss, |c.snd.accepted|, c.rcv.synced, e);
    AckedMeans(c, e);
  }

  lemma NothingSent(w: nat, c: Conn, p: Conn, d: nat, now: u32)
    requires Sound(w, c, p, d) && !Unacked(c)
    ensures PassSends(c.snd.txq, c.snd.una, c.rcv.cur, now, c.opt.packetTimeout) == []
  {
    hide Sound, PassSends, Offset;
    var sent := PassSends(c.snd.txq, c.snd.una, c.rcv.cur, now, c.opt.packetTimeout);
    if sent != [] {
      PassSendsUnacked(w, c, p, d, now, sent[0]);
    }
  }

  /** A timer pass that acknowledges nothing. */
  lemma PassParts(cfg: Config, w: nat, c: Conn, p: Conn, d: nat, now: u32)
    requires Sound(w, c, p, d) && NeverAcks(cfg, c.opt)
    ensures var b := TimerPass(cfg, c, now);
            && b == c.(snd := Retransmit(c.snd, c.rcv.cur, now, c.opt.packetTimeout), rcv := b.rcv)
            && From(c.snd.txq, b.snd.txq) && Sorted(b.snd.iss, b.snd.txq)
            && |c.rcv.delivered| <= |b.rcv.delivered| == Flushed(cfg, c) <= Flushed(cfg, b)
  {
    PassFilterThins(c.snd.iss, c.snd.txq, c.snd.una, c.rcv.cur, now, c.opt.packetTimeout);
    hide RxFlush, PassSends, PassFilter, TxOk, CtlOk, ReceiverOk, CheckAck;
    if c.opt.delayedAcks != 0 {
      NoAck(cfg, c.(snd := Retransmit(c.snd, c.rcv.cur, now, c.opt.packetTimeout)), now);
    }
    var f := RxFlush(cfg, c.rcv, |c.rcv.rxq|);
    RxFlushSynced(cfg, c.rcv, |c.rcv.rxq|);
    RxFlushSynced(cfg, f, |f.rxq|);
  }

  lemma SidePasses(cfg: Config, w: nat, c: Conn, p: Conn, d: nat, now: u32)
    requires Sound(w, c, p, d) && !Unacked(c) && NeverAcks(cfg, c.opt)
    ensures Muted(cfg, c, TimerPass(cfg, c, now)) && TimerPass(cfg, c, now).snd.out == c.snd.out
  {
    hide TimerPass, Flushed, PassSends, PassFilter, TxOk, CtlOk, ReceiverOk, Unacked, Offset, From;
    PassParts(cfg, w, c, p, d, now);
    NothingSent(w, c, p, d, now);
  }

  lemma SideTakes(cfg: Config, w: nat, c: Conn, p: Conn, d: nat, g: Segment, now: u32, iss: u16, sockOk: bool)
    requires Sound(w, c, p, d) && !Unacked(c) && NeverAcks(cfg, c.opt) && Stale(cfg, c, p, g)
    ensures Muted(cfg, c, RouteWork(cfg, c, Some(g), now, iss, sockOk))
  {
    hide TimerPass, Flushed, Unacked, Offset, From, Sound, RouteWork;
    SidePasses(cfg, w, c, p, d, now);
    WrapOfOffset(p.snd.iss, g.seqNr);
    DuplicateDrawsEack(cfg, w, c, p, d, g, Offset(p.snd.iss, g.seqNr), now, iss, sockOk);
    EchoSent(cfg, c, TimerPass(cfg, c, now), now);
  }

  lemma EchoSent(cfg: Config, c: Conn, e: Conn, now: u32)
    requires Muted(cfg, c, e) && e.snd.out == c.snd.out
    ensures Muted(cfg, c, SendCmp(cfg, e, Eack(e), now))
  {
    hide RxFlush, From, EackList;
    assert SendCmp(cfg, e, Eack(e), now).snd == e.snd.(out := e.snd.out + [Eack(e)]);
    assert SendCmp(cfg, e, Eack(e), now).rcv == e.rcv;
  }

  // ---------------------------------------------------------------- its peer

  lemma PeerReads(cfg: Config, c: Conn, p: Conn, now: u32)
    requires p.state == Open && p.handle && NeverAcks(cfg, p.opt)
    ensures Repeats(cfg, c, p, UserRead(cfg, p, now))
  {
    FromSelf(p.snd.txq);
    ReadOnly(cfg, p, now);
  }

  lemma PeerPasses(cfg: Config, w: nat, c: Conn, p: Conn, d: nat, now: u32)
    requires Sound(w, p, c, d) && NeverAcks(cfg, p.opt) && !Lacks(cfg, c, p)
    ensures Repeats(cfg, c, p, TimerPass(cfg, p, now))
  {
    hide TimerPass, Flushed, PassSends, PassFilter, TxOk, CtlOk, ReceiverOk, Offset, From;
    PassParts(cfg, w, p, c, d, now);
    var sent := PassSends(p.snd.txq, p.snd.una, p.rcv.cur, now, p.opt.packetTimeout);
    forall g | g in sent ensures Stale(cfg, c, p, g) {
      PassSendsUnacked(w, p, c, d, now, g);
    }
  }

  /** An echo is taken: the peer may drop entries of its retransmit queue, and sends nothing. */
  lemma PeerTakes(cfg: Config, w: nat, c: Conn, p: Conn, d: nat, g: Segment, now: u32, iss: u16, sockOk: bool)
    requires Sound(w, p, c, d) && NeverAcks(cfg, p.opt) && !Lacks(cfg, c, p) && Echo(c, g)
    requires c.snd.nxt == Wrap(c.snd.iss + (|c.snd.accepted| + 1))
    ensures Repeats(cfg, c, p, RouteWork(cfg, p, Some(g), now, iss, sockOk))
  {
    hide TimerPass, PassSends, PassFilter, Flushed, Wrap, SeqAcceptable, Sound, From, Repeats, Lacks, Retransmit,
         Sorted, RoutePacket;
    PeerPasses(cfg, w, c, p, d, now);
    PassParts(cfg, w, p, c, d, now);
    EchoAcceptable(cfg, w, c, p, d, now);
    EchoTaken(cfg, c, p, TimerPass(cfg, p, now), g, now, iss, sockOk);
  }

  lemma EchoAcceptable(cfg: Config, w: nat, c: Conn, p: Conn, d: nat, now: u32)
    requires Sound(w, p, c, d)
    ensures var e := TimerPass(cfg, p, now);
            e.open && e.state == Open && SeqAcceptable(e, Wrap(c.snd.iss + (|c.snd.accepted| + 1)))
  {
    hide TimerPass, Flushed, TxOk, CtlOk, ReceiverOk, Coupled, Offset, Wrap, SeqAcceptable;
    var e := TimerPass(cfg, p, now);
    Passed(cfg, w, p, c, d, now);
    WithinTwoWindows(e, c.snd.iss, |e.rcv.delivered|, |c.snd.accepted| + 1, w);
  }

  lemma EchoTaken(cfg: Config, c: Conn, p: Conn, e: Conn, g: Segment, now: u32, iss: u16, sockOk: bool)
    requires Repeats(cfg, c, p, e) && Echo(c, g) && SeqAcceptable(e, g.seqNr) && e.open && e.state == Open
    requires Sorted(e.snd.iss, e.snd.txq)
    ensures Repeats(cfg, c, p, RoutePacket(cfg, e, g, now, iss, sockOk))
  {
    EackFilterThins(e.snd.iss, e.snd.txq, g.eacks, now, e.opt.packetTimeout);
    hide SeqAcceptable, AckAcceptable, EackFilter, Flushed, Offset;
    FromFrom(p.snd.txq, e.snd.txq, EackFilter(e.snd.txq, g.eacks, now, e.opt.packetTimeout));
  }

  lemma FromFrom(q: seq<TxEntry>, p: seq<TxEntry>, r: seq<TxEntry>)
    requires From(q, p) && From(p, r)
    ensures From(q, r)
  {
    forall e | e in r ensures exists x :: x in q && SameSeg(x.seg, e.seg) {
      var y :| y in p && SameSeg(y.seg, e.seg);
      var x :| x in q && SameSeg(x.seg, y.seg);
      assert SameSeg(x.seg, e.seg);
    }
  }

  // ---------------------------------------------------------------- every run

  /** The window of `n` is shut, nothing still to be sent again will open it, and whatever was sent since `y` will not
      either. */
  predicate Silent(cfg: Config, y: Sys, z: Sys, n: RdpSystem.Node) {
    var c, p := At(z, n), Peer(z, n);
    && InUse(z) && !CanReopen(cfg, c, p) && Extends(At(y, n), c) && Extends(Peer(y, n), p)
    && (forall g <- c.snd.out[|At(y, n).snd.out|..] :: Echo(c, g))
    && (forall g <- p.snd.out[|Peer(y, n).snd.out|..] :: Stale(cfg, c, p, g))
  }

  lemma NewOnes(was: seq<Segment>, mid: seq<Segment>, out: seq<Segment>)
    requires was <= mid <= out
    ensures forall g <- out[|was|..] :: g in mid[|was|..] || g in out[|mid|..]
  {
    assert out[|was|..] == mid[|was|..] + out[|mid|..];
  }

  /** Fewer entries under the same numbers. */
  lemma ThinnedUnacked(c: Conn, d: Conn)
    requires !Unacked(c) && From(c.snd.txq, d.snd.txq) && d.snd.iss == c.snd.iss && d.snd.una == c.snd.una
    ensures !Unacked(d)
  {
    hide Offset;
    forall e | e in d.snd.txq ensures TxOff(d.snd.iss, e) < Una(d) {
      var x :| x in c.snd.txq && SameSeg(x.seg, e.seg);
      assert TxOff(c.snd.iss, x) < Una(c);
    }
  }

  lemma ThinnedLacks(cfg: Config, c: Conn, d: Conn, p: Conn, q: Conn)
    requires !Lacks(cfg, c, p) && From(p.snd.txq, q.snd.txq) && q.snd.iss == p.snd.iss
    requires Flushed(cfg, c) <= Flushed(cfg, d)
    ensures !Lacks(cfg, d, q)
  {
    hide Offset, Flushed;
    forall e | e in q.snd.txq ensures TxOff(q.snd.iss, e) <= Flushed(cfg, d) {
      var x :| x in p.snd.txq && SameSeg(x.seg, e.seg);
      assert TxOff(p.snd.iss, x) <= Flushed(cfg, c);
    }
  }

  lemma SideStep(cfg: Config, y: Sys, z: Sys, n: RdpSystem.Node, d: Conn)
    requires Silent(cfg, y, z, n) && Muted(cfg, At(z, n), d)
    ensures Silent(cfg, y, Put(z, n, d), n)
  {
    hide Offset, Flushed, Unacked, Lacks, From, SeqAfter;
    var c, p := At(z, n), Peer(z, n);
    NewOnes(At(y, n).snd.out, c.snd.out, d.snd.out);
    ThinnedUnacked(c, d);
    FromSelf(p.snd.txq);
    ThinnedLacks(cfg, c, d, p, p);
  }

  lemma PeerStep(cfg: Config, y: Sys, z: Sys, n: RdpSystem.Node, q: Conn)
    requires Silent(cfg, y, z, n) && Repeats(cfg, At(z, n), Peer(z, n), q)
    ensures Silent(cfg, y, Put(z, Other(n), q), n)
  {
    hide Offset, Flushed, Unacked, Lacks, From, ReadyForTx;
    var c, p := At(z, n), Peer(z, n);
    NewOnes(Peer(y, n).snd.out, p.snd.out, q.snd.out);
    ThinnedLacks(cfg, c, c, p, q);
  }

  lemma SideActs(cfg: Config, opts: Options, w: nat, y: Sys, z: Sys, n: RdpSystem.Node, d: nat, act: Act)
    requires Silent(cfg, y, z, n) && Sound(w, At(z, n), Peer(z, n), d) && NeverAcks(cfg, At(z, n).opt)
    requires Harmless(y, z, Event(n, act))
    ensures Muted(cfg, At(z, n), Do(cfg, opts, At(z, n), act))
  {
    hide Sound, Unacked, Lacks, Flushed, TimerPass, UserRead, RoutePacket, ReadyForTx, Muted, Stale, Echo;
    var c, p := At(z, n), Peer(z, n);
    match act
    case Read(now) => SideReads(cfg, c, now);
    case Route(s, now, iss, sockOk) =>
      if s.None? {
        SidePasses(cfg, w, c, p, d, now);
      } else {
        SideTakes(cfg, w, c, p, d, s.value, now, iss, sockOk);
      }
  }

  lemma PeerActs(cfg: Config, opts: Options, w: nat, y: Sys, z: Sys, n: RdpSystem.Node, d: nat, act: Act)
    requires Silent(cfg, y, z, n) && Sound(w, Peer(z, n), At(z, n), d) && NeverAcks(cfg, Peer(z, n).opt)
    requires At(z, n).snd.nxt == Wrap(At(z, n).snd.iss + (|At(z, n).snd.accepted| + 1))
    requires Harmless(y, z, Event(Other(n), act))
    ensures Repeats(cfg, At(z, n), Peer(z, n), Do(cfg, opts, Peer(z, n), act))
  {
    hide Sound, Unacked, Lacks, Flushed, TimerPass, UserRead, RoutePacket, ReadyForTx, Repeats, Stale, Echo, Wrap;
    var c, p := At(z, n), Peer(z, n);
    match act
    case Read(now) => PeerReads(cfg, c, p, now);
    case Route(s, now, iss, sockOk) =>
      if s.None? {
        PeerPasses(cfg, w, c, p, d, now);
      } else {
        PeerTakes(cfg, w, c, p, d, s.value, now, iss, sockOk);
      }
  }

  /** One harmless event. */
  lemma SilentStep(cfg: Config, opts: Options, w: nat, y: Sys, z: Sys, n: RdpSystem.Node, ev: Event)
    requires Silent(cfg, y, z, n) && Harmless(y, z, ev) && BothSoundly(w, z) && BothNever(cfg, z)
    ensures var z1 := Put(z, ev.node, Do(cfg, opts, At(z, ev.node), ev.act));
            Silent(cfg, y, z1, n) && Peer(z1, n).snd.accepted == Peer(z, n).snd.accepted
  {
    var c, p := At(z, n), Peer(z, n);
    SoundlyMeans(w, z, n);
    hide Silent, Harmless, Sound, Do, Muted, Wrap, BothSoundly;
    if ev.node == n {
      SideActs(cfg, opts, w, y, z, n, |p.rcv.delivered|, ev.act);
      SideStep(cfg, y, z, n, Do(cfg, opts, c, ev.act));
    } else {
      PeerActs(cfg, opts, w, y, z, n, |c.rcv.delivered|, ev.act);
      PeerStep(cfg, y, z, n, Do(cfg, opts, p, ev.act));
    }
  }

  /** Both sides as every run leaves them. */
  predicate BothSoundly(w: nat, z: Sys) {
    Sound(w, z.a, z.b, |z.b.rcv.delivered|) && Sound(w, z.b, z.a, |z.a.rcv.delivered|)
  }

  predicate BothNever(cfg: Config, z: Sys) { NeverAcks(cfg, z.a.opt) && NeverAcks(cfg, z.b.opt) }

  lemma SoundlyMeans(w: nat, z: Sys, n: RdpSystem.Node)
    requires BothSoundly(w, z)
    ensures Sound(w, At(z, n), Peer(z, n), |Peer(z, n).rcv.delivered|)
    ensures Sound(w, Peer(z, n), At(z, n), |At(z, n).rcv.delivered|)
    ensures At(z, n).snd.nxt == Wrap(At(z, n).snd.iss + (|At(z, n).snd.accepted| + 1))
  {
  }

  // ---------------------------------------------------------------- sends

  /** The user of a side may still have a payload accepted. */
  predicate CanSend(cfg: Config, limit: nat, c: Conn) { |c.snd.accepted| < limit && 5 <= cfg.bufferSize }

  /** When the window of a side can open: by what is left to send again, or, with `users`, by what its peer can send. */
  predicate CanReopenWith(cfg: Config, limit: nat, users: bool, c: Conn, p: Conn) {
    CanReopen(cfg, c, p) || (users && CanReopen(cfg, p, c) && CanSend(cfg, limit, p))
  }

  /** The window of `n` stays shut: the peer, too, is silent, or can have nothing accepted. */
  predicate Stuck(cfg: Config, limit: nat, users: bool, y: Sys, z: Sys, n: RdpSystem.Node) {
    Silent(cfg, y, z, n) && (users ==> Silent(cfg, y, z, Other(n)) || !CanSend(cfg, limit, Peer(z, n)))
  }

  lemma SilentIsShut(cfg: Config, y: Sys, z: Sys, n: RdpSystem.Node)
    requires Silent(cfg, y, z, n)
    ensures At(z, n).state == Open && !ReadyForTx(At(z, n)) && InUse(z)
  {
  }

  /** A send on a shut window, or of what does not fit, changes nothing. */
  lemma SendRefused(cfg: Config, c: Conn, data: Payload, now: u32)
    requires (c.state == Open && !ReadyForTx(c)) || cfg.bufferSize < 5
    ensures UserSend(cfg, c, data, now) == c
  {
  }

  lemma StuckSend(cfg: Config, opts: Options, limit: nat, y: Sys, z: Sys, n: RdpSystem.Node, ev: Event)
    requires Stuck(cfg, limit, true, y, z, n) && ev.act.Send?
    requires Enabled(cfg, limit, At(z, ev.node), Peer(z, ev.node), ev.act)
    ensures Put(z, ev.node, Do(cfg, opts, At(z, ev.node), ev.act)) == z
  {
    hide Silent, ReadyForTx, UserSend;
    SilentIsShut(cfg, y, z, n);
    if ev.node != n && Silent(cfg, y, z, Other(n)) {
      SilentIsShut(cfg, y, z, Other(n));
    }
    SendRefused(cfg, At(z, ev.node), ev.act.data, ev.act.now);
  }

  lemma StuckStep(cfg: Config, opts: Options, limit: nat, users: bool, y: Sys, z: Sys, n: RdpSystem.Node, ev: Event)
    requires Stuck(cfg, limit, users, y, z, n) && Admitted(users, y, z, ev)
    requires Enabled(cfg, limit, At(z, ev.node), Peer(z, ev.node), ev.act)
    requires BothSoundly(opts.window, z) && BothNever(cfg, z)
    ensures Stuck(cfg, limit, users, y, Put(z, ev.node, Do(cfg, opts, At(z, ev.node), ev.act)), n)
  {
    hide Silent, Harmless, Enabled, Do, BothSoundly, BothNever;
    if Harmless(y, z, ev) {
      SilentStep(cfg, opts, opts.window, y, z, n, ev);
      if Silent(cfg, y, z, Other(n)) {
        SilentStep(cfg, opts, opts.window, y, z, Other(n), ev);
      }
    } else {
      StuckSend(cfg, opts, limit, y, z, n, ev);
    }
  }

  // ---------------------------------------------------------------- every continuation

  lemma SoundAt(cfg: Config, opts: Options, limit: nat, evs: seq<Event>, ys: seq<Sys>, i: nat)
    requires Sane(cfg, opts, limit) && IsRun(cfg, opts, limit, evs, ys) && i <= |evs| && InUse(ys[i])
    requires NeverAcks(cfg, opts)
    ensures BothSoundly(opts.window, ys[i]) && BothNever(cfg, ys[i])
  {
    hide Sane, Sound, Init, Step;
    OptionsAgree(cfg, opts, limit, evs, ys, i);
    SoundBoth(cfg, opts, limit, evs, ys, i, A);
  }

  /** The event of a continuation after the state `ys1[j]` is admitted. */
  lemma AdmittedAt(cfg: Config, opts: Options, limit: nat, users: bool, evs: seq<Event>, ys: seq<Sys>,
                   evs1: seq<Event>, ys1: seq<Sys>, j: nat)
    requires Continues(cfg, opts, limit, users, evs, ys, evs1, ys1) && |evs| <= j < |evs1|
    ensures Admitted(users, Last(ys), ys1[j], evs1[j])
  {
    hide Init, Step, Admitted;
    var more, zs, i := evs1[|evs|..], ys1[|ys|..], j - |evs|;
    assert Admitted(users, Last(ys), if i == 0 then Last(ys) else zs[i - 1], more[i]);
    assert Last(ys) == ys1[|evs|];
  }

  lemma StuckAtFirst(cfg: Config, limit: nat, users: bool, y: Sys, n: RdpSystem.Node)
    requires InUse(y) && !CanReopenWith(cfg, limit, users, At(y, n), Peer(y, n))
    ensures Stuck(cfg, limit, users, y, y, n)
  {
    hide CanReopen;
  }

  /** The window stays shut in every continuation. */
  lemma {:induction false} RunStuck(cfg: Config, opts: Options, limit: nat, users: bool, evs: seq<Event>, ys: seq<Sys>,
                                    evs1: seq<Event>, ys1: seq<Sys>, n: RdpSystem.Node, j: nat)
    requires Sane(cfg, opts, limit) && NeverAcks(cfg, opts)
    requires Continues(cfg, opts, limit, users, evs, ys, evs1, ys1) && |evs| <= j < |ys1|
    requires InUse(Last(ys)) && !CanReopenWith(cfg, limit, users, At(Last(ys), n), Peer(Last(ys), n))
    ensures Stuck(cfg, limit, users, Last(ys), ys1[j], n)
    decreases j
  {
    hide Init, Step, AdmittedRun, CanReopenWith, Sane;
    if j == |evs| {
      assert ys1[j] == Last(ys);
      StuckAtFirst(cfg, limit, users, Last(ys), n);
    } else {
      RunStuck(cfg, opts, limit, users, evs, ys, evs1, ys1, n, j - 1);
      StuckOnce(cfg, opts, limit, users, evs, ys, evs1, ys1, n, j - 1);
    }
  }

  lemma StuckOnce(cfg: Config, opts: Options, limit: nat, users: bool, evs: seq<Event>, ys: seq<Sys>,
                  evs1: seq<Event>, ys1: seq<Sys>, n: RdpSystem.Node, j: nat)
    requires Sane(cfg, opts, limit) && NeverAcks(cfg, opts)
    requires Continues(cfg, opts, limit, users, evs, ys, evs1, ys1) && |evs| <= j < |evs1|
    requires Stuck(cfg, limit, users, Last(ys), ys1[j], n)
    ensures Stuck(cfg, limit, users, Last(ys), ys1[j + 1], n)
  {
    hide Silent, Init, AdmittedRun, Sane, Enabled, Do, Admitted, BothSoundly, BothNever;
    SilentIsShut(cfg, Last(ys), ys1[j], n);
    assert Step(cfg, opts, limit, ys1[j], evs1[j], ys1[j + 1]);
    SoundAt(cfg, opts, limit, evs1, ys1, j);
    AdmittedAt(cfg, opts, limit, users, evs, ys, evs1, ys1, j);
    hide Stuck;
    StuckStep(cfg, opts, limit, users, Last(ys), ys1[j], n, evs1[j]);
  }

  lemma NeverReopens(cfg: Config, opts: Options, limit: nat, users: bool, evs: seq<Event>, ys: seq<Sys>,
                     n: RdpSystem.Node)
    requires Sane(cfg, opts, limit) && NeverAcks(cfg, opts) && IsRun(cfg, opts, limit, evs, ys)
    requires InUse(Last(ys)) && !CanReopenWith(cfg, limit, users, At(Last(ys), n), Peer(Last(ys), n))
    ensures !Reopens(cfg, opts, limit, users, evs, ys, n)
  {
    hide Sane, Init, Step, AdmittedRun, ReadyForTx, CanReopenWith, Silent;
    forall evs1: seq<Event>, ys1: seq<Sys> | Continues(cfg, opts, limit, users, evs, ys, evs1, ys1)
      ensures !ReadyForTx(At(Last(ys1), n))
    {
      RunStuck(cfg, opts, limit, users, evs, ys, evs1, ys1, n, |ys1| - 1);
      SilentIsShut(cfg, Last(ys), Last(ys1), n);
    }
  }
}
