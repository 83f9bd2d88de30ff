/** The transmit window: whether a window that stale acknowledgements have shut can open again. */
module RdpReopen {
  import opened Base
  import opened SeqNum
  import opened RdpModel
  import opened RdpSystem
  import opened RdpClose
  import opened RdpOrder
  import opened RdpAcks
  import opened RdpEffect
  import opened RdpRecover
  import opened RdpWindow
  import opened RdpTrace
  import opened RdpOptions
  import opened RdpProgress

  /** Both ends open in the hands of their users. */
  predicate InUse(y: Sys) { y.a.state == Open && y.a.handle && y.b.state == Open && y.b.handle }

  /** What happens in a continuation from the state `y`: reads, timer passes, the delivery of segments sent since, and,
      with `users`, sends by either user. */
  predicate Admitted(users: bool, y: Sys, z: Sys, e: Event) { Harmless(y, z, e) || (users && e.act.Send?) }

  predicate AdmittedRun(users: bool, y: Sys, more: seq<Event>, zs: seq<Sys>) {
    |more| == |zs| && forall i :: 0 <= i < |more| ==> Admitted(users, y, if i == 0 then y else zs[i - 1], more[i])
  }

  lemma HarmlessIsAdmitted(users: bool, y: Sys, more: seq<Event>, zs: seq<Sys>)
    requires HarmlessRun(y, more, zs)
    ensures AdmittedRun(users, y, more, zs)
  {
    hide Harmless;
  }

  /** A run, and a longer one that goes on in this way. */
  ghost predicate Continues(cfg: Config, opts: Options, limit: nat, users: bool, evs: seq<Event>, ys: seq<Sys>,
                            evs1: seq<Event>, ys1: seq<Sys>) {
    && IsRun(cfg, opts, limit, evs, ys) && IsRun(cfg, opts, limit, evs1, ys1) && evs <= evs1 && ys <= ys1
    && AdmittedRun(users, Last(ys), evs1[|evs|..], ys1[|ys|..])
  }

  /** The window of `n` can open again, even if everything sent so far is lost. */
  ghost predicate Reopens(cfg: Config, opts: Options, limit: nat, users: bool, evs: seq<Event>, ys: seq<Sys>,
                          n: RdpSystem.Node) {
    exists evs1: seq<Event>, ys1: seq<Sys> :: Continues(cfg, opts, limit, users, evs, ys, evs1, ys1)
                                              && InUse(Last(ys1)) && ReadyForTx(At(Last(ys1), n))
  }

  /** One more event of a continuation. */
  lemma Extend(cfg: Config, opts: Options, limit: nat, users: bool, evs: seq<Event>, ys: seq<Sys>, evs1: seq<Event>,
               ys1: seq<Sys>, ev: Event)
    returns (evs2: seq<Event>, ys2: seq<Sys>)
    requires Continues(cfg, opts, limit, users, evs, ys, evs1, ys1)
    requires Enabled(cfg, limit, At(Last(ys1), ev.node), Peer(Last(ys1), ev.node), ev.act)
    requires Admitted(users, Last(ys), Last(ys1), ev)
    ensures Continues(cfg, opts, limit, users, evs, ys, evs2, ys2)
    ensures At(Last(ys2), ev.node) == Do(cfg, opts, At(Last(ys1), ev.node), ev.act)
    ensures Peer(Last(ys2), ev.node) == Peer(Last(ys1), ev.node)
  {
    var z := Put(Last(ys1), ev.node, Do(cfg, opts, At(Last(ys1), ev.node), ev.act));
    evs2, ys2 := evs1 + [ev], ys1 + [z];
    GoesOn(cfg, opts, limit, evs1, ys1, ev);
    assert evs2[|evs|..] == evs1[|evs|..] + [ev] && ys2[|ys|..] == ys1[|ys|..] + [z];
    hide Init, Step, Admitted, Do, Enabled;
    LastAdmitted(users, Last(ys), evs1[|evs|..], ys1[|ys|..], ev, z, Last(ys1));
  }

  lemma LastAdmitted(users: bool, y: Sys, more: seq<Event>, zs: seq<Sys>, ev: Event, z: Sys, before: Sys)
    requires AdmittedRun(users, y, more, zs) && Admitted(users, y, before, ev) && before == Reached(y, zs)
    ensures AdmittedRun(users, y, more + [ev], zs + [z])
  {
    hide Admitted;
    var more1, zs1 := more + [ev], zs + [z];
    forall i | 0 <= i < |more1| ensures Admitted(users, y, if i == 0 then y else zs1[i - 1], more1[i]) {
      if i < |more| {
        assert Admitted(users, y, if i == 0 then y else zs[i - 1], more[i]);
      }
    }
  }

  // ---------------------------------------------------------------- an acknowledgement arrives

  lemma WithinTwoWindows(c: Conn, iss: u16, d: nat, o: nat, w: nat)
    requires c.rcv.cur == Wrap(iss + d) && c.opt.window == w && d < o <= d + 2 * w && 1 <= w < 0x4000
    ensures SeqAcceptable(c, Wrap(iss + o))
  {
    hide SeqBetween, Wrap;
    BetweenIsInRange(iss, o, d + 1, d + 2 * w);
    WrapModulo(iss + d, 1);
    WrapModulo(iss + d, w * 2);
    SameBetween(Wrap(iss + o), c.rcv.cur + 1, c.rcv.cur + c.opt.window * 2, iss + (d + 1), iss + (d + 2 * w));
  }

  /** What a side has received in sequence by the end of its next timer pass. */
  function Flushed(cfg: Config, c: Conn): nat { |RxFlush(cfg, c.rcv, |c.rcv.rxq|).delivered| }

  /** A side of an open connection as every run leaves it, `d` payloads of its own delivered at the peer. */
  predicate Sound(w: nat, c: Conn, p: Conn, d: nat) {
    && c.open && c.state == Open && !c.pending && c.handle && CtlOk(c) && c.opt.window == w && 1 <= w < 0x4000
    && ReceiverOk(c.rcv, p.snd.iss, p.snd.accepted) && Coupled(Open, c.rcv)
    && c.snd.nxt == Wrap(c.snd.iss + 1 + |c.snd.accepted|) && TxOk(w, c)
    && 1 <= Una(c) <= d + 1 <= |c.snd.accepted| + 1 && |c.snd.accepted| + 2 * w < 0x8000
    && |p.snd.accepted| <= |c.rcv.delivered| + w && |p.snd.accepted| + 2 * w < 0x8000
    && c.rcv.cur == Wrap(p.snd.iss + |c.rcv.delivered|)
  }

  lemma SoundState(w: nat, limit: nat, y: Sys, n: RdpSystem.Node)
    requires WInv(w, limit, y) && InUse(y) && limit + 2 * w < 0x8000 && 1 <= w
    ensures Sound(w, At(y, n), Peer(y, n), |Peer(y, n).rcv.delivered|)
  {
    hide AllHeld, HasMarks, Handshake, OutOk, TxOk, Payloads, CarriesItsPayload, WellSent, WellKept, Wrap;
  }

  lemma RunSound(cfg: Config, opts: Options, limit: nat, evs: seq<Event>, ys: seq<Sys>, n: RdpSystem.Node)
    requires Sane(cfg, opts, limit) && IsRun(cfg, opts, limit, evs, ys) && InUse(Last(ys))
    ensures Sound(opts.window, At(Last(ys), n), Peer(Last(ys), n), |Peer(Last(ys), n).rcv.delivered|)
  {
    RunW(cfg, opts, limit, evs, ys, |evs|);
    hide WInv, Sound;
    SoundState(opts.window, limit, Last(ys), n);
  }

  lemma SoundBoth(cfg: Config, opts: Options, limit: nat, evs: seq<Event>, ys: seq<Sys>, i: nat, n: RdpSystem.Node)
    requires Sane(cfg, opts, limit) && IsRun(cfg, opts, limit, evs, ys) && i <= |evs| && InUse(ys[i])
    ensures Sound(opts.window, At(ys[i], n), Peer(ys[i], n), |Peer(ys[i], n).rcv.delivered|)
    ensures Sound(opts.window, Peer(ys[i], n), At(ys[i], n), |At(ys[i], n).rcv.delivered|)
  {
    RunW(cfg, opts, limit, evs, ys, i);
    hide WInv, Sound, Init, Step;
    SoundState(opts.window, limit, ys[i], n);
    SoundState(opts.window, limit, ys[i], Other(n));
  }

  lemma BothSound(cfg: Config, opts: Options, limit: nat, evs: seq<Event>, ys: seq<Sys>, n: RdpSystem.Node)
    requires Sane(cfg, opts, limit) && IsRun(cfg, opts, limit, evs, ys) && InUse(Last(ys))
    ensures Sound(opts.window, At(Last(ys), n), Peer(Last(ys), n), |Peer(Last(ys), n).rcv.delivered|)
    ensures Sound(opts.window, Peer(Last(ys), n), At(Last(ys), n), |At(Last(ys), n).rcv.delivered|)
  {
    hide Sane, Init, Step, Sound;
    SoundBoth(cfg, opts, limit, evs, ys, |evs|, n);
  }

  /** A timer pass of such a side: what it can take from its reorder queue is delivered, and the rest stays. */
  lemma Passed(cfg: Config, w: nat, c: Conn, p: Conn, d: nat, now: u32)
    requires Sound(w, c, p, d)
    ensures var e, f := TimerPass(cfg, c, now), Flushed(cfg, c);
            && CtlOk(e) && e.open && e.state == Open && !e.pending && e.handle && e.opt == c.opt
            && e.rcv.cur == Wrap(p.snd.iss + f) && |e.rcv.delivered| == f && |c.rcv.delivered| <= f <= |p.snd.accepted|
            && e.snd.iss == c.snd.iss && e.snd.una == c.snd.una && e.snd.nxt == c.snd.nxt
            && e.snd.accepted == c.snd.accepted
  {
    PassIsTimers(cfg, c, now);
    RxFlushOk(cfg, c.rcv, p.snd.iss, p.snd.accepted, |c.rcv.rxq|);
    RxFlushSynced(cfg, c.rcv, |c.rcv.rxq|);
    CheckTimeoutsCtl(cfg, c, now);
    hide MessageTimers, RxFlush, TxOk, CtlOk, Wrap;
  }

  /** An ordinary segment whose number the receiver lacks, and which acknowledges everything, moves snd_una to the
      end. */
  lemma AckTaken(cfg: Config, w: nat, c: Conn, p: Conn, s: Segment, o: nat)
    requires Sound(w, c, p, |c.snd.accepted|)
    requires !s.syn && !s.rst && s.ack && s.ackNr == Wrap(c.snd.iss + |c.snd.accepted|)
    requires s.seqNr == Wrap(p.snd.iss + o) && Flushed(cfg, c) < o <= |p.snd.accepted| + 1
    ensures var d := RouteWork(cfg, c, Some(s), 0, 0, true);
            Stays(c, d) && d.snd.iss == c.snd.iss && d.snd.una == Wrap(c.snd.iss + |c.snd.accepted| + 1)
  {
    hide TimerPass, Flushed, Wrap, TxOk, CtlOk, RoutePacket, SeqAcceptable, AckAcceptable, ReceiverOk, Coupled, Offset;
    var n, f, e := |c.snd.accepted|, Flushed(cfg, c), TimerPass(cfg, c, 0);
    Passed(cfg, w, c, p, n, 0);
    WrapStep(c.snd.iss, n);
    WithinTwoWindows(e, p.snd.iss, f, o, w);
    AckIsAcceptable(e, n, w);
    Taken(cfg, e, s);
  }

  lemma Taken(cfg: Config, c: Conn, s: Segment)
    requires CtlOk(c) && c.open && c.state == Open && c.handle && !s.rst && !s.syn && s.ack
    requires SeqAcceptable(c, s.seqNr) && AckAcceptable(c, s.ackNr)
    ensures var d := RoutePacket(cfg, c, s, 0, 0, true);
            Stays(c, d) && d.snd.iss == c.snd.iss && d.snd.una == Wrap(s.ackNr + 1)
  {
    hide RecvAccepted, SeqAcceptable, AckAcceptable;
    NewPacketCtl(cfg, c, s, 0, 0, true);
    RecvAcceptedEffect(cfg, c, s, 0);
  }

  /** After such a segment the window is open. */
  lemma OpensWindow(w: nat, c: Conn, p: Conn, d: nat)
    requires Sound(w, c, p, d) && c.snd.una == Wrap(c.snd.iss + |c.snd.accepted| + 1)
    ensures ReadyForTx(c)
  {
    hide Wrap, Offset, SeqAfter, TxOk, CtlOk, ReceiverOk, Coupled;
    var n := |c.snd.accepted|;
    OffsetOfWrap(c.snd.iss, n + 1);
    ReadyMeans(c.snd.iss, c.snd.una, c.snd.nxt, w, n);
  }

  /** A segment sent within the continuation. */
  predicate SentSince(y: Sys, z: Sys, n: RdpSystem.Node, s: Segment) {
    At(y, n).snd.out <= At(z, n).snd.out && s in At(z, n).snd.out[|At(y, n).snd.out|..]
  }

  lemma MayArrive(cfg: Config, limit: nat, y: Sys, z: Sys, n: RdpSystem.Node, s: Segment)
    requires SentSince(y, z, Other(n), s) && !s.syn
    ensures Enabled(cfg, limit, At(z, n), Peer(z, n), Route(Some(s), 0, 0, true))
    ensures Harmless(y, z, Event(n, Route(Some(s), 0, 0, true)))
  {
    hide TimerPass;
  }

  /** A side stays as it is but sends, among others, the segment `s`. */
  predicate Draws(c: Conn, d: Conn, s: Segment) {
    && Stays(c, d) && d.snd.iss == c.snd.iss && c.snd.out <= d.snd.out && s in d.snd.out[|c.snd.out|..]
    && |c.rcv.delivered| <= |d.rcv.delivered|
  }

  /** An acknowledgement of all of `c` from its peer `r`, with a number that `c` takes. */
  predicate AcksAll(cfg: Config, c: Conn, r: Conn, s: Segment, o: nat) {
    && !s.syn && !s.rst && s.ack && s.ackNr == Wrap(c.snd.iss + |c.snd.accepted|) && s.seqNr == Wrap(r.snd.iss + o)
    && Flushed(cfg, c) < o <= |r.snd.accepted| + 1
  }

  /** The last event: the acknowledgement arrives, and the window opens. */
  lemma FinalAck(cfg: Config, opts: Options, limit: nat, users: bool, evs: seq<Event>, ys: seq<Sys>, evs1: seq<Event>,
                 ys1: seq<Sys>, n: RdpSystem.Node, s: Segment, o: nat)
    requires Sane(cfg, opts, limit) && Continues(cfg, opts, limit, users, evs, ys, evs1, ys1) && InUse(Last(ys1))
    requires Peer(Last(ys1), n).rcv.delivered == At(Last(ys1), n).snd.accepted
    requires SentSince(Last(ys), Last(ys1), Other(n), s) && AcksAll(cfg, At(Last(ys1), n), Peer(Last(ys1), n), s, o)
    ensures Reopens(cfg, opts, limit, users, evs, ys, n)
  {
    var y := Last(ys1);
    hide RouteWork, Flushed, Init, Step, Sane, AdmittedRun, ReadyForTx, Wrap, Enabled, Harmless, SentSince;
    assert !s.syn;
    hide AcksAll;
    MayArrive(cfg, limit, Last(ys), y, n, s);
    AckArrives(cfg, opts, limit, evs1, ys1, n, s, o);
    var evs2, ys2 := Extend(cfg, opts, limit, users, evs, ys, evs1, ys1, Event(n, Route(Some(s), 0, 0, true)));
    OpenAtEnd(cfg, opts, limit, evs2, ys2, n);
  }

  lemma AckArrives(cfg: Config, opts: Options, limit: nat, evs: seq<Event>, ys: seq<Sys>, n: RdpSystem.Node,
                   s: Segment, o: nat)
    requires Sane(cfg, opts, limit) && IsRun(cfg, opts, limit, evs, ys) && InUse(Last(ys))
    requires Peer(Last(ys), n).rcv.delivered == At(Last(ys), n).snd.accepted
    requires AcksAll(cfg, At(Last(ys), n), Peer(Last(ys), n), s, o)
    ensures var c := At(Last(ys), n);
            var d := RouteWork(cfg, c, Some(s), 0, 0, true);
            Stays(c, d) && d.snd.una == Wrap(d.snd.iss + |d.snd.accepted| + 1)
  {
    hide RouteWork, Flushed, Init, Step, Sane, Wrap, Sound;
    RunSound(cfg, opts, limit, evs, ys, n);
    AckTaken(cfg, opts.window, At(Last(ys), n), Peer(Last(ys), n), s, o);
  }

  lemma OpenAtEnd(cfg: Config, opts: Options, limit: nat, evs: seq<Event>, ys: seq<Sys>, n: RdpSystem.Node)
    requires Sane(cfg, opts, limit) && IsRun(cfg, opts, limit, evs, ys) && InUse(Last(ys))
    requires At(Last(ys), n).snd.una == Wrap(At(Last(ys), n).snd.iss + |At(Last(ys), n).snd.accepted| + 1)
    ensures ReadyForTx(At(Last(ys), n))
  {
    hide Sane, Init, Step, Sound, Wrap, ReadyForTx;
    RunSound(cfg, opts, limit, evs, ys, n);
    OpensWindow(opts.window, At(Last(ys), n), Peer(Last(ys), n), |Peer(Last(ys), n).rcv.delivered|);
  }

  /** An event that makes its node send a segment. */
  lemma Drawn(cfg: Config, opts: Options, limit: nat, users: bool, evs: seq<Event>, ys: seq<Sys>, evs1: seq<Event>,
              ys1: seq<Sys>, ev: Event, s: Segment)
    returns (evs2: seq<Event>, ys2: seq<Sys>)
    requires Continues(cfg, opts, limit, users, evs, ys, evs1, ys1) && InUse(Last(ys1))
    requires Enabled(cfg, limit, At(Last(ys1), ev.node), Peer(Last(ys1), ev.node), ev.act)
    requires Harmless(Last(ys), Last(ys1), ev)
    requires Draws(At(Last(ys1), ev.node), Do(cfg, opts, At(Last(ys1), ev.node), ev.act), s)
    ensures Continues(cfg, opts, limit, users, evs, ys, evs2, ys2) && InUse(Last(ys2))
    ensures SentSince(Last(ys), Last(ys2), ev.node, s)
    ensures At(Last(ys2), ev.node) == Do(cfg, opts, At(Last(ys1), ev.node), ev.act)
    ensures Peer(Last(ys2), ev.node) == Peer(Last(ys1), ev.node)
  {
    hide Do, Enabled, Harmless, Init, Step, AdmittedRun;
    RunSends(cfg, opts, limit, evs1, ys1, |ys| - 1, |ys1| - 1);
    evs2, ys2 := Extend(cfg, opts, limit, users, evs, ys, evs1, ys1, ev);
    SinceLater(Last(ys), Last(ys1), Last(ys2), ev.node, s);
  }

  /** The peer, which has received everything, sends such an acknowledgement, and it arrives. */
  lemma PeerAcks(cfg: Config, opts: Options, limit: nat, users: bool, evs: seq<Event>, ys: seq<Sys>, evs1: seq<Event>,
                 ys1: seq<Sys>, n: RdpSystem.Node, act: Act, s: Segment, o: nat)
    requires Sane(cfg, opts, limit) && Continues(cfg, opts, limit, users, evs, ys, evs1, ys1) && InUse(Last(ys1))
    requires Peer(Last(ys1), n).rcv.delivered == At(Last(ys1), n).snd.accepted
    requires Enabled(cfg, limit, Peer(Last(ys1), n), At(Last(ys1), n), act)
    requires Harmless(Last(ys), Last(ys1), Event(Other(n), act))
    requires Draws(Peer(Last(ys1), n), Do(cfg, opts, Peer(Last(ys1), n), act), s)
    requires AcksAll(cfg, At(Last(ys1), n), Peer(Last(ys1), n), s, o)
    ensures Reopens(cfg, opts, limit, users, evs, ys, n)
  {
    hide Do, Enabled, Harmless, Flushed, Init, Step, ReadyForTx, Sane, Wrap, AdmittedRun, Reopens;
    var evs2, ys2 := Drawn(cfg, opts, limit, users, evs, ys, evs1, ys1, Event(Other(n), act), s);
    StillFull(cfg, opts, limit, evs2, ys2, n);
    FinalAck(cfg, opts, limit, users, evs, ys, evs2, ys2, n, s, o);
  }

  // ---------------------------------------------------------------- everything delivered first

  /** A continuation that brings everything to the receiver and empties its queue. The sender only makes timer
      passes. */
  lemma DeliverAll(cfg: Config, opts: Options, limit: nat, users: bool, evs: seq<Event>, ys: seq<Sys>,
                   n: RdpSystem.Node)
    returns (evs1: seq<Event>, ys1: seq<Sys>)
    requires Sane(cfg, opts, limit) && IsRun(cfg, opts, limit, evs, ys) && cfg.inboxLen >= 3 && InUse(Last(ys))
    requires forall p <- At(Last(ys), n).snd.accepted :: p != []
    ensures Continues(cfg, opts, limit, users, evs, ys, evs1, ys1) && InUse(Last(ys1)) && OnlyPasses(n, evs1[|evs|..])
    ensures At(Last(ys1), n).snd.accepted == At(Last(ys), n).snd.accepted
    ensures Peer(Last(ys1), n).rcv.delivered == At(Last(ys1), n).snd.accepted
    ensures Peer(Last(ys1), n).rcv.inbox == []
  {
    hide Init, Step, Do, Enabled, Harmless;
    var m := Other(n);
    var more1, zs1 := AllCanBeDelivered(cfg, opts, limit, evs, ys, n);
    RunCtl(cfg, opts, limit, evs + more1, ys + zs1, |evs + more1|);
    var more2, zs2 := Drains(cfg, opts, limit, evs + more1, ys + zs1, m);
    ReadsHarmless(Last(ys + zs1), more2, zs2);
    Joined(cfg, opts, limit, evs, ys, more1, zs1, more2, zs2);
    HarmlessIsAdmitted(users, Last(ys), more1 + more2, zs1 + zs2);
    evs1, ys1 := evs + more1 + more2, ys + zs1 + zs2;
    assert evs1[|evs|..] == more1 + more2 && ys1[|ys|..] == zs1 + zs2;
  }

  lemma ReadsHarmless(y: Sys, more: seq<Event>, zs: seq<Sys>)
    requires |more| == |zs| && forall e <- more :: e.act.Read?
    ensures HarmlessRun(y, more, zs)
  {
  }

  // ---------------------------------------------------------------- delayed acknowledgements

  /** With delayed acknowledgements a timer pass acknowledges in time, once there is room for two windows. */
  lemma PassAcks(cfg: Config, c: Conn) returns (now: u32)
    requires c.open && c.state == Open && !c.pending && c.opt.delayedAcks != 0 && c.rcv.inbox == []
    requires cfg.inboxLen > 2 * c.opt.window && c.opt.window < 0x8000_0000
    ensures Draws(c, RouteWork(cfg, c, None, now, 0, true), Ack(c))
  {
    RxFlushSynced(cfg, c.rcv, |c.rcv.rxq|);
    now := Wrap32(c.ackTimestamp + c.opt.ackTimeout + 1);
    hide RxFlush, PassFilter, PassSends;
    assert ShouldAck(c, now);
    var c1 := c.(snd := Retransmit(c.snd, c.rcv.cur, now, c.opt.packetTimeout));
    assert CheckAck(cfg, c1, now) == SendCmp(cfg, c1, Ack(c), now);
    var sent := PassSends(c.snd.txq, c.snd.una, c.rcv.cur, now, c.opt.packetTimeout);
    NewlySent(c.snd.out, sent + [Ack(c)], c.snd.out + sent + [Ack(c)], Ack(c));
  }

  /** The window reopens, with delayed acknowledgements: after any run with both ends open and held and no empty payload
      accepted, even if everything sent so far is lost, reads, timer passes and segments sent again are enough for the
      sender to be allowed to send. */
  lemma ReopensDelayed(cfg: Config, opts: Options, limit: nat, users: bool, evs: seq<Event>, ys: seq<Sys>,
                       n: RdpSystem.Node)
    requires Sane(cfg, opts, limit) && IsRun(cfg, opts, limit, evs, ys) && InUse(Last(ys))
    requires opts.delayedAcks != 0 && cfg.inboxLen >= 3 && cfg.inboxLen > 2 * opts.window
    requires forall p <- At(Last(ys), n).snd.accepted :: p != []
    ensures Reopens(cfg, opts, limit, users, evs, ys, n)
  {
    hide RouteWork, Flushed, Init, Step, ReadyForTx, AdmittedRun, Wrap, Reopens;
    var evs1, ys1 := DeliverAll(cfg, opts, limit, users, evs, ys, n);
    OptionsAgree(cfg, opts, limit, evs1, ys1, |evs1|);
    RunSound(cfg, opts, limit, evs1, ys1, Other(n));
    RunSound(cfg, opts, limit, evs1, ys1, n);
    var c, r := At(Last(ys1), n), Peer(Last(ys1), n);
    var now := PassAcks(cfg, r);
    FlushedBound(cfg, opts.window, c, r, |r.rcv.delivered|);
    PeerAcks(cfg, opts, limit, users, evs, ys, evs1, ys1, n, Route(None, now, 0, true), Ack(r), |r.snd.accepted| + 1);
  }

  /** What is delivered is never more than what was accepted. */
  lemma StillFull(cfg: Config, opts: Options, limit: nat, evs: seq<Event>, ys: seq<Sys>, n: RdpSystem.Node)
    requires Sane(cfg, opts, limit) && IsRun(cfg, opts, limit, evs, ys)
    requires |Peer(Last(ys), n).rcv.delivered| >= |At(Last(ys), n).snd.accepted|
    ensures Peer(Last(ys), n).rcv.delivered == At(Last(ys), n).snd.accepted
  {
    hide Init, Step;
    OrderedDelivery(cfg, opts, limit, evs, ys, |evs|, Other(n));
  }

  lemma FlushedBound(cfg: Config, w: nat, c: Conn, p: Conn, d: nat)
    requires Sound(w, c, p, d)
    ensures |c.rcv.delivered| <= Flushed(cfg, c) <= |p.snd.accepted|
  {
    RxFlushOk(cfg, c.rcv, p.snd.iss, p.snd.accepted, |c.rcv.rxq|);
    RxFlushSynced(cfg, c.rcv, |c.rcv.rxq|);
  }

  lemma SinceLater(y: Sys, y1: Sys, z: Sys, n: RdpSystem.Node, s: Segment)
    requires Extends(At(y, n), At(y1, n)) && SentSince(y1, z, n, s)
    ensures SentSince(y, z, n, s)
  {
    var p, q, out := At(y, n).snd.out, At(y1, n).snd.out, At(z, n).snd.out;
    var i :| 0 <= i < |out[|q|..]| && out[|q|..][i] == s;
    assert out[|p|..][|q| - |p| + i] == s;
  }
}
