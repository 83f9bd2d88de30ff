/** Fair schedules: a round in which the sender's timer pass finds its queue due, the segment it sends again arrives,
    and the receiver makes a pass with room in its queue delivers a payload, whatever else happens meanwhile. */
module RdpFair {
  import opened Base
  import opened SeqNum
  import opened RdpModel
  import opened RdpSystem
  import opened RdpClose
  import opened RdpOrder
  import opened RdpAcks
  import opened RdpEffect
  import opened RdpHonest
  import opened RdpRecover
  import opened RdpWindow
  import opened RdpTrace
  import opened RdpProgress
  import opened RdpReopen

  // ---------------------------------------------------------------- arrival

  /** A packet after the timer pass takes nothing away from what that pass delivered. */
  lemma PassThenPacket(cfg: Config, w: nat, r: Conn, c: Conn, d: nat, s: Option<Segment>, now: u32, iss: u16,
                       sockOk: bool)
    requires Sound(w, r, c, d)
    ensures Flushed(cfg, r) <= |RouteWork(cfg, r, s, now, iss, sockOk).rcv.delivered|
    ensures s.Some? ==>
              var e := TimerPass(cfg, r, now);
              RouteWork(cfg, r, s, now, iss, sockOk) == NewPacket(cfg, e, s.value, now, iss, sockOk)
  {
    hide TimerPass, NewPacket, Flushed, TxOk, CtlOk, ReceiverOk, Coupled;
    Passed(cfg, w, r, c, d, now);
    if s.Some? {
      NewPacketSends(cfg, TimerPass(cfg, r, now), s.value, now, iss, sockOk);
    }
  }

  /** The segment of payload `k`, sent when `d` payloads of the receiver had been delivered. */
  predicate Carries(c: Conn, r: Conn, s: Segment, k: nat, d: nat) {
    && !s.syn && s.ack && !s.eak && !s.rst && s.data != []
    && s.seqNr == Wrap(c.snd.iss + 1 + k) && s.ackNr == Wrap(r.snd.iss + d)
  }

  /** An acknowledgement at most two windows behind what the side has had accepted is acceptable. */
  lemma OldAckAcceptable(c: Conn, d: nat, w: nat)
    requires c.opt.window == w && c.snd.nxt == Wrap(c.snd.iss + 1 + |c.snd.accepted|)
    requires Una(c) <= |c.snd.accepted| + 1 && d <= |c.snd.accepted| <= d + 2 * w && |c.snd.accepted| + 2 * w < 0x8000
    ensures AckAcceptable(c, Wrap(c.snd.iss + d))
  {
    hide SeqBetween, Wrap;
    var u := Una(c);
    WrapOfOffset(c.snd.iss, c.snd.una);
    WrapModulo(c.snd.iss + u, -1 - w * 2);
    WrapModulo(c.snd.iss + 1 + |c.snd.accepted|, -1);
    BetweenIsInRange(c.snd.iss, d, u - 1 - 2 * w, |c.snd.accepted|);
    SameBetween(Wrap(c.snd.iss + d), c.snd.una - 1 - w * 2, c.snd.nxt - 1,
                c.snd.iss + (u - 1 - 2 * w), c.snd.iss + |c.snd.accepted|);
  }

  /** The next segment is delivered whenever it arrives and there is room, even if it was sent some time ago. */
  lemma ArrivesInTime(cfg: Config, w: nat, c: Conn, r: Conn, k: nat, s: Segment, d: nat, now: u32, iss: u16,
                      sockOk: bool)
    requires Sound(w, r, c, |c.rcv.delivered|) && |r.rcv.delivered| == k && |r.rcv.inbox| < cfg.inboxLen
    requires Carries(c, r, s, k, d) && d <= |c.rcv.delivered| && |r.snd.accepted| <= d + 2 * w
    ensures |RouteWork(cfg, r, Some(s), now, iss, sockOk).rcv.delivered| > k
  {
    hide TimerPass, RouteWork, TxOk, CtlOk, ReceiverOk, Coupled, RxFlush, SeqAcceptable, AckAcceptable,
         RoutePacket, Wrap;
    var f, e := Flushed(cfg, r), TimerPass(cfg, r, now);
    Passed(cfg, w, r, c, |c.rcv.delivered|, now);
    PassThenPacket(cfg, w, r, c, |c.rcv.delivered|, Some(s), now, iss, sockOk);
    if f == k {
      SameInbox(cfg, w, r, c, |c.rcv.delivered|, now);
      hide Flushed, NewPacket;
      WrapStep(c.snd.iss, k);
      WithinTwoWindows(e, c.snd.iss, k, k + 1, w);
      OldAckAcceptable(e, d, w);
      NextDelivered(cfg, e, s, now, iss, sockOk);
      assert RouteWork(cfg, r, Some(s), now, iss, sockOk) == RoutePacket(cfg, e, s, now, iss, sockOk) by {
        Routed(cfg, r, s, now, iss, sockOk);
      }
    }
  }

  /** A pass that delivers nothing leaves the queue of the connection as it is. */
  lemma SameInbox(cfg: Config, w: nat, c: Conn, p: Conn, d: nat, now: u32)
    requires Sound(w, c, p, d) && Flushed(cfg, c) == |c.rcv.delivered|
    ensures TimerPass(cfg, c, now).rcv.inbox == c.rcv.inbox
  {
    hide MessageTimers, RxFlush, TxOk, CtlOk, ReceiverOk, Coupled;
    PassIsTimers(cfg, c, now);
    FlushNothing(cfg, c.rcv, |c.rcv.rxq|);
  }

  lemma Routed(cfg: Config, c: Conn, s: Segment, now: u32, iss: u16, sockOk: bool)
    ensures RouteWork(cfg, c, Some(s), now, iss, sockOk)
         == RoutePacket(cfg, TimerPass(cfg, c, now), s, now, iss, sockOk)
  {
  }

  /** What waits in the reorder queue is delivered by any pass with room for three. */
  lemma QueuedInTime(cfg: Config, w: nat, c: Conn, r: Conn, k: nat, s: Option<Segment>, now: u32, iss: u16,
                     sockOk: bool)
    requires Sound(w, r, c, |c.rcv.delivered|) && |r.rcv.delivered| == k && |r.rcv.inbox| + 3 <= cfg.inboxLen
    requires InReorderQueue(c, r, k)
    ensures |RouteWork(cfg, r, s, now, iss, sockOk).rcv.delivered| > k
  {
    hide RouteWork, TimerPass, NewPacket, TxOk, CtlOk, ReceiverOk, Coupled, RxFlush, Wrap;
    PassThenPacket(cfg, w, r, c, |c.rcv.delivered|, s, now, iss, sockOk);
    WrapStep(c.snd.iss, k);
    var t :| t in r.rcv.rxq && t.seqNr == Wrap(c.snd.iss + 1 + k) && t.data == c.snd.accepted[k];
    var j :| 0 <= j < |r.rcv.rxq| && r.rcv.rxq[j] == t;
    FlushDelivers(cfg, r.rcv, |r.rcv.rxq|, j);
  }

  // ---------------------------------------------------------------- sending again

  /** Everything left to send again is due. */
  predicate AllDue(c: Conn, now: u32) { forall e <- c.snd.txq :: Due(e, now, c.opt.packetTimeout) }

  /** A pass at which everything is due sends the next payload, if the sender still has it. */
  lemma SentInTime(cfg: Config, w: nat, c: Conn, r: Conn, k: nat, s: Option<Segment>, now: u32, iss: u16, sockOk: bool)
    returns (t: Segment)
    requires Sound(w, c, r, k) && InTxQueue(c, k) && AllDue(c, now) && c.snd.accepted[k] != []
    ensures Carries(c, r, t, k, |c.rcv.delivered|)
    ensures var b := RouteWork(cfg, c, s, now, iss, sockOk);
            c.snd.out <= b.snd.out && t in b.snd.out[|c.snd.out|..]
  {
    t := DueEntry(w, c, r, k, now);
    hide PassSends, TxOk, CtlOk, ReceiverOk, Coupled, MessageTimers, RouteWork, Wrap, Offset, Carries,
         AllDue, InTxQueue;
    PassIsTimers(cfg, c, now);
    PacketAddsTo(cfg, w, c, r, k, s, now, iss, sockOk);
    NewlySent(c.snd.out, PassSends(c.snd.txq, c.snd.una, c.rcv.cur, now, c.opt.packetTimeout),
              RouteWork(cfg, c, s, now, iss, sockOk).snd.out, t);
  }

  lemma DueEntry(w: nat, c: Conn, r: Conn, k: nat, now: u32) returns (t: Segment)
    requires Sound(w, c, r, k) && InTxQueue(c, k) && AllDue(c, now) && c.snd.accepted[k] != []
    ensures Carries(c, r, t, k, |c.rcv.delivered|)
    ensures t in PassSends(c.snd.txq, c.snd.una, c.rcv.cur, now, c.opt.packetTimeout)
  {
    var e :| e in c.snd.txq && e.seg.seqNr == Wrap(c.snd.iss + 1 + k) && e.seg.data == c.snd.accepted[k];
    OffsetOfWrap(c.snd.iss, k + 1);
    assert TxSeg(w, c.listening, c.snd.iss, |c.snd.accepted|, c.rcv.synced, e);
    AckedMeans(c, e);
    t := e.seg.(ackNr := c.rcv.cur);
    hide SeqBefore, Due, PassSends, TxOk, CtlOk, ReceiverOk, Coupled, Wrap, Offset;
    SendsDue(c.snd.txq, c.snd.una, c.rcv.cur, now, c.opt.packetTimeout, e);
  }

  lemma PacketAddsTo(cfg: Config, w: nat, c: Conn, p: Conn, d: nat, s: Option<Segment>, now: u32, iss: u16,
                     sockOk: bool)
    requires Sound(w, c, p, d)
    ensures TimerPass(cfg, c, now).snd.out <= RouteWork(cfg, c, s, now, iss, sockOk).snd.out
  {
    hide TimerPass, NewPacket, Flushed, TxOk, CtlOk, ReceiverOk, Coupled;
    Passed(cfg, w, c, p, d, now);
    if s.Some? {
      NewPacketSends(cfg, TimerPass(cfg, c, now), s.value, now, iss, sockOk);
    }
  }

  // ---------------------------------------------------------------- what has left the queue does not come back

  /** The retransmit queue has no entry under the number of payload `k`. */
  predicate Gone(c: Conn, k: nat) { forall e <- c.snd.txq :: e.seg.seqNr != Wrap(c.snd.iss + 1 + k) }

  lemma FromGone(c: Conn, d: Conn, k: nat)
    requires Gone(c, k) && From(c.snd.txq, d.snd.txq) && d.snd.iss == c.snd.iss
    ensures Gone(d, k)
  {
    hide Wrap;
    forall e | e in d.snd.txq ensures e.seg.seqNr != Wrap(d.snd.iss + 1 + k) {
      var x :| x in c.snd.txq && SameSeg(x.seg, e.seg);
    }
  }

  lemma PassGone(cfg: Config, w: nat, c: Conn, p: Conn, d: nat, now: u32, k: nat)
    requires Sound(w, c, p, d) && Gone(c, k)
    ensures Gone(TimerPass(cfg, c, now), k) && Sorted(c.snd.iss, TimerPass(cfg, c, now).snd.txq)
  {
    PassFilterThins(c.snd.iss, c.snd.txq, c.snd.una, c.rcv.cur, now, c.opt.packetTimeout);
    CheckTimeoutsEffect(cfg, c, now);
    PassIsTimers(cfg, c, now);
    hide PassFilter, PassSends, MessageTimers, CheckTimeouts, Gone, TxOk, CtlOk, ReceiverOk, Coupled, From, Sorted;
    FromGone(c, TimerPass(cfg, c, now), k);
  }

  lemma PacketGone(cfg: Config, c: Conn, s: Segment, now: u32, iss: u16, sockOk: bool, k: nat)
    requires CtlOk(c) && c.open && c.state == Open && Gone(c, k) && Sorted(c.snd.iss, c.snd.txq)
    requires NewPacket(cfg, c, s, now, iss, sockOk).state == Open
    ensures Gone(NewPacket(cfg, c, s, now, iss, sockOk), k)
  {
    hide NewPacket, CtlOk, EackFilter;
    var d := NewPacket(cfg, c, s, now, iss, sockOk);
    NewPacketEffect(cfg, c, s, now, iss, sockOk);
    if d.snd.txq != c.snd.txq {
      EackFilterThins(c.snd.iss, c.snd.txq, s.eacks, now, c.opt.packetTimeout);
      hide Gone, From, Sorted;
      FromGone(c, d, k);
    }
  }

  lemma SendGone(cfg: Config, w: nat, c: Conn, p: Conn, d: nat, data: Payload, now: u32, k: nat)
    requires Sound(w, c, p, d) && Gone(c, k) && k < |c.snd.accepted|
    ensures Gone(UserSend(cfg, c, data, now), k)
  {
    OffsetOfWrap(c.snd.iss, 1 + k);
    OffsetOfWrap(c.snd.iss, 1 + |c.snd.accepted|);
    hide Wrap, Offset, ReadyForTx, TxOk, CtlOk, ReceiverOk, Coupled;
  }

  lemma RouteGone(cfg: Config, w: nat, c: Conn, p: Conn, d: nat, s: Option<Segment>, now: u32, iss: u16, sockOk: bool,
                  k: nat)
    requires Sound(w, c, p, d) && Gone(c, k) && RouteWork(cfg, c, s, now, iss, sockOk).state == Open
    ensures Gone(RouteWork(cfg, c, s, now, iss, sockOk), k)
  {
    hide TimerPass, NewPacket, Gone, Sorted, TxOk, CtlOk, ReceiverOk, Coupled, Flushed;
    Passed(cfg, w, c, p, d, now);
    PassGone(cfg, w, c, p, d, now, k);
    PassThenPacket(cfg, w, c, p, d, s, now, iss, sockOk);
    if s.Some? {
      PacketGone(cfg, TimerPass(cfg, c, now), s.value, now, iss, sockOk, k);
    }
  }

  lemma DoGone(cfg: Config, opts: Options, limit: nat, w: nat, c: Conn, p: Conn, d: nat, act: Act, k: nat)
    requires Sound(w, c, p, d) && Gone(c, k) && k < |c.snd.accepted| && Enabled(cfg, limit, c, p, act)
    requires Do(cfg, opts, c, act).state == Open && Do(cfg, opts, c, act).handle
    ensures Gone(Do(cfg, opts, c, act), k)
  {
    hide RouteWork, UserSend, UserRead, ConnClose, Gone, TimerPass;
    match act
    case Connect(now, iss) =>
    case ConnectDone(now, woken) =>
    case Route(s, now, iss, sockOk) => RouteGone(cfg, w, c, p, d, s, now, iss, sockOk, k);
    case Send(data, now) => SendGone(cfg, w, c, p, d, data, now, k);
    case Read(now) => ReadGone(cfg, c, now, k);
    case Close(now) =>
  }

  lemma ReadGone(cfg: Config, c: Conn, now: u32, k: nat)
    requires Gone(c, k)
    ensures Gone(UserRead(cfg, c, now), k)
  {
    hide CheckAck;
    if c.open && c.rcv.inbox != [] {
      CheckAckQuiet(cfg, c.(rcv := RcvPop(c.rcv)), now);
    }
  }

  /** While the connection is open and held, a number that has left the retransmit queue does not come back. */
  lemma {:induction false} RunGone(cfg: Config, opts: Options, limit: nat, evs: seq<Event>, ys: seq<Sys>, i: nat,
                                   j: nat, n: RdpSystem.Node, k: nat)
    requires Sane(cfg, opts, limit) && IsRun(cfg, opts, limit, evs, ys) && i <= j < |ys|
    requires Held(ys, i, j) && Gone(At(ys[i], n), k) && k < |At(ys[i], n).snd.accepted|
    ensures Gone(At(ys[j], n), k)
    decreases j
  {
    hide Init, Gone, Sane, Do, Enabled;
    if i < j {
      assert InUse(ys[j - 1]) && InUse(ys[j]);
      RunGone(cfg, opts, limit, evs, ys, i, j - 1, n, k);
      RunSends(cfg, opts, limit, evs, ys, i, j - 1);
      assert Step(cfg, opts, limit, ys[j - 1], evs[j - 1], ys[j - 1 + 1]);
      if evs[j - 1].node == n {
        GoneOnce(cfg, opts, limit, evs, ys, j - 1, n, k);
      }
    }
  }

  lemma GoneOnce(cfg: Config, opts: Options, limit: nat, evs: seq<Event>, ys: seq<Sys>, i: nat, n: RdpSystem.Node,
                 k: nat)
    requires Sane(cfg, opts, limit) && IsRun(cfg, opts, limit, evs, ys) && i < |evs| && evs[i].node == n
    requires InUse(ys[i]) && InUse(ys[i + 1]) && Gone(At(ys[i], n), k) && k < |At(ys[i], n).snd.accepted|
    ensures Gone(At(ys[i + 1], n), k)
  {
    assert Step(cfg, opts, limit, ys[i], evs[i], ys[i + 1]);
    RunW(cfg, opts, limit, evs, ys, i);
    hide WInv, Init, Gone, Do, Enabled, Sound;
    var c, p := At(ys[i], n), Peer(ys[i], n);
    SoundState(opts.window, limit, ys[i], n);
    DoGone(cfg, opts, limit, opts.window, c, p, |p.rcv.delivered|, evs[i].act, k);
  }

  // ---------------------------------------------------------------- rounds

  /** Both ends are open and held from one state to another. */
  predicate Held(ys: seq<Sys>, i: nat, j: nat)
    requires j < |ys|
  {
    forall x :: i <= x <= j ==> InUse(ys[x])
  }

  predicate IsRoute(e: Event, n: RdpSystem.Node) { e.node == n && e.act.Route? }

  /** When the sender makes its timer pass, when what it sent arrives, when the receiver makes a pass with room, and a
      state after all of them. */
  datatype Round = Round(pass: nat, arrival: nat, drain: nat, end: nat)

  /** If the sender sent the next payload in that pass, the segment arrives. */
  predicate Brings(y: Sys, z: Sys, n: RdpSystem.Node, e: Event) {
    && At(y, n).snd.out <= At(z, n).snd.out && IsRoute(e, Other(n))
    && forall t <- At(z, n).snd.out[|At(y, n).snd.out|..] ::
         t.data != [] && t.seqNr == Wrap(At(y, n).snd.iss + 1 + |Peer(y, n).rcv.delivered|) ==> e.act.s == Some(t)
  }

  /** A fair round of the payloads of `n`: its pass finds everything due; what it sends next arrives where there is
      room, before the peer has had more than a window accepted; and the peer makes a pass with room for three.
      Anything else may happen in between. */
  predicate Fair(cfg: Config, opts: Options, evs: seq<Event>, ys: seq<Sys>, n: RdpSystem.Node, from: nat, r: Round)
    requires |ys| == |evs| + 1
  {
    && from <= r.pass < r.arrival < r.end <= |evs| && r.pass <= r.drain < r.end
    && IsRoute(evs[r.pass], n) && AllDue(At(ys[r.pass], n), evs[r.pass].act.now)
    && Brings(ys[r.pass], ys[r.pass + 1], n, evs[r.arrival])
    && |Peer(ys[r.arrival], n).rcv.inbox| < cfg.inboxLen
    && |Peer(ys[r.arrival], n).snd.accepted| <= |Peer(ys[r.pass], n).snd.accepted| + opts.window
    && IsRoute(evs[r.drain], Other(n)) && |Peer(ys[r.drain], n).rcv.inbox| + 3 <= cfg.inboxLen
  }

  /** A side that has chosen its initial number keeps it. */
  predicate Started(y: Sys, z: Sys) {
    && (y.a.snd.started ==> z.a.snd.started && z.a.snd.iss == y.a.snd.iss)
    && (y.b.snd.started ==> z.b.snd.started && z.b.snd.iss == y.b.snd.iss)
  }

  lemma StartedOnce(cfg: Config, opts: Options, limit: nat, y: Sys, ev: Event, z: Sys)
    requires Inv(y) && Step(cfg, opts, limit, y, ev, z) && limit <= ORDER_LIMIT
    ensures Started(y, z)
  {
    hide Do, Enabled, Ok, CtlOk;
    var c, p := At(y, ev.node), Peer(y, ev.node);
    OkMeans(p, c.snd.iss, c.snd.accepted);
    DoOk(cfg, opts, limit, c, p, ev.act);
  }

  lemma {:induction false} SameStart(cfg: Config, opts: Options, limit: nat, evs: seq<Event>, ys: seq<Sys>, i: nat,
                                     j: nat)
    requires IsRun(cfg, opts, limit, evs, ys) && i <= j < |ys| && limit <= ORDER_LIMIT
    ensures Started(ys[i], ys[j])
    decreases j
  {
    hide Init, Inv;
    if i < j {
      SameStart(cfg, opts, limit, evs, ys, i, j - 1);
      RunInv(cfg, opts, limit, evs, ys, j - 1);
      assert Step(cfg, opts, limit, ys[j - 1], evs[j - 1], ys[j - 1 + 1]);
      hide Step;
      StartedOnce(cfg, opts, limit, ys[j - 1], evs[j - 1], ys[j]);
    }
  }

  lemma OkMeans(c: Conn, iss: u16, acc: seq<Payload>)
    requires Ok(c, iss, acc)
    ensures SenderOk(c.snd)
  {
  }

  /** The next payload, still in the retransmit queue, is sent in the pass, and is what arrives. */
  lemma FairSends(cfg: Config, opts: Options, limit: nat, evs: seq<Event>, ys: seq<Sys>, n: RdpSystem.Node, from: nat,
                  r: Round)
    returns (t: Segment)
    requires Sane(cfg, opts, limit) && IsRun(cfg, opts, limit, evs, ys) && Fair(cfg, opts, evs, ys, n, from, r)
    requires InUse(ys[r.pass]) && InTxQueue(At(ys[r.pass], n), |Peer(ys[r.pass], n).rcv.delivered|)
    requires At(ys[r.pass], n).snd.accepted[|Peer(ys[r.pass], n).rcv.delivered|] != []
    ensures var c, p := At(ys[r.pass], n), Peer(ys[r.pass], n);
            Carries(c, p, t, |p.rcv.delivered|, |c.rcv.delivered|)
    ensures evs[r.arrival].act.Route? && evs[r.arrival].act.s == Some(t)
  {
    var c, p, a, k := At(ys[r.pass], n), Peer(ys[r.pass], n), evs[r.pass].act, |Peer(ys[r.pass], n).rcv.delivered|;
    assert Step(cfg, opts, limit, ys[r.pass], evs[r.pass], ys[r.pass + 1]);
    hide Init, Step, Sound, RouteWork, InTxQueue, Enabled, Brings, Carries, AllDue, Sane;
    SoundBoth(cfg, opts, limit, evs, ys, r.pass, n);
    t := SentInTime(cfg, opts.window, c, p, k, a.s, a.now, a.iss, a.sockOk);
    Brought(ys[r.pass], ys[r.pass + 1], n, evs[r.arrival], t);
  }

  lemma Brought(y: Sys, z: Sys, n: RdpSystem.Node, e: Event, t: Segment)
    requires Brings(y, z, n, e)
    requires Carries(At(y, n), Peer(y, n), t, |Peer(y, n).rcv.delivered|, |At(y, n).rcv.delivered|)
    requires At(y, n).snd.out <= At(z, n).snd.out && t in At(z, n).snd.out[|At(y, n).snd.out|..]
    ensures e.act.Route? && e.act.s == Some(t)
  {
    hide Wrap;
  }

  lemma CarriedOn(c: Conn, r: Conn, c1: Conn, r1: Conn, s: Segment, k: nat, d: nat)
    requires Carries(c, r, s, k, d) && c1.snd.iss == c.snd.iss && r1.snd.iss == r.snd.iss
    ensures Carries(c1, r1, s, k, d)
  {
  }

  /** On arrival it is delivered. */
  lemma FairFromTx(cfg: Config, opts: Options, limit: nat, evs: seq<Event>, ys: seq<Sys>, n: RdpSystem.Node, from: nat,
                   r: Round)
    requires Sane(cfg, opts, limit) && IsRun(cfg, opts, limit, evs, ys) && Fair(cfg, opts, evs, ys, n, from, r)
    requires InUse(ys[r.pass]) && InUse(ys[r.arrival])
    requires var k := |Peer(ys[r.pass], n).rcv.delivered|;
             && InTxQueue(At(ys[r.pass], n), k) && At(ys[r.pass], n).snd.accepted[k] != []
             && |Peer(ys[r.arrival], n).rcv.delivered| == k
    ensures |Peer(ys[r.arrival + 1], n).rcv.delivered| > |Peer(ys[r.pass], n).rcv.delivered|
  {
    var j := r.arrival;
    var c, p, c1, p1 := At(ys[r.pass], n), Peer(ys[r.pass], n), At(ys[j], n), Peer(ys[j], n);
    var k, w, d, b := |p.rcv.delivered|, opts.window, |c.rcv.delivered|, evs[j].act;
    assert limit <= ORDER_LIMIT && Step(cfg, opts, limit, ys[j], evs[j], ys[j + 1]);
    hide Init, Step, Sound, RouteWork, InTxQueue, Enabled, Carries, AllDue, Sane;
    var t := FairSends(cfg, opts, limit, evs, ys, n, from, r);
    RunSends(cfg, opts, limit, evs, ys, r.pass, j);
    SameStart(cfg, opts, limit, evs, ys, r.pass, j);
    SoundBoth(cfg, opts, limit, evs, ys, r.pass, n);
    HasStarted(w, c, p, k);
    HasStarted(w, p, c, d);
    SoundBoth(cfg, opts, limit, evs, ys, j, n);
    CarriedOn(c, p, c1, p1, t, k, d);
    WindowOfPeer(w, c, p);
    hide Fair, Extends, Started;
    ArrivesInTime(cfg, w, c1, p1, k, t, d, b.now, b.iss, b.sockOk);
  }

  lemma HasStarted(w: nat, c: Conn, p: Conn, d: nat)
    requires Sound(w, c, p, d)
    ensures c.snd.started
  {
  }

  lemma WindowOfPeer(w: nat, c: Conn, p: Conn)
    requires Sound(w, c, p, |p.rcv.delivered|)
    ensures |p.snd.accepted| <= |c.rcv.delivered| + w
  {
  }

  /** From the reorder queue: delivered by the pass with room. */
  lemma FairFromRx(cfg: Config, opts: Options, limit: nat, evs: seq<Event>, ys: seq<Sys>, n: RdpSystem.Node, i: nat)
    requires Sane(cfg, opts, limit) && IsRun(cfg, opts, limit, evs, ys) && i < |evs| && IsRoute(evs[i], Other(n))
    requires InUse(ys[i]) && |Peer(ys[i], n).rcv.inbox| + 3 <= cfg.inboxLen
    requires InReorderQueue(At(ys[i], n), Peer(ys[i], n), |Peer(ys[i], n).rcv.delivered|)
    ensures |Peer(ys[i + 1], n).rcv.delivered| > |Peer(ys[i], n).rcv.delivered|
  {
    assert Step(cfg, opts, limit, ys[i], evs[i], ys[i + 1]);
    hide Init, Sound, RouteWork, InReorderQueue, Enabled;
    SoundBoth(cfg, opts, limit, evs, ys, i, n);
    var a := evs[i].act;
    QueuedInTime(cfg, opts.window, At(ys[i], n), Peer(ys[i], n), |Peer(ys[i], n).rcv.delivered|, a.s, a.now, a.iss,
                 a.sockOk);
  }

  /** Where the number of the next payload has left the retransmit queue, the payload waits at the receiver. */
  lemma GoneWaits(cfg: Config, opts: Options, limit: nat, evs: seq<Event>, ys: seq<Sys>, i: nat, n: RdpSystem.Node,
                  k: nat)
    requires Sane(cfg, opts, limit) && IsRun(cfg, opts, limit, evs, ys) && i <= |evs| && InUse(ys[i])
    requires |Peer(ys[i], n).rcv.delivered| == k < |At(ys[i], n).snd.accepted| && Gone(At(ys[i], n), k)
    ensures InReorderQueue(At(ys[i], n), Peer(ys[i], n), k)
  {
    hide Init, Step, InReorderQueue, Wrap;
    Recoverability(cfg, opts, limit, evs, ys, i, n, k);
  }

  lemma KeptStill(cfg: Config, opts: Options, limit: nat, evs: seq<Event>, ys: seq<Sys>, i: nat, n: RdpSystem.Node,
                  k: nat)
    requires Sane(cfg, opts, limit) && IsRun(cfg, opts, limit, evs, ys) && i <= |evs| && InUse(ys[i])
    requires k < |At(ys[i], n).snd.accepted| && !Gone(At(ys[i], n), k)
    ensures InTxQueue(At(ys[i], n), k)
  {
    RunW(cfg, opts, limit, evs, ys, i);
    RunInv(cfg, opts, limit, evs, ys, i);
    var c := At(ys[i], n);
    assert Honest(opts.window, c) && SenderOk(c.snd) && |c.snd.accepted| < 0x8000;
    hide WInv, Inv, Init, Step, SenderOk, TxOk, InTxQueue;
    assert InTx(c.snd, k) by { NumberKept(c, k); }
    KeptMeans(opts.window, c, k);
  }

  lemma NumberKept(c: Conn, k: nat)
    requires !Gone(c, k) && k < 0x8000
    ensures InTx(c.snd, k)
  {
    var e :| e in c.snd.txq && e.seg.seqNr == Wrap(c.snd.iss + 1 + k);
    OffsetOfWrap(c.snd.iss, k + 1);
  }

  lemma MoreDelivered(cfg: Config, opts: Options, limit: nat, evs: seq<Event>, ys: seq<Sys>, n: RdpSystem.Node, i: nat,
                      j: nat)
    requires IsRun(cfg, opts, limit, evs, ys) && i <= j < |ys|
    ensures |Peer(ys[i], n).rcv.delivered| <= |Peer(ys[j], n).rcv.delivered|
    ensures |At(ys[i], n).snd.accepted| <= |At(ys[j], n).snd.accepted|
  {
    hide Init, Step;
    RunSends(cfg, opts, limit, evs, ys, i, j);
  }

  /** The next payload, no longer to be sent again, is delivered by the pass with room. */
  lemma FairDrain(cfg: Config, opts: Options, limit: nat, evs: seq<Event>, ys: seq<Sys>, n: RdpSystem.Node, i: nat,
                  d: nat, k: nat)
    requires Sane(cfg, opts, limit) && IsRun(cfg, opts, limit, evs, ys) && i <= d < |evs| && Held(ys, i, d)
    requires IsRoute(evs[d], Other(n)) && |Peer(ys[d], n).rcv.inbox| + 3 <= cfg.inboxLen
    requires |Peer(ys[d], n).rcv.delivered| == k < |At(ys[i], n).snd.accepted| && Gone(At(ys[i], n), k)
    ensures |Peer(ys[d + 1], n).rcv.delivered| > k
  {
    hide Init, Step, Gone, InReorderQueue, Sane;
    MoreDelivered(cfg, opts, limit, evs, ys, n, i, d);
    RunGone(cfg, opts, limit, evs, ys, i, d, n, k);
    GoneWaits(cfg, opts, limit, evs, ys, d, n, k);
    FairFromRx(cfg, opts, limit, evs, ys, n, d);
  }

  /** A fair round delivers the next payload that was accepted, unless it is empty, at any point of any run that keeps
      both ends open and held: whatever else is sent, lost, repeated or read meanwhile, and whatever the clocks say
      besides. */
  lemma FairRoundDelivers(cfg: Config, opts: Options, limit: nat, evs: seq<Event>, ys: seq<Sys>, n: RdpSystem.Node,
                          from: nat, r: Round)
    requires Sane(cfg, opts, limit) && IsRun(cfg, opts, limit, evs, ys) && Fair(cfg, opts, evs, ys, n, from, r)
    requires Held(ys, r.pass, r.end) && |Peer(ys[r.pass], n).rcv.delivered| < |At(ys[r.pass], n).snd.accepted|
    requires At(ys[r.pass], n).snd.accepted[|Peer(ys[r.pass], n).rcv.delivered|] != []
    ensures |Peer(ys[r.end], n).rcv.delivered| > |Peer(ys[r.pass], n).rcv.delivered|
  {
    hide Init, Step, Gone, InTxQueue, Brings, AllDue, Sane;
    var k := |Peer(ys[r.pass], n).rcv.delivered|;
    if Gone(At(ys[r.pass], n), k) {
      MoreDelivered(cfg, opts, limit, evs, ys, n, r.pass, r.drain);
      MoreDelivered(cfg, opts, limit, evs, ys, n, r.drain, r.end);
      MoreDelivered(cfg, opts, limit, evs, ys, n, r.drain + 1, r.end);
      if |Peer(ys[r.drain], n).rcv.delivered| == k {
        FairDrain(cfg, opts, limit, evs, ys, n, r.pass, r.drain, k);
      }
    } else {
      MoreDelivered(cfg, opts, limit, evs, ys, n, r.pass, r.arrival);
      MoreDelivered(cfg, opts, limit, evs, ys, n, r.arrival, r.end);
      MoreDelivered(cfg, opts, limit, evs, ys, n, r.arrival + 1, r.end);
      if |Peer(ys[r.arrival], n).rcv.delivered| == k {
        KeptStill(cfg, opts, limit, evs, ys, r.pass, n, k);
        FairFromTx(cfg, opts, limit, evs, ys, n, from, r);
      }
    }
  }

  // ---------------------------------------------------------------- the theorem

  /** Fair rounds, one after the other, from one state on. */
  predicate FairRounds(cfg: Config, opts: Options, evs: seq<Event>, ys: seq<Sys>, n: RdpSystem.Node, from: nat,
                       rounds: seq<Round>)
    requires |ys| == |evs| + 1
    decreases rounds
  {
    rounds == [] || (Fair(cfg, opts, evs, ys, n, from, rounds[0])
                     && FairRounds(cfg, opts, evs, ys, n, rounds[0].end, rounds[1..]))
  }

  /** Delivery under a fair schedule: as many fair rounds as there are payloads accepted and not delivered deliver all
      of them, in any run that keeps both ends open and held. */
  lemma {:induction false} FairDelivery(cfg: Config, opts: Options, limit: nat, evs: seq<Event>, ys: seq<Sys>,
                                        n: RdpSystem.Node, from: nat, acc: seq<Payload>, rounds: seq<Round>)
    requires Sane(cfg, opts, limit) && IsRun(cfg, opts, limit, evs, ys) && from <= |evs| && Held(ys, from, |evs|)
    requires acc <= At(ys[from], n).snd.accepted && (forall p <- acc :: p != [])
    requires FairRounds(cfg, opts, evs, ys, n, from, rounds)
    requires |acc| <= |Peer(ys[from], n).rcv.delivered| + |rounds|
    ensures acc <= Peer(Last(ys), n).rcv.delivered
    decreases rounds
  {
    hide Init, Step, Sane, Fair;
    if |acc| <= |Peer(ys[from], n).rcv.delivered| {
      AllThere(cfg, opts, limit, evs, ys, n, from, acc);
    } else {
      var r := rounds[0];
      assert from <= r.pass < r.end <= |evs| by { FairBounds(cfg, opts, evs, ys, n, from, r); }
      OneFairRound(cfg, opts, limit, evs, ys, n, from, acc, r);
      FairDelivery(cfg, opts, limit, evs, ys, n, r.end, acc, rounds[1..]);
    }
  }

  lemma FairBounds(cfg: Config, opts: Options, evs: seq<Event>, ys: seq<Sys>, n: RdpSystem.Node, from: nat, r: Round)
    requires |ys| == |evs| + 1 && Fair(cfg, opts, evs, ys, n, from, r)
    ensures from <= r.pass < r.end <= |evs|
  {
  }

  lemma OneFairRound(cfg: Config, opts: Options, limit: nat, evs: seq<Event>, ys: seq<Sys>, n: RdpSystem.Node,
                     from: nat, acc: seq<Payload>, r: Round)
    requires Sane(cfg, opts, limit) && IsRun(cfg, opts, limit, evs, ys) && from <= r.pass < r.end <= |evs|
    requires Held(ys, from, |evs|) && Fair(cfg, opts, evs, ys, n, from, r)
    requires acc <= At(ys[from], n).snd.accepted && (forall p <- acc :: p != [])
    requires |Peer(ys[from], n).rcv.delivered| < |acc|
    ensures acc <= At(ys[r.end], n).snd.accepted
    ensures |Peer(ys[r.end], n).rcv.delivered| > |Peer(ys[from], n).rcv.delivered|
  {
    hide Init, Step, Sane, Fair;
    RunSends(cfg, opts, limit, evs, ys, from, r.pass);
    RunSends(cfg, opts, limit, evs, ys, r.pass, r.end);
    var k := |Peer(ys[r.pass], n).rcv.delivered|;
    if k < |acc| {
      assert At(ys[r.pass], n).snd.accepted[k] == acc[k] && acc[k] in acc;
      FairRoundDelivers(cfg, opts, limit, evs, ys, n, from, r);
    }
  }

  lemma AllThere(cfg: Config, opts: Options, limit: nat, evs: seq<Event>, ys: seq<Sys>, n: RdpSystem.Node, from: nat,
                 acc: seq<Payload>)
    requires Sane(cfg, opts, limit) && IsRun(cfg, opts, limit, evs, ys) && from <= |evs|
    requires acc <= At(ys[from], n).snd.accepted && |acc| <= |Peer(ys[from], n).rcv.delivered|
    ensures acc <= Peer(Last(ys), n).rcv.delivered
  {
    hide Init, Step;
    RunSends(cfg, opts, limit, evs, ys, from, |evs|);
    OrderedDelivery(cfg, opts, limit, evs, ys, |evs|, Other(n));
  }
}
