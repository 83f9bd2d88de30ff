/** Getting through: while both users hold their handles, whatever the network has lost, everything the sender has
    accepted can still be delivered. */
module RdpProgress {
  import opened Base
  import opened SeqNum
  import opened RdpModel
  import opened RdpSystem
  import opened RdpClose
  import opened RdpOrder
  import opened RdpAcks
  import opened RdpEffect
  import opened RdpRecover
  import opened RdpWindow
  import opened RdpTrace

  function Other(n: RdpSystem.Node): RdpSystem.Node { if n.A? then B else A }

  // ---------------------------------------------------------------- longer runs

  function Last(ys: seq<Sys>): Sys
    requires ys != []
  {
    ys[|ys| - 1]
  }

  /** A run goes on with any enabled event. */
  lemma GoesOn(cfg: Config, opts: Options, limit: nat, evs: seq<Event>, ys: seq<Sys>, ev: Event)
    requires IsRun(cfg, opts, limit, evs, ys)
    requires Enabled(cfg, limit, At(Last(ys), ev.node), Peer(Last(ys), ev.node), ev.act)
    ensures var z := Put(Last(ys), ev.node, Do(cfg, opts, At(Last(ys), ev.node), ev.act));
            IsRun(cfg, opts, limit, evs + [ev], ys + [z])
  {
    hide Init, Enabled, Do;
    var z := Put(Last(ys), ev.node, Do(cfg, opts, At(Last(ys), ev.node), ev.act));
    var evs1, ys1 := evs + [ev], ys + [z];
    forall i | 0 <= i < |evs1| ensures Step(cfg, opts, limit, ys1[i], evs1[i], ys1[i + 1]) {
      if i < |evs| {
        assert Step(cfg, opts, limit, ys[i], evs[i], ys[i + 1]);
      }
    }
  }

  // ---------------------------------------------------------------- the receiver reads

  /** The receiver as before, but for what was read and acknowledged. */
  predicate OnlyRead(c: Conn, d: Conn) {
    && Quiet(c, d) && d.open == c.open && d.handle == c.handle && d.pending == c.pending
    && d.rcv == c.rcv.(inbox := d.rcv.inbox, readLog := d.rcv.readLog)
  }

  lemma ReadOne(cfg: Config, c: Conn, now: u32)
    requires c.open && c.rcv.inbox != []
    ensures OnlyRead(c, UserRead(cfg, c, now)) && |UserRead(cfg, c, now).rcv.inbox| == |c.rcv.inbox| - 1
  {
    CheckAckQuiet(cfg, c.(rcv := RcvPop(c.rcv)), now);
  }

  /** Reading until the queue is empty. */
  lemma {:induction false} Drains(cfg: Config, opts: Options, limit: nat, evs: seq<Event>, ys: seq<Sys>,
                                  n: RdpSystem.Node)
    returns (more: seq<Event>, zs: seq<Sys>)
    requires IsRun(cfg, opts, limit, evs, ys) && At(Last(ys), n).open && At(Last(ys), n).handle
    ensures IsRun(cfg, opts, limit, evs + more, ys + zs)
    ensures |more| == |zs| == |At(Last(ys), n).rcv.inbox| && forall e <- more :: e.node == n && e.act.Read?
    ensures Peer(Last(ys + zs), n) == Peer(Last(ys), n)
    ensures OnlyRead(At(Last(ys), n), At(Last(ys + zs), n)) && At(Last(ys + zs), n).rcv.inbox == []
    decreases |At(Last(ys), n).rcv.inbox|
  {
    if At(Last(ys), n).rcv.inbox == [] {
      more, zs := [], [];
      assert evs + [] == evs && ys + [] == ys;
    } else {
      var ev := Event(n, Read(0));
      var z := Put(Last(ys), n, Do(cfg, opts, At(Last(ys), n), ev.act));
      ReadOne(cfg, At(Last(ys), n), 0);
      GoesOn(cfg, opts, limit, evs, ys, ev);
      var more1, zs1 := Drains(cfg, opts, limit, evs + [ev], ys + [z], n);
      more, zs := [ev] + more1, [z] + zs1;
      assert evs + more == evs + [ev] + more1 && ys + zs == ys + [z] + zs1;
    }
  }

  // ---------------------------------------------------------------- from the reorder queue

  lemma {:induction false} FlushDelivers(cfg: Config, r: Rcv, i: nat, j: nat)
    requires j < i <= |r.rxq| && r.rxq[j].seqNr == Wrap(r.cur + 1) && cfg.inboxLen - |r.inbox| > 2
    ensures |RxFlush(cfg, r, i).delivered| > |r.delivered|
    decreases i
  {
    if r.rxq[0].seqNr == Wrap(r.cur + 1) {
      RxFlushSynced(cfg, Deliver(cfg, r.(rxq := r.rxq[1..]), r.rxq[0].data).(cur := Wrap(r.cur + 1)), |r.rxq| - 1);
    } else {
      FlushDelivers(cfg, r.(rxq := r.rxq[1..] + [r.rxq[0]]), i - 1, j - 1);
    }
  }

  /** A timer pass of an open connection with a user. */
  lemma PassIsTimers(cfg: Config, c: Conn, now: u32)
    requires c.open && c.state == Open && !c.pending
    ensures TimerPass(cfg, c, now) == MessageTimers(cfg, c, now)
    ensures MessageTimers(cfg, c, now).rcv == RxFlush(cfg, c.rcv, |c.rcv.rxq|)
    ensures var d := MessageTimers(cfg, c, now);
            d.state == Open && d.open && !d.pending && d.handle == c.handle && d.opt == c.opt
            && d.snd.una == c.snd.una && d.snd.nxt == c.snd.nxt && d.snd.iss == c.snd.iss
            && d.snd.accepted == c.snd.accepted
    ensures c.snd.out + PassSends(c.snd.txq, c.snd.una, c.rcv.cur, now, c.opt.packetTimeout)
         <= MessageTimers(cfg, c, now).snd.out
  {
    hide RxFlush, PassSends, PassFilter;
  }

  // ---------------------------------------------------------------- from the retransmit queue

  lemma {:induction false} SendsDue(q: seq<TxEntry>, una: u16, ackNr: u16, now: u32, pt: u32, e: TxEntry)
    requires e in q && !SeqBefore(e.seg.seqNr, una) && Due(e, now, pt)
    ensures e.seg.(ackNr := ackNr) in PassSends(q, una, ackNr, now, pt)
    decreases q
  {
    hide SeqBefore, Due;
    if e != q[0] {
      SendsDue(q[1..], una, ackNr, now, pt, e);
    }
  }

  lemma DueInTime(e: TxEntry, pt: u32)
    ensures Due(e, Wrap32(e.sentAt + pt + 1), pt)
  {
  }

  /** The range test looks at numbers modulo 2^16 only. */
  lemma SameBetween(x: int, start: int, end: int, from: int, to: int)
    requires start % M16 == from % M16 && end % M16 == to % M16
    ensures SeqBetween(x, start, end) <==> SeqBetween(x, from, to)
  {
    assert (end - start) % M16 == (to - from) % M16;
    assert (x - start) % M16 == (x - from) % M16;
  }

  /** An honest cumulative acknowledgement is acceptable, however far the oldest unacknowledged number went. */
  lemma AckIsAcceptable(c: Conn, d: nat, w: nat)
    requires c.opt.window == w && c.snd.nxt == Wrap(c.snd.iss + 1 + |c.snd.accepted|)
    requires Una(c) <= d + 1 <= |c.snd.accepted| + 1 && |c.snd.accepted| + 2 * w < 0x8000
    ensures AckAcceptable(c, Wrap(c.snd.iss + d))
  {
    hide SeqBetween, Wrap;
    var u := Una(c);
    WrapOfOffset(c.snd.iss, c.snd.una);
    WrapModulo(c.snd.iss + u, -1 - w * 2);
    WrapModulo(c.snd.iss + 1 + |c.snd.accepted|, -1);
    BetweenIsInRange(c.snd.iss, d, u - 1 - 2 * w, |c.snd.accepted|);
    SameBetween(Wrap(c.snd.iss + d), c.snd.una - 1 - w * 2, c.snd.nxt - 1,
                c.snd.iss + (u - 1 - 2 * w), c.snd.iss + |c.snd.accepted|);
  }

  /** The segment that is next in sequence is delivered. */
  lemma NextDelivered(cfg: Config, c: Conn, s: Segment, now: u32, iss: u16, sockOk: bool)
    requires c.open && c.state == Open && |c.rcv.inbox| < cfg.inboxLen
    requires !s.syn && s.ack && !s.eak && !s.rst && s.data != [] && s.seqNr == Wrap(c.rcv.cur + 1)
    requires SeqAcceptable(c, s.seqNr) && AckAcceptable(c, s.ackNr)
    ensures |RoutePacket(cfg, c, s, now, iss, sockOk).rcv.delivered| > |c.rcv.delivered|
  {
    hide SeqAcceptable, AckAcceptable, CheckAck, RxFlush;
    var c1 := TakeAck(c, s);
    var c2 := c1.(rcv := Deliver(cfg, c1.rcv, s.data).(cur := s.seqNr));
    assert RoutePacket(cfg, c, s, now, iss, sockOk) == RecvInOrder(cfg, c1, s, now);
    AckLeavesReceiver(cfg, c2, now);
    RxFlushSynced(cfg, c2.rcv, |c2.rcv.rxq|);
  }

  lemma AckLeavesReceiver(cfg: Config, c: Conn, now: u32)
    ensures CheckAck(cfg, c, now).rcv == c.rcv
  {
  }

  // ---------------------------------------------------------------- the theorem

  /** Both connections are open in the hands of their users, the receiver's queue is empty, and the sender's next
      payload is not. */
  predicate Waiting(cfg: Config, y: Sys, n: RdpSystem.Node) {
    var s, r := At(y, n), Peer(y, n);
    && cfg.inboxLen >= 3 && s.state == Open && r.state == Open && s.handle && r.handle && r.rcv.inbox == []
    && |r.rcv.delivered| < |s.snd.accepted| && s.snd.accepted[|r.rcv.delivered|] != []
  }

  /** What a run guarantees about the two sides where the sender has a payload waiting: `k` payloads were delivered. */
  predicate Ready(w: nat, s: Conn, r: Conn, k: nat) {
    && s.open && s.state == Open && !s.pending && r.open && r.state == Open && !r.pending && CtlOk(r)
    && TxOk(w, s) && Una(s) <= k + 1 < 0x8000 && |s.snd.accepted| <= k + w
    && r.rcv.cur == Wrap(s.snd.iss + k) && Wrap(r.rcv.cur + 1) == Wrap(s.snd.iss + 1 + k)
    && r.opt.window == w && r.snd.nxt == Wrap(r.snd.iss + 1 + |r.snd.accepted|) && |r.snd.accepted| + 2 * w < 0x8000
    && s.rcv.cur == Wrap(r.snd.iss + |s.rcv.delivered|)
    && Una(r) <= |s.rcv.delivered| + 1 <= |r.snd.accepted| + 1
  }

  lemma ReadyState(cfg: Config, w: nat, limit: nat, y: Sys, n: RdpSystem.Node)
    requires WInv(w, limit, y) && Waiting(cfg, y, n) && limit + 2 * w < 0x8000
    ensures Ready(w, At(y, n), Peer(y, n), |Peer(y, n).rcv.delivered|)
  {
    hide AllHeld, HasMarks, Handshake, OutOk, TxOk, Payloads, CarriesItsPayload, WellSent, WellKept, Wrap;
    WrapStep(At(y, n).snd.iss, |Peer(y, n).rcv.delivered|);
  }

  lemma WaitingIsReady(cfg: Config, opts: Options, limit: nat, evs: seq<Event>, ys: seq<Sys>, n: RdpSystem.Node)
    requires Sane(cfg, opts, limit) && IsRun(cfg, opts, limit, evs, ys) && Waiting(cfg, Last(ys), n)
    ensures Ready(opts.window, At(Last(ys), n), Peer(Last(ys), n), |Peer(Last(ys), n).rcv.delivered|)
  {
    RunW(cfg, opts, limit, evs, ys, |evs|);
    hide WInv, Ready, Waiting;
    ReadyState(cfg, opts.window, limit, Last(ys), n);
  }

  /** Still open, in the user's hands, with the same payloads accepted. */
  predicate Stays(c: Conn, d: Conn) {
    d.state == Open && d.handle == c.handle && d.snd.accepted == c.snd.accepted
  }

  // ---------------------------------------------------------------- the reorder queue

  lemma PassDelivers(cfg: Config, w: nat, s: Conn, r: Conn, k: nat)
    requires Ready(w, s, r, k) && r.rcv.inbox == [] && cfg.inboxLen >= 3 && InReorderQueue(s, r, k)
    ensures |RouteWork(cfg, r, None, 0, 0, true).rcv.delivered| > |r.rcv.delivered|
    ensures Stays(r, RouteWork(cfg, r, None, 0, 0, true))
  {
    hide MessageTimers, RxFlush;
    PassIsTimers(cfg, r, 0);
    var t :| t in r.rcv.rxq && t.seqNr == Wrap(s.snd.iss + 1 + k) && t.data == s.snd.accepted[k];
    var j :| 0 <= j < |r.rcv.rxq| && r.rcv.rxq[j] == t;
    FlushDelivers(cfg, r.rcv, |r.rcv.rxq|, j);
  }

  /** From the reorder queue a timer pass of the receiver delivers it. */
  lemma FromReorderQueue(cfg: Config, opts: Options, limit: nat, evs: seq<Event>, ys: seq<Sys>, n: RdpSystem.Node)
    returns (ev: Event, z: Sys)
    requires Sane(cfg, opts, limit) && IsRun(cfg, opts, limit, evs, ys) && Waiting(cfg, Last(ys), n)
    requires InReorderQueue(At(Last(ys), n), Peer(Last(ys), n), |Peer(Last(ys), n).rcv.delivered|)
    ensures IsRun(cfg, opts, limit, evs + [ev], ys + [z]) && ev == Event(Other(n), Route(None, 0, 0, true))
    ensures |Peer(z, n).rcv.delivered| > |Peer(Last(ys), n).rcv.delivered|
    ensures At(z, n) == At(Last(ys), n) && Stays(Peer(Last(ys), n), Peer(z, n))
    ensures Peer(z, n) == RouteWork(cfg, Peer(Last(ys), n), None, 0, 0, true)
  {
    var y, m := Last(ys), Other(n);
    hide Ready, IsRun, RouteWork, InReorderQueue;
    WaitingIsReady(cfg, opts, limit, evs, ys, n);
    ev := Event(m, Route(None, 0, 0, true));
    z := Put(y, m, Do(cfg, opts, At(y, m), ev.act));
    GoesOn(cfg, opts, limit, evs, ys, ev);
    PassDelivers(cfg, opts.window, At(y, n), Peer(y, n), |Peer(y, n).rcv.delivered|);
  }

  // ---------------------------------------------------------------- the retransmit queue

  lemma EntryIsData(w: nat, c: Conn, e: TxEntry, k: nat)
    requires TxOk(w, c) && e in c.snd.txq && TxOff(c.snd.iss, e) == k + 1
    ensures !e.seg.syn && e.seg.ack && !e.seg.rst && !e.seg.eak
  {
    assert TxSeg(w, c.listening, c.snd.iss, |c.snd.accepted|, c.rcv.synced, e);
  }

  /** A segment that carries payload `k` and what the sender has received. */
  predicate CarriesNext(c: Conn, s: Segment, k: nat) {
    && !s.syn && s.ack && !s.eak && !s.rst && s.ackNr == c.rcv.cur && s.seqNr == Wrap(c.snd.iss + 1 + k)
    && k < |c.snd.accepted| && s.data == c.snd.accepted[k]
  }

  lemma NewlySent(was: seq<Segment>, sent: seq<Segment>, out: seq<Segment>, s: Segment)
    requires was + sent <= out && s in sent
    ensures was <= out && s in out[|was|..]
  {
    var i :| 0 <= i < |sent| && sent[i] == s;
    assert out[|was|..][i] == (was + sent)[|was| + i];
  }

  /** The entry of payload `k` is not counted as acknowledged, and comes due. */
  lemma EntryIsSent(w: nat, c: Conn, r: Conn, k: nat) returns (now: u32, s: Segment)
    requires Ready(w, c, r, k) && InTxQueue(c, k)
    ensures CarriesNext(c, s, k)
    ensures s in PassSends(c.snd.txq, c.snd.una, c.rcv.cur, now, c.opt.packetTimeout)
  {
    var pt := c.opt.packetTimeout;
    var e :| e in c.snd.txq && e.seg.seqNr == Wrap(c.snd.iss + 1 + k) && e.seg.data == c.snd.accepted[k];
    OffsetOfWrap(c.snd.iss, k + 1);
    EntryIsData(w, c, e, k);
    AckedMeans(c, e);
    DueInTime(e, pt);
    now, s := Wrap32(e.sentAt + pt + 1), e.seg.(ackNr := c.rcv.cur);
    hide Wrap32, SeqBefore, Due, PassSends, TxOk, CtlOk;
    SendsDue(c.snd.txq, c.snd.una, c.rcv.cur, now, pt, e);
  }

  /** A timer pass in time sends it again. */
  lemma PassResends(cfg: Config, w: nat, c: Conn, r: Conn, k: nat) returns (now: u32, s: Segment)
    requires Ready(w, c, r, k) && InTxQueue(c, k)
    ensures var d := RouteWork(cfg, c, None, now, 0, true);
            && Stays(c, d) && c.snd.out <= d.snd.out && s in d.snd.out[|c.snd.out|..]
    ensures CarriesNext(c, s, k)
  {
    hide MessageTimers, RxFlush, PassSends, TxOk, CtlOk, InTxQueue, CarriesNext;
    now, s := EntryIsSent(w, c, r, k);
    PassIsTimers(cfg, c, now);
    NewlySent(c.snd.out, PassSends(c.snd.txq, c.snd.una, c.rcv.cur, now, c.opt.packetTimeout),
              MessageTimers(cfg, c, now).snd.out, s);
  }

  lemma {:induction false} FlushNothing(cfg: Config, r: Rcv, i: nat)
    requires i <= |r.rxq| && |RxFlush(cfg, r, i).delivered| == |r.delivered|
    ensures RxFlush(cfg, r, i).cur == r.cur && RxFlush(cfg, r, i).inbox == r.inbox
    decreases |r.rxq|, i
  {
    if i == 0 || cfg.inboxLen - |r.inbox| <= 2 {
    } else if r.rxq[0].seqNr == Wrap(r.cur + 1) {
      RxFlushSynced(cfg, Deliver(cfg, r.(rxq := r.rxq[1..]), r.rxq[0].data).(cur := Wrap(r.cur + 1)), |r.rxq| - 1);
    } else {
      FlushNothing(cfg, r.(rxq := r.rxq[1..] + [r.rxq[0]]), i - 1);
    }
  }

  /** Both numbers of the segment are acceptable. */
  lemma NumbersAcceptable(w: nat, c: Conn, r: Conn, k: nat, s: Segment)
    requires Ready(w, c, r, k) && 1 <= w < 0x4000 && CarriesNext(c, s, k)
    ensures SeqAcceptable(r, s.seqNr) && AckAcceptable(r, s.ackNr) && s.seqNr == Wrap(r.rcv.cur + 1)
  {
    hide SeqAcceptable, AckAcceptable, TxOk, CtlOk;
    LackingIsAcceptable(r, c.snd.iss, k, k, w);
    AckIsAcceptable(r, |c.rcv.delivered|, w);
  }

  /** Acceptability depends on fields a timer pass leaves alone. */
  lemma SameAcceptable(c: Conn, d: Conn, s: Segment)
    requires d.opt == c.opt && d.rcv.cur == c.rcv.cur && d.snd.una == c.snd.una && d.snd.nxt == c.snd.nxt
    ensures SeqAcceptable(c, s.seqNr) == SeqAcceptable(d, s.seqNr)
    ensures AckAcceptable(c, s.ackNr) == AckAcceptable(d, s.ackNr)
  {
    hide SeqBetween;
  }

  /** An ordinary segment takes nothing away from an open connection. */
  lemma OrdinarySegment(cfg: Config, c: Conn, s: Segment)
    requires CtlOk(c) && c.open && c.state == Open && c.handle && !s.rst && !s.syn && s.ack
    ensures |c.rcv.delivered| <= |RoutePacket(cfg, c, s, 0, 0, true).rcv.delivered|
    ensures Stays(c, RoutePacket(cfg, c, s, 0, 0, true))
  {
    hide RecvAccepted, SeqAcceptable, AckAcceptable, SendCmp, Eack;
    NewPacketCtl(cfg, c, s, 0, 0, true);
    RecvAcceptedEffect(cfg, c, s, 0);
    EackQuiet(cfg, c);
  }

  lemma EackQuiet(cfg: Config, c: Conn)
    ensures Quiet(c, SendCmp(cfg, c, Eack(c), 0))
  {
    SendCmpQuiet(cfg, c, Eack(c), 0);
  }

  /** The segment arrives and is delivered, unless the timer pass before it delivered something already. */
  lemma ArrivalDelivers(cfg: Config, w: nat, c: Conn, r: Conn, k: nat, s: Segment)
    requires Ready(w, c, r, k) && 1 <= w < 0x4000 && r.rcv.inbox == [] && cfg.inboxLen >= 3 && r.handle
    requires CarriesNext(c, s, k) && s.data != []
    ensures |RouteWork(cfg, r, Some(s), 0, 0, true).rcv.delivered| > |r.rcv.delivered|
    ensures Stays(r, RouteWork(cfg, r, Some(s), 0, 0, true))
  {
    hide CheckTimeouts, MessageTimers, RxFlush, Wrap, TxOk, CtlOk, RoutePacket, SeqAcceptable, AckAcceptable;
    NumbersAcceptable(w, c, r, k, s);
    PassIsTimers(cfg, r, 0);
    RxFlushSynced(cfg, r.rcv, |r.rcv.rxq|);
    CheckTimeoutsCtl(cfg, r, 0);
    var d := TimerPass(cfg, r, 0);
    OrdinarySegment(cfg, d, s);
    if |d.rcv.delivered| == |r.rcv.delivered| {
      FlushNothing(cfg, r.rcv, |r.rcv.rxq|);
      SameAcceptable(r, d, s);
      NextDelivered(cfg, d, s, 0, 0, true);
    }
  }

  /** From the retransmit queue a timer pass of the sender sends it again, and the receiver takes that segment. */
  lemma FromRetransmitQueue(cfg: Config, opts: Options, limit: nat, evs: seq<Event>, ys: seq<Sys>, n: RdpSystem.Node)
    returns (ev1: Event, z1: Sys, ev2: Event, z2: Sys)
    requires Sane(cfg, opts, limit) && IsRun(cfg, opts, limit, evs, ys) && Waiting(cfg, Last(ys), n)
    requires InTxQueue(At(Last(ys), n), |Peer(Last(ys), n).rcv.delivered|)
    ensures IsRun(cfg, opts, limit, evs + [ev1] + [ev2], ys + [z1] + [z2])
    ensures ev1.node == n && ev1.act.Route? && ev1.act.s.None?
    ensures ev2.node == Other(n) && ev2.act.Route? && ev2.act.s.Some?
    ensures At(Last(ys), n).snd.out <= At(z1, n).snd.out
    ensures ev2.act.s.value in At(z1, n).snd.out[|At(Last(ys), n).snd.out|..]
    ensures |Peer(z2, n).rcv.delivered| > |Peer(Last(ys), n).rcv.delivered|
    ensures Stays(At(Last(ys), n), At(z2, n)) && Stays(Peer(Last(ys), n), Peer(z2, n))
  {
    var y, m, k := Last(ys), Other(n), |Peer(Last(ys), n).rcv.delivered|;
    hide Ready, IsRun, RouteWork, InTxQueue;
    WaitingIsReady(cfg, opts, limit, evs, ys, n);
    var now, s := PassResends(cfg, opts.window, At(y, n), Peer(y, n), k);
    ev1 := Event(n, Route(None, now, 0, true));
    z1 := Put(y, n, Do(cfg, opts, At(y, n), ev1.act));
    GoesOn(cfg, opts, limit, evs, ys, ev1);
    ev2 := Event(m, Route(Some(s), 0, 0, true));
    z2 := Put(z1, m, Do(cfg, opts, At(z1, m), ev2.act));
    assert Last(ys + [z1]) == z1;
    GoesOn(cfg, opts, limit, evs + [ev1], ys + [z1], ev2);
    ArrivalDelivers(cfg, opts.window, At(y, n), Peer(y, n), k, s);
  }

  /** Reads, timer passes, and the delivery of a segment that its sender sent since the state `y`; `z` is the state
      the event happens in. */
  predicate Harmless(y: Sys, z: Sys, e: Event) {
    e.act.Read?
    || (e.act.Route? && (e.act.s.None?
                         || (Peer(y, e.node).snd.out <= Peer(z, e.node).snd.out
                             && e.act.s.value in Peer(z, e.node).snd.out[|Peer(y, e.node).snd.out|..])))
  }

  /** A continuation of such events from the state `y`, through the states `zs`. */
  predicate HarmlessRun(y: Sys, more: seq<Event>, zs: seq<Sys>) {
    |more| == |zs| && forall i :: 0 <= i < |more| ==> Harmless(y, if i == 0 then y else zs[i - 1], more[i])
  }

  /** The state a continuation leads to. */
  function Reached(y: Sys, zs: seq<Sys>): Sys { if zs == [] then y else zs[|zs| - 1] }

  lemma HarmlessSince(y: Sys, y1: Sys, z: Sys, e: Event)
    requires Harmless(y1, z, e) && Extends(y.a, y1.a) && Extends(y.b, y1.b)
    ensures Harmless(y, z, e)
  {
    if e.act.Route? && e.act.s.Some? {
      var p, q, out := Peer(y, e.node).snd.out, Peer(y1, e.node).snd.out, Peer(z, e.node).snd.out;
      assert p <= q <= out;
      var i :| 0 <= i < |out[|q|..]| && out[|q|..][i] == e.act.s.value;
      assert out[|p|..][|q| - |p| + i] == e.act.s.value;
    }
  }

  /** One continuation after another. */
  lemma HarmlessAppend(y: Sys, more1: seq<Event>, zs1: seq<Sys>, more2: seq<Event>, zs2: seq<Sys>)
    requires HarmlessRun(y, more1, zs1) && HarmlessRun(Reached(y, zs1), more2, zs2)
    requires Extends(y.a, Reached(y, zs1).a) && Extends(y.b, Reached(y, zs1).b)
    ensures HarmlessRun(y, more1 + more2, zs1 + zs2)
  {
    hide Harmless, Sends;
    var more, zs := more1 + more2, zs1 + zs2;
    forall i | 0 <= i < |more| ensures Harmless(y, if i == 0 then y else zs[i - 1], more[i]) {
      if i >= |more1| {
        var j := i - |more1|;
        assert Harmless(Reached(y, zs1), if j == 0 then Reached(y, zs1) else zs2[j - 1], more2[j]);
        HarmlessSince(y, Reached(y, zs1), if j == 0 then Reached(y, zs1) else zs2[j - 1], more2[j]);
      }
    }
  }

  /** Every event of the node is a timer pass. */
  predicate OnlyPasses(n: RdpSystem.Node, more: seq<Event>) {
    forall e <- more :: e.node == n ==> e.act.Route? && e.act.s.None?
  }

  /** The next payload gets through: after any run, with both connections open in the hands of their users and a payload
      that is not empty next in turn, the run can go on so that it is delivered, even if everything sent so far is lost:
      by no more than the receiver's reads, a timer pass and one segment sent again. */
  lemma NextGetsThrough(cfg: Config, opts: Options, limit: nat, evs: seq<Event>, ys: seq<Sys>, n: RdpSystem.Node)
    returns (more: seq<Event>, zs: seq<Sys>)
    requires Sane(cfg, opts, limit) && IsRun(cfg, opts, limit, evs, ys) && cfg.inboxLen >= 3
    requires At(Last(ys), n).state == Open && At(Last(ys), n).handle
    requires Peer(Last(ys), n).state == Open && Peer(Last(ys), n).handle
    requires |Peer(Last(ys), n).rcv.delivered| < |At(Last(ys), n).snd.accepted|
    requires At(Last(ys), n).snd.accepted[|Peer(Last(ys), n).rcv.delivered|] != []
    ensures IsRun(cfg, opts, limit, evs + more, ys + zs)
    ensures |Peer(Last(ys + zs), n).rcv.delivered| > |Peer(Last(ys), n).rcv.delivered|
    ensures Stays(At(Last(ys), n), At(Last(ys + zs), n)) && Stays(Peer(Last(ys), n), Peer(Last(ys + zs), n))
    ensures |more| == |zs| <= |Peer(Last(ys), n).rcv.inbox| + 2
    ensures HarmlessRun(Last(ys), more, zs) && OnlyPasses(n, more)
  {
    hide Init, Step, InReorderQueue, InTxQueue, Sane;
    var m, k := Other(n), |Peer(Last(ys), n).rcv.delivered|;
    RunCtl(cfg, opts, limit, evs, ys, |evs|);
    var more1, zs1 := Drains(cfg, opts, limit, evs, ys, m);
    var evs1, ys1 := evs + more1, ys + zs1;
    assert Waiting(cfg, Last(ys1), n);
    Recoverability(cfg, opts, limit, evs1, ys1, |evs1|, n, k);
    if InReorderQueue(At(Last(ys1), n), Peer(Last(ys1), n), k) {
      var ev, z := FromReorderQueue(cfg, opts, limit, evs1, ys1, n);
      more, zs := more1 + [ev], zs1 + [z];
      assert evs + more == evs1 + [ev] && ys + zs == ys1 + [z];
    } else {
      var ev1, z1, ev2, z2 := FromRetransmitQueue(cfg, opts, limit, evs1, ys1, n);
      more, zs := more1 + [ev1] + [ev2], zs1 + [z1] + [z2];
      assert evs + more == evs1 + [ev1] + [ev2] && ys + zs == ys1 + [z1] + [z2];
    }
  }

  /** Whatever was accepted can be delivered: after any run with both connections open in the hands of their users, if
      no accepted payload is empty, then even if everything sent so far is lost, reads, timer passes and segments sent
      again can bring the receiver everything the sender accepted. */
  lemma {:induction false} AllCanBeDelivered(cfg: Config, opts: Options, limit: nat, evs: seq<Event>, ys: seq<Sys>,
                                             n: RdpSystem.Node)
    returns (more: seq<Event>, zs: seq<Sys>)
    requires Sane(cfg, opts, limit) && IsRun(cfg, opts, limit, evs, ys) && cfg.inboxLen >= 3
    requires At(Last(ys), n).state == Open && At(Last(ys), n).handle
    requires Peer(Last(ys), n).state == Open && Peer(Last(ys), n).handle
    requires forall p <- At(Last(ys), n).snd.accepted :: p != []
    ensures IsRun(cfg, opts, limit, evs + more, ys + zs)
    ensures Peer(Last(ys + zs), n).rcv.delivered == At(Last(ys), n).snd.accepted
    ensures Stays(At(Last(ys), n), At(Last(ys + zs), n)) && Stays(Peer(Last(ys), n), Peer(Last(ys + zs), n))
    ensures HarmlessRun(Last(ys), more, zs) && OnlyPasses(n, more)
    decreases |At(Last(ys), n).snd.accepted| - |Peer(Last(ys), n).rcv.delivered|
  {
    hide Init, Step, Do, Enabled, Harmless;
    OrderedDelivery(cfg, opts, limit, evs, ys, |evs|, Other(n));
    if |Peer(Last(ys), n).rcv.delivered| == |At(Last(ys), n).snd.accepted| {
      more, zs := [], [];
      assert evs + [] == evs && ys + [] == ys;
    } else {
      var accepted, k := At(Last(ys), n).snd.accepted, |Peer(Last(ys), n).rcv.delivered|;
      assert accepted[k] in accepted;
      var more1, zs1 := NextGetsThrough(cfg, opts, limit, evs, ys, n);
      OrderedDelivery(cfg, opts, limit, evs + more1, ys + zs1, |evs + more1|, Other(n));
      var more2, zs2 := AllCanBeDelivered(cfg, opts, limit, evs + more1, ys + zs1, n);
      more, zs := more1 + more2, zs1 + zs2;
      assert evs + more == evs + more1 + more2 && ys + zs == ys + zs1 + zs2;
      Joined(cfg, opts, limit, evs, ys, more1, zs1, more2, zs2);
    }
  }

  /** Two continuations of a run, one after the other, are harmless together. */
  lemma Joined(cfg: Config, opts: Options, limit: nat, evs: seq<Event>, ys: seq<Sys>, more1: seq<Event>, zs1: seq<Sys>,
               more2: seq<Event>, zs2: seq<Sys>)
    requires IsRun(cfg, opts, limit, evs, ys) && IsRun(cfg, opts, limit, evs + more1, ys + zs1)
    requires HarmlessRun(Last(ys), more1, zs1) && HarmlessRun(Last(ys + zs1), more2, zs2)
    ensures HarmlessRun(Last(ys), more1 + more2, zs1 + zs2)
  {
    hide Harmless, Sends, Init, Step;
    var all := ys + zs1;
    RunSends(cfg, opts, limit, evs + more1, all, |ys| - 1, |all| - 1);
    assert Last(all) == Reached(Last(ys), zs1);
    HarmlessAppend(Last(ys), more1, zs1, more2, zs2);
  }
}
