/** A run that shuts both windows: payloads cross, each side keeps an old acknowledgement of the other back, and both
    arrive when everything has been delivered and freed. */
module RdpCross {
  import opened Base
  import opened SeqNum
  import opened RdpModel
  import opened RdpSystem
  import opened RdpAcks
  import opened RdpRecover
  import opened RdpTrace
  import opened RdpProgress
  import opened RdpConnect
  import opened RdpRounds
  import opened RdpReopen
  import opened RdpShut
  import opened RdpSilence
  import opened RdpDecide

  /** How far a side has come: payloads accepted, of those acknowledged by the last acknowledgement taken, and
      payloads of the peer delivered. */
  datatype Count = Count(sent: nat, acked: nat, got: nat)

  /** Nothing in the queue is due at time zero, and its numbers are those of the side. */
  predicate Kept(q: seq<TxEntry>, own: u16, sent: nat) {
    forall e <- q :: e.sentAt == 0 && Offset(own, e.seg.seqNr) <= sent
  }

  /** An open side that has read all it was given. */
  predicate Side(c: Conn, opts: Options, own: u16, peer: u16, k: Count, p: Payload) {
    && c.open && c.state == Open && !c.pending && c.handle && c.opt == opts
    && c.snd.iss == own && c.snd.nxt == Wrap(own + 1 + k.sent) && c.snd.una == Wrap(own + 1 + k.acked)
    && c.snd.accepted == seq(k.sent, _ => p) && Kept(c.snd.txq, own, k.sent)
    && c.rcv.cur == Wrap(peer + k.got) && c.rcv.delivered == seq(k.got, _ => p) && c.rcv.rxq == [] && c.rcv.inbox == []
  }

  /** Counts within which numbers can be compared. */
  predicate Few(w: nat, k: Count) { k.acked <= k.sent <= w + 1 && k.got <= w + 1 && 1 <= w && 3 * w + 1 < 0x8000 }

  /** Payload number `i` of a side, sent with `got` payloads of the peer delivered. */
  function Data(own: u16, peer: u16, i: nat, got: nat, p: Payload): Segment {
    Segment(false, true, false, false, Wrap(own + i), Wrap(peer + got), p, [], NO_OPTS)
  }

  /** A control message of a side with `sent` payloads accepted that acknowledges `got`. */
  function Ctl(eak: bool, own: u16, peer: u16, sent: nat, got: nat): Segment {
    Segment(false, true, eak, false, Wrap(own + (sent + 1)), Wrap(peer + got), [], [], NO_OPTS)
  }

  // ---------------------------------------------------------------- a timer pass

  lemma NotDueAtZero(e: TxEntry, pt: u32)
    requires e.sentAt == 0 && pt < 0x8000_0000
    ensures !Due(e, 0, pt)
  {
  }

  lemma {:induction false} NoneDue(q: seq<TxEntry>, una: u16, ackNr: u16, pt: u32)
    requires forall e <- q :: e.sentAt == 0
    requires pt < 0x8000_0000
    ensures PassSends(q, una, ackNr, 0, pt) == [] && forall e <- PassFilter(q, una, ackNr, 0, pt) :: e in q
    decreases q
  {
    hide SeqBefore, Due;
    if q != [] {
      NotDueAtZero(q[0], pt);
      NoneDue(q[1..], una, ackNr, pt);
    }
  }

  /** A timer pass frees what is acknowledged and does nothing else. */
  lemma Pauses(cfg: Config, c: Conn, opts: Options, own: u16, peer: u16, k: Count, p: Payload)
    requires Plain(cfg, opts, p) && Few(opts.window, k) && Side(c, opts, own, peer, k, p)
    ensures var e := TimerPass(cfg, c, 0);
            && e == c.(snd := c.snd.(txq := e.snd.txq)) && Side(e, opts, own, peer, k, p)
            && (k.acked == k.sent ==> e.snd.txq == [])
  {
    hide PassSends, PassFilter, TimerPass, Offset, SeqBefore, Wrap;
    var q, una, pt := c.snd.txq, c.snd.una, opts.packetTimeout;
    PassOneTimers(cfg, c, opts);
    NoneDue(q, una, c.rcv.cur, pt);
    assert c.snd.out + [] == c.snd.out;
    if k.acked == k.sent {
      OffsetOfWrap(own, 1 + k.acked);
      forall e | e in q ensures SeqBefore(e.seg.seqNr, una) {
        AckedMeans(c, e);
      }
      AllFreed(q, una, c.rcv.cur, 0, pt);
    }
  }

  /** Numbers up to two windows ahead, and acknowledgements up to two windows back, are acceptable. */
  lemma Acceptable(c: Conn, opts: Options, own: u16, peer: u16, k: Count, p: Payload, o: nat, x: nat)
    requires Few(opts.window, k) && Side(c, opts, own, peer, k, p)
    requires k.got < o <= k.got + 2 * opts.window && k.acked - 2 * opts.window <= x <= k.sent
    ensures SeqAcceptable(c, Wrap(peer + o)) && AckAcceptable(c, Wrap(own + x))
  {
    hide SeqBetween, Wrap, SeqAcceptable, Kept;
    var w: int := opts.window;
    WithinTwoWindows(c, peer, k.got, o, w);
    BetweenIsInRange(own, x, k.acked - 2 * w, k.sent);
    WrapModulo(own + 1 + k.acked, -1 - w * 2);
    WrapModulo(own + 1 + k.sent, -1);
    SameBetween(Wrap(own + x), c.snd.una - 1 - c.opt.window * 2, c.snd.nxt - 1, own + (k.acked - 2 * w), own + k.sent);
  }

  // ---------------------------------------------------------------- one side

  lemma SideSends(cfg: Config, c: Conn, opts: Options, own: u16, peer: u16, k: Count, p: Payload)
    requires Plain(cfg, opts, p) && Few(opts.window, k) && Side(c, opts, own, peer, k, p)
    requires k.sent < k.acked + opts.window && k.sent <= opts.window
    ensures var d := UserSend(cfg, c, p, 0);
            Side(d, opts, own, peer, k.(sent := k.sent + 1), p) && Data(own, peer, k.sent + 1, k.got, p) in d.snd.out
  {
    hide ReadyForTx, Wrap, Offset, Kept;
    RoomToSend(c, opts, own, peer, k, p);
    WrapStep(own, 1 + k.sent);
    var d := UserSend(cfg, c, p, 0);
    var s := Data(own, peer, k.sent + 1, k.got, p);
    assert d.snd.out == c.snd.out + [s];
    KeptMore(c.snd.txq, own, k.sent, TxEntry(s, 0, 0));
  }

  lemma RoomToSend(c: Conn, opts: Options, own: u16, peer: u16, k: Count, p: Payload)
    requires Few(opts.window, k) && Side(c, opts, own, peer, k, p) && k.sent < k.acked + opts.window
    ensures ReadyForTx(c)
  {
    hide SeqAfter, Wrap, Offset, Kept;
    OffsetOfWrap(own, 1 + k.acked);
    ReadyMeans(own, c.snd.una, c.snd.nxt, opts.window, k.sent);
  }

  lemma KeptMore(q: seq<TxEntry>, own: u16, sent: nat, e: TxEntry)
    requires Kept(q, own, sent) && e.sentAt == 0 && e.seg.seqNr == Wrap(own + (sent + 1)) && sent < 0x8000
    ensures Kept(q, own, sent + 1) && Kept(q + [e], own, sent + 1)
  {
    hide Wrap, Offset;
    OffsetOfWrap(own, sent + 1);
  }

  lemma SideTakesData(cfg: Config, c: Conn, opts: Options, own: u16, peer: u16, k: Count, p: Payload, s: Segment)
    requires Plain(cfg, opts, p) && Few(opts.window, k) && Side(c, opts, own, peer, k, p)
    requires s == Data(peer, own, k.got + 1, k.acked, p)
    ensures var d := RouteWork(cfg, c, Some(s), 0, 0, true);
            && |d.rcv.inbox| == 1 && Side(d.(rcv := d.rcv.(inbox := [])), opts, own, peer, k.(got := k.got + 1), p)
            && Ctl(false, own, peer, k.sent, k.got + 1) in d.snd.out
  {
    hide SeqAcceptable, AckAcceptable, TimerPass, RoutePacket, Kept, Wrap;
    var e := TimerPass(cfg, c, 0);
    Pauses(cfg, c, opts, own, peer, k, p);
    Acceptable(e, opts, own, peer, k, p, k.got + 1, k.acked);
    WrapStep(peer, k.got);
    WrapStep(own, k.acked);
    TakesInOrder(cfg, e, opts, s, p);
    assert Ack(Given(e, s)) == Ctl(false, own, peer, k.sent, k.got + 1);
  }

  lemma SideReads(cfg: Config, c: Conn, opts: Options, own: u16, peer: u16, k: Count, p: Payload)
    requires opts.delayedAcks == 0 && |c.rcv.inbox| == 1 && Side(c.(rcv := c.rcv.(inbox := [])), opts, own, peer, k, p)
    ensures Side(UserRead(cfg, c, 0), opts, own, peer, k, p) && UserRead(cfg, c, 0).snd == c.snd
  {
  }

  /** A control message moves the acknowledged number, back too. */
  lemma SideTakesCtl(cfg: Config, c: Conn, opts: Options, own: u16, peer: u16, k: Count, p: Payload, eak: bool, o: nat,
                     x: nat)
    requires Plain(cfg, opts, p) && Few(opts.window, k) && Side(c, opts, own, peer, k, p)
    requires k.got <= o < k.got + 2 * opts.window && k.acked - 2 * opts.window <= x <= k.sent
    ensures var d := RouteWork(cfg, c, Some(Ctl(eak, peer, own, o, x)), 0, 0, true);
            Side(d, opts, own, peer, k.(acked := x), p) && (k.acked == k.sent ==> d.snd.txq == [])
  {
    hide SeqAcceptable, AckAcceptable, TimerPass, Kept, Wrap;
    var e := TimerPass(cfg, c, 0);
    Pauses(cfg, c, opts, own, peer, k, p);
    Acceptable(e, opts, own, peer, k, p, o + 1, x);
    WrapStep(own, x);
  }

  /** A duplicate draws an extended acknowledgement. */
  lemma SideTakesDuplicate(cfg: Config, c: Conn, opts: Options, own: u16, peer: u16, k: Count, p: Payload, s: Segment,
                           i: nat)
    requires Plain(cfg, opts, p) && Few(opts.window, k) && Side(c, opts, own, peer, k, p)
    requires !s.syn && s.ack && !s.rst && s.seqNr == Wrap(peer + i) && i <= k.got
    ensures var d := RouteWork(cfg, c, Some(s), 0, 0, true);
            Side(d, opts, own, peer, k, p) && Ctl(true, own, peer, k.sent, k.got) in d.snd.out
  {
    hide SeqAcceptable, TimerPass, Kept, Wrap;
    var e := TimerPass(cfg, c, 0);
    Pauses(cfg, c, opts, own, peer, k, p);
    OldIsUnacceptable(e, peer, k.got, i, opts.window);
    assert Eack(e) == Ctl(true, own, peer, k.sent, k.got);
  }

  // ---------------------------------------------------------------- both sides

  /** A side and its peer. */
  predicate Both(y: Sys, opts: Options, n: RdpSystem.Node, own: u16, peer: u16, k: Count, j: Count, p: Payload) {
    Side(At(y, n), opts, own, peer, k, p) && Side(Peer(y, n), opts, peer, own, j, p)
  }

  /** What both have sent is still there. */
  predicate Since(y: Sys, z: Sys) { Extends(y.a, z.a) && Extends(y.b, z.b) }

  lemma StillThere(y: Sys, z: Sys, n: RdpSystem.Node, s: Segment)
    requires Since(y, z) && s in At(y, n).snd.out
    ensures s in At(z, n).snd.out
  {
  }

  /** One more event. */
  lemma Goes(cfg: Config, opts: Options, limit: nat, evs: seq<Event>, ys: seq<Sys>, n: RdpSystem.Node, act: Act)
    returns (evs1: seq<Event>, ys1: seq<Sys>)
    requires IsRun(cfg, opts, limit, evs, ys) && Enabled(cfg, limit, At(Last(ys), n), Peer(Last(ys), n), act)
    ensures IsRun(cfg, opts, limit, evs1, ys1) && ys1[0] == ys[0] && Since(Last(ys), Last(ys1))
    ensures At(Last(ys1), n) == Do(cfg, opts, At(Last(ys), n), act) && Peer(Last(ys1), n) == Peer(Last(ys), n)
  {
    hide Init, Step, Do, Enabled;
    DoSends(cfg, opts, At(Last(ys), n), act);
    evs1, ys1 := Next(cfg, opts, limit, evs, ys, Event(n, act));
  }

  /** An ordinary segment that the peer has sent may arrive at any time. */
  lemma Arrives(cfg: Config, opts: Options, limit: nat, evs: seq<Event>, ys: seq<Sys>, n: RdpSystem.Node, s: Segment)
    returns (evs1: seq<Event>, ys1: seq<Sys>)
    requires IsRun(cfg, opts, limit, evs, ys) && s in Peer(Last(ys), n).snd.out && !s.syn
    ensures IsRun(cfg, opts, limit, evs1, ys1) && ys1[0] == ys[0] && Since(Last(ys), Last(ys1))
    ensures At(Last(ys1), n) == RouteWork(cfg, At(Last(ys), n), Some(s), 0, 0, true)
    ensures Peer(Last(ys1), n) == Peer(Last(ys), n)
  {
    hide Init, Step, RouteWork, TimerPass;
    evs1, ys1 := Goes(cfg, opts, limit, evs, ys, n, Route(Some(s), 0, 0, true));
  }

  /** The user of `n` sends. */
  lemma SendsOne(cfg: Config, opts: Options, limit: nat, evs: seq<Event>, ys: seq<Sys>, n: RdpSystem.Node,
                 own: u16, peer: u16, k: Count, j: Count, p: Payload)
    returns (evs1: seq<Event>, ys1: seq<Sys>)
    requires IsRun(cfg, opts, limit, evs, ys) && Both(Last(ys), opts, n, own, peer, k, j, p) && Plain(cfg, opts, p)
    requires Few(opts.window, k) && k.sent < k.acked + opts.window && k.sent <= opts.window < limit
    ensures IsRun(cfg, opts, limit, evs1, ys1) && ys1[0] == ys[0] && Since(Last(ys), Last(ys1))
    ensures Both(Last(ys1), opts, n, own, peer, k.(sent := k.sent + 1), j, p)
    ensures Data(own, peer, k.sent + 1, k.got, p) in At(Last(ys1), n).snd.out
  {
    hide Init, Step, UserSend, Few, Plain;
    var c := At(Last(ys), n);
    SideSends(cfg, c, opts, own, peer, k, p);
    assert c.handle && |c.snd.accepted| == k.sent;
    hide Side, Data;
    evs1, ys1 := Goes(cfg, opts, limit, evs, ys, n, Send(p, 0));
  }

  /** The next payload of the peer arrives at `n` and is read. */
  lemma GetsOne(cfg: Config, opts: Options, limit: nat, evs: seq<Event>, ys: seq<Sys>, n: RdpSystem.Node,
                own: u16, peer: u16, k: Count, j: Count, p: Payload)
    returns (evs1: seq<Event>, ys1: seq<Sys>)
    requires IsRun(cfg, opts, limit, evs, ys) && Both(Last(ys), opts, n, own, peer, k, j, p) && Plain(cfg, opts, p)
    requires Few(opts.window, k) && Data(peer, own, k.got + 1, k.acked, p) in Peer(Last(ys), n).snd.out
    ensures IsRun(cfg, opts, limit, evs1, ys1) && ys1[0] == ys[0] && Since(Last(ys), Last(ys1))
    ensures Both(Last(ys1), opts, n, own, peer, k.(got := k.got + 1), j, p)
    ensures Ctl(false, own, peer, k.sent, k.got + 1) in At(Last(ys1), n).snd.out
  {
    hide Init, Step, RouteWork, UserRead, Few;
    var c, s := At(Last(ys), n), Data(peer, own, k.got + 1, k.acked, p);
    SideTakesData(cfg, c, opts, own, peer, k, p, s);
    var d := RouteWork(cfg, c, Some(s), 0, 0, true);
    SideReads(cfg, d, opts, own, peer, k.(got := k.got + 1), p);
    assert d.handle;
    hide Side, Data, Plain;
    assert !s.syn by { Ordinary(peer, own, k, p); }
    var evs2, ys2 := Arrives(cfg, opts, limit, evs, ys, n, s);
    evs1, ys1 := Goes(cfg, opts, limit, evs2, ys2, n, Read(0));
    StillThere(Last(ys2), Last(ys1), n, Ctl(false, own, peer, k.sent, k.got + 1));
  }

  lemma Ordinary(own: u16, peer: u16, k: Count, p: Payload)
    ensures !Data(own, peer, k.got + 1, k.acked, p).syn
  {
  }

  /** A control message of the peer arrives at `n`. */
  lemma CtlArrives(cfg: Config, opts: Options, limit: nat, evs: seq<Event>, ys: seq<Sys>, n: RdpSystem.Node,
                   own: u16, peer: u16, k: Count, j: Count, p: Payload, eak: bool, o: nat, x: nat)
    returns (evs1: seq<Event>, ys1: seq<Sys>)
    requires IsRun(cfg, opts, limit, evs, ys) && Both(Last(ys), opts, n, own, peer, k, j, p) && Plain(cfg, opts, p)
    requires Few(opts.window, k) && k.got <= o < k.got + 2 * opts.window
    requires k.acked - 2 * opts.window <= x <= k.sent && Ctl(eak, peer, own, o, x) in Peer(Last(ys), n).snd.out
    ensures IsRun(cfg, opts, limit, evs1, ys1) && ys1[0] == ys[0] && Since(Last(ys), Last(ys1))
    ensures Both(Last(ys1), opts, n, own, peer, k.(acked := x), j, p) && Peer(Last(ys1), n) == Peer(Last(ys), n)
    ensures k.acked == k.sent ==> At(Last(ys1), n).snd.txq == []
  {
    hide Init, Step, RouteWork, Few, Side, Plain;
    SideTakesCtl(cfg, At(Last(ys), n), opts, own, peer, k, p, eak, o, x);
    evs1, ys1 := Arrives(cfg, opts, limit, evs, ys, n, Ctl(eak, peer, own, o, x));
  }

  /** A payload that `n` has received arrives again. */
  lemma DuplicateArrives(cfg: Config, opts: Options, limit: nat, evs: seq<Event>, ys: seq<Sys>, n: RdpSystem.Node,
                         own: u16, peer: u16, k: Count, j: Count, p: Payload, i: nat, got: nat)
    returns (evs1: seq<Event>, ys1: seq<Sys>)
    requires IsRun(cfg, opts, limit, evs, ys) && Both(Last(ys), opts, n, own, peer, k, j, p) && Plain(cfg, opts, p)
    requires Few(opts.window, k) && i <= k.got && Data(peer, own, i, got, p) in Peer(Last(ys), n).snd.out
    ensures IsRun(cfg, opts, limit, evs1, ys1) && ys1[0] == ys[0] && Since(Last(ys), Last(ys1))
    ensures Both(Last(ys1), opts, n, own, peer, k, j, p)
    ensures Ctl(true, own, peer, k.sent, k.got) in At(Last(ys1), n).snd.out
  {
    hide Init, Step, RouteWork, Few, Side, Plain;
    var s := Data(peer, own, i, got, p);
    SideTakesDuplicate(cfg, At(Last(ys), n), opts, own, peer, k, p, s, i);
    evs1, ys1 := Arrives(cfg, opts, limit, evs, ys, n, s);
  }

  // ---------------------------------------------------------------- many

  /** The payloads of `n` from number `lo` to `hi` are on the network, sent with `got` delivered. */
  predicate Flying(y: Sys, n: RdpSystem.Node, own: u16, peer: u16, lo: nat, hi: nat, got: nat, p: Payload) {
    forall i :: lo <= i <= hi ==> Data(own, peer, i, got, p) in At(y, n).snd.out
  }

  lemma StillFlying(y: Sys, z: Sys, n: RdpSystem.Node, own: u16, peer: u16, lo: nat, hi: nat, got: nat, p: Payload)
    requires Since(y, z) && Flying(y, n, own, peer, lo, hi, got, p)
    ensures Flying(z, n, own, peer, lo, hi, got, p)
  {
    hide Data;
  }

  /** The user of `n` fills its window. */
  lemma {:induction false} SendsMany(cfg: Config, opts: Options, limit: nat, evs: seq<Event>, ys: seq<Sys>,
                                     n: RdpSystem.Node, own: u16, peer: u16, k: Count, j: Count, p: Payload, m: nat)
    returns (evs1: seq<Event>, ys1: seq<Sys>)
    requires IsRun(cfg, opts, limit, evs, ys) && Both(Last(ys), opts, n, own, peer, k, j, p) && Plain(cfg, opts, p)
    requires Few(opts.window, k) && k.acked == k.sent && k.sent + m <= opts.window + 1 <= limit && m <= opts.window
    ensures IsRun(cfg, opts, limit, evs1, ys1) && ys1[0] == ys[0] && Since(Last(ys), Last(ys1))
    ensures Both(Last(ys1), opts, n, own, peer, k.(sent := k.sent + m), j, p)
    ensures Flying(Last(ys1), n, own, peer, k.sent + 1, k.sent + m, k.got, p)
    decreases m
  {
    hide Init, Step, Side, Data, Plain;
    if m == 0 {
      evs1, ys1 := evs, ys;
      assert k.(sent := k.sent + 0) == k;
    } else {
      var evs2, ys2 := SendsMany(cfg, opts, limit, evs, ys, n, own, peer, k, j, p, m - 1);
      evs1, ys1 := SendsOne(cfg, opts, limit, evs2, ys2, n, own, peer, k.(sent := k.sent + (m - 1)), j, p);
      StillFlying(Last(ys2), Last(ys1), n, own, peer, k.sent + 1, k.sent + (m - 1), k.got, p);
    }
  }

  /** All of them arrive at `n`, and the last is acknowledged. */
  lemma {:induction false} GetsMany(cfg: Config, opts: Options, limit: nat, evs: seq<Event>, ys: seq<Sys>,
                                    n: RdpSystem.Node, own: u16, peer: u16, k: Count, j: Count, p: Payload, m: nat)
    returns (evs1: seq<Event>, ys1: seq<Sys>)
    requires IsRun(cfg, opts, limit, evs, ys) && Both(Last(ys), opts, n, own, peer, k, j, p) && Plain(cfg, opts, p)
    requires Few(opts.window, k) && k.got + m <= opts.window + 1
    requires Flying(Last(ys), Other(n), peer, own, k.got + 1, k.got + m, k.acked, p)
    ensures IsRun(cfg, opts, limit, evs1, ys1) && ys1[0] == ys[0] && Since(Last(ys), Last(ys1))
    ensures Both(Last(ys1), opts, n, own, peer, k.(got := k.got + m), j, p)
    ensures m > 0 ==> Ctl(false, own, peer, k.sent, k.got + m) in At(Last(ys1), n).snd.out
    decreases m
  {
    hide Init, Step, Side, Data, Plain, Ctl;
    if m == 0 {
      evs1, ys1 := evs, ys;
      assert k.(got := k.got + 0) == k;
    } else {
      var l := k.(got := k.got + (m - 1));
      var evs2, ys2 := GetsMany(cfg, opts, limit, evs, ys, n, own, peer, k, j, p, m - 1);
      StillThere(Last(ys), Last(ys2), Other(n), Data(peer, own, l.got + 1, l.acked, p));
      evs1, ys1 := GetsOne(cfg, opts, limit, evs2, ys2, n, own, peer, l, j, p);
    }
  }

  // ---------------------------------------------------------------- the run

  /** One payload: sent, delivered, read and acknowledged. */
  lemma Exchange(cfg: Config, opts: Options, limit: nat, evs: seq<Event>, ys: seq<Sys>, n: RdpSystem.Node,
                 own: u16, peer: u16, got: nat, p: Payload)
    returns (evs1: seq<Event>, ys1: seq<Sys>)
    requires IsRun(cfg, opts, limit, evs, ys) && Plain(cfg, opts, p) && got <= 1
    requires Both(Last(ys), opts, n, own, peer, Count(0, 0, got), Count(got, got, 0), p)
    requires 3 * opts.window + 1 < 0x8000 && opts.window < limit
    ensures IsRun(cfg, opts, limit, evs1, ys1) && ys1[0] == ys[0] && Since(Last(ys), Last(ys1))
    ensures Both(Last(ys1), opts, n, own, peer, Count(1, 1, got), Count(got, got, 1), p)
    ensures Data(own, peer, 1, got, p) in At(Last(ys1), n).snd.out
  {
    hide Init, Step, Side, Data, Ctl;
    var m, k, j := Other(n), Count(0, 0, got), Count(got, got, 0);
    var evs2, ys2 := SendsOne(cfg, opts, limit, evs, ys, n, own, peer, k, j, p);
    var evs3, ys3 := GetsOne(cfg, opts, limit, evs2, ys2, m, peer, own, j, k.(sent := 1), p);
    StillThere(Last(ys2), Last(ys3), n, Data(own, peer, 1, got, p));
    evs1, ys1 := CtlArrives(cfg, opts, limit, evs3, ys3, n, own, peer, k.(sent := 1), j.(got := 1), p, false, got, 1);
    StillThere(Last(ys3), Last(ys1), n, Data(own, peer, 1, got, p));
  }

  /** Fresh slots, connected, with nothing left to send again. */
  lemma Begins(cfg: Config, opts: Options, limit: nat, y: Sys, a: u16, b: u16, p: Payload)
    returns (evs: seq<Event>, ys: seq<Sys>)
    requires Init(y) && Plain(cfg, opts, p)
    ensures IsRun(cfg, opts, limit, evs, ys) && ys[0] == y
    ensures Both(Last(ys), opts, A, a, b, Count(0, 0, 0), Count(0, 0, 0), p)
  {
    evs, ys := CanConnect(cfg, opts, limit, y, a, b);
    Settles(cfg, Last(ys).a, opts, a, b);
    Settles(cfg, Last(ys).b, opts, b, a);
    hide Init, Step, RouteWork;
    evs, ys := Next(cfg, opts, limit, evs, ys, Event(A, Route(None, 0, 0, true)));
    evs, ys := Next(cfg, opts, limit, evs, ys, Event(B, Route(None, 0, 0, true)));
    WrapSelf(a);
    WrapSelf(b);
  }

  /** One payload each way, then a window of payloads each way that nobody has received yet. */
  lemma Crosses(cfg: Config, opts: Options, limit: nat, y: Sys, a: u16, b: u16, p: Payload)
    returns (evs: seq<Event>, ys: seq<Sys>)
    requires Init(y) && Plain(cfg, opts, p) && 3 * opts.window + 1 < 0x8000 && opts.window < limit
    ensures IsRun(cfg, opts, limit, evs, ys) && ys[0] == y
    ensures var k := Count(opts.window + 1, 1, 1); Both(Last(ys), opts, A, a, b, k, k, p)
    ensures Flying(Last(ys), A, a, b, 2, opts.window + 1, 1, p) && Flying(Last(ys), B, b, a, 2, opts.window + 1, 1, p)
    ensures Data(a, b, 1, 0, p) in Last(ys).a.snd.out && Data(b, a, 1, 1, p) in Last(ys).b.snd.out
  {
    hide Init, Step, Side, Data;
    var w: nat := opts.window;
    var one, full := Count(1, 1, 1), Count(w + 1, 1, 1);
    var evs1, ys1 := Begins(cfg, opts, limit, y, a, b, p);
    var evs2, ys2 := Exchange(cfg, opts, limit, evs1, ys1, A, a, b, 0, p);
    var evs3, ys3 := Exchange(cfg, opts, limit, evs2, ys2, B, b, a, 1, p);
    var evs4, ys4 := SendsMany(cfg, opts, limit, evs3, ys3, A, a, b, one, one, p, w);
    evs, ys := SendsMany(cfg, opts, limit, evs4, ys4, B, b, a, one, full, p, w);
    StillFlying(Last(ys4), Last(ys), A, a, b, 2, w + 1, 1, p);
  }

  /** Each side answers a duplicate of the first payload: an acknowledgement that will be old. */
  lemma Answers(cfg: Config, opts: Options, limit: nat, evs: seq<Event>, ys: seq<Sys>, a: u16, b: u16, p: Payload,
                w: nat)
    returns (evs1: seq<Event>, ys1: seq<Sys>)
    requires IsRun(cfg, opts, limit, evs, ys) && Plain(cfg, opts, p) && w == opts.window && 3 * w + 1 < 0x8000
    requires Both(Last(ys), opts, A, a, b, Count(w + 1, 1, 1), Count(w + 1, 1, 1), p)
    requires Data(a, b, 1, 0, p) in Last(ys).a.snd.out && Data(b, a, 1, 1, p) in Last(ys).b.snd.out
    ensures IsRun(cfg, opts, limit, evs1, ys1) && ys1[0] == ys[0] && Since(Last(ys), Last(ys1))
    ensures Both(Last(ys1), opts, A, a, b, Count(w + 1, 1, 1), Count(w + 1, 1, 1), p)
    ensures Ctl(true, a, b, w + 1, 1) in Last(ys1).a.snd.out && Ctl(true, b, a, w + 1, 1) in Last(ys1).b.snd.out
  {
    hide Init, Step, Side, Data, Ctl;
    var k := Count(w + 1, 1, 1);
    var evs2, ys2 := DuplicateArrives(cfg, opts, limit, evs, ys, A, a, b, k, k, p, 1, 1);
    evs1, ys1 := DuplicateArrives(cfg, opts, limit, evs2, ys2, B, b, a, k, k, p, 1, 0);
  }

  /** Everything is delivered both ways. */
  lemma AllArrive(cfg: Config, opts: Options, limit: nat, evs: seq<Event>, ys: seq<Sys>, a: u16, b: u16, p: Payload,
                  w: nat)
    returns (evs1: seq<Event>, ys1: seq<Sys>)
    requires IsRun(cfg, opts, limit, evs, ys) && Plain(cfg, opts, p) && w == opts.window && 3 * w + 1 < 0x8000
    requires Both(Last(ys), opts, A, a, b, Count(w + 1, 1, 1), Count(w + 1, 1, 1), p)
    requires Flying(Last(ys), A, a, b, 2, w + 1, 1, p) && Flying(Last(ys), B, b, a, 2, w + 1, 1, p)
    ensures IsRun(cfg, opts, limit, evs1, ys1) && ys1[0] == ys[0] && Since(Last(ys), Last(ys1))
    ensures Both(Last(ys1), opts, A, a, b, Count(w + 1, 1, w + 1), Count(w + 1, 1, w + 1), p)
    ensures Ctl(false, a, b, w + 1, w + 1) in Last(ys1).a.snd.out
    ensures Ctl(false, b, a, w + 1, w + 1) in Last(ys1).b.snd.out
  {
    hide Init, Step, Side, Data, Ctl;
    var k, all := Count(w + 1, 1, 1), Count(w + 1, 1, w + 1);
    var evs2, ys2 := GetsMany(cfg, opts, limit, evs, ys, A, a, b, k, k, p, w);
    StillFlying(Last(ys), Last(ys2), A, a, b, 2, w + 1, 1, p);
    evs1, ys1 := GetsMany(cfg, opts, limit, evs2, ys2, B, b, a, k, all, p, w);
  }

  /** Everything is acknowledged and freed, and then the old acknowledgements arrive. */
  lemma OldAcksArrive(cfg: Config, opts: Options, limit: nat, evs: seq<Event>, ys: seq<Sys>, a: u16, b: u16, p: Payload,
                      w: nat)
    returns (evs1: seq<Event>, ys1: seq<Sys>)
    requires IsRun(cfg, opts, limit, evs, ys) && Plain(cfg, opts, p) && w == opts.window && 3 * w + 1 < 0x8000
    requires Both(Last(ys), opts, A, a, b, Count(w + 1, 1, w + 1), Count(w + 1, 1, w + 1), p)
    requires Ctl(false, a, b, w + 1, w + 1) in Last(ys).a.snd.out
    requires Ctl(false, b, a, w + 1, w + 1) in Last(ys).b.snd.out
    requires Ctl(true, a, b, w + 1, 1) in Last(ys).a.snd.out && Ctl(true, b, a, w + 1, 1) in Last(ys).b.snd.out
    ensures IsRun(cfg, opts, limit, evs1, ys1) && ys1[0] == ys[0]
    ensures Both(Last(ys1), opts, A, a, b, Count(w + 1, 1, w + 1), Count(w + 1, 1, w + 1), p)
    ensures Last(ys1).a.snd.txq == [] && Last(ys1).b.snd.txq == []
  {
    hide Init, Step, Side, Ctl;
    var old1, new1 := Count(w + 1, 1, w + 1), Count(w + 1, w + 1, w + 1);
    var evs2, ys2 := CtlArrives(cfg, opts, limit, evs, ys, A, a, b, old1, old1, p, false, w + 1, w + 1);
    var evs3, ys3 := CtlArrives(cfg, opts, limit, evs2, ys2, B, b, a, old1, new1, p, false, w + 1, w + 1);
    var evs4, ys4 := CtlArrives(cfg, opts, limit, evs3, ys3, A, a, b, new1, new1, p, true, w + 1, 1);
    evs1, ys1 := CtlArrives(cfg, opts, limit, evs4, ys4, B, b, a, new1, old1, p, true, w + 1, 1);
  }

  lemma ShutSide(c: Conn, opts: Options, own: u16, peer: u16, p: Payload, w: nat)
    requires w == opts.window && 1 <= w && 3 * w + 1 < 0x8000 && c.snd.txq == []
    requires Side(c, opts, own, peer, Count(w + 1, 1, w + 1), p)
    ensures !ReadyForTx(c) && !Unacked(c) && c.state == Open && c.handle && c.opt == opts
    ensures c.snd.accepted == seq(w + 1, _ => p) && c.rcv.delivered == seq(w + 1, _ => p)
  {
    hide Wrap, Offset, SeqAfter;
    OffsetOfWrap(own, 2);
    ReadyMeans(own, c.snd.una, c.snd.nxt, w, w + 1);
  }

  /** Both windows shut for good: for every window some run ends with everything delivered both ways, both ends open and
      held and both retransmit queues empty, after which neither window opens, whatever the users send or read, if
      everything sent so far is lost. */
  lemma BothShutForGood(cfg: Config, opts: Options, limit: nat, y: Sys, a: u16, b: u16, p: Payload)
    returns (evs: seq<Event>, ys: seq<Sys>)
    requires Sane(cfg, opts, limit) && Init(y) && Plain(cfg, opts, p) && limit > opts.window
    ensures IsRun(cfg, opts, limit, evs, ys) && ys[0] == y && InUse(Last(ys))
    ensures Last(ys).b.rcv.delivered == Last(ys).a.snd.accepted && Last(ys).a.rcv.delivered == Last(ys).b.snd.accepted
    ensures !Reopens(cfg, opts, limit, true, evs, ys, A) && !Reopens(cfg, opts, limit, true, evs, ys, B)
  {
    hide Init, Step, Side, Reopens, ReadyForTx, Data, Ctl, Unacked, Flushed;
    var w: nat := opts.window;
    var evs1, ys1 := Crosses(cfg, opts, limit, y, a, b, p);
    var evs2, ys2 := Answers(cfg, opts, limit, evs1, ys1, a, b, p, w);
    StillFlying(Last(ys1), Last(ys2), A, a, b, 2, w + 1, 1, p);
    StillFlying(Last(ys1), Last(ys2), B, b, a, 2, w + 1, 1, p);
    var evs3, ys3 := AllArrive(cfg, opts, limit, evs2, ys2, a, b, p, w);
    StillThere(Last(ys2), Last(ys3), A, Ctl(true, a, b, w + 1, 1));
    StillThere(Last(ys2), Last(ys3), B, Ctl(true, b, a, w + 1, 1));
    evs, ys := OldAcksArrive(cfg, opts, limit, evs3, ys3, a, b, p, w);
    ShutSide(Last(ys).a, opts, a, b, p, w);
    ShutSide(Last(ys).b, opts, b, a, p, w);
    NeverReopens(cfg, opts, limit, true, evs, ys, A);
    NeverReopens(cfg, opts, limit, true, evs, ys, B);
  }

  /** One window shut: for every window some run ends with everything delivered and acknowledged, both ends open and
      held, after which the window of the sender does not open, if everything sent so far is lost and its peer sends
      nothing; but any payload its peer sends opens it. */
  lemma ShutUntilAnswered(cfg: Config, opts: Options, limit: nat, y: Sys, a: u16, b: u16, p: Payload)
    returns (evs: seq<Event>, ys: seq<Sys>)
    requires Sane(cfg, opts, limit) && Init(y) && Plain(cfg, opts, p) && limit > opts.window
    ensures IsRun(cfg, opts, limit, evs, ys) && ys[0] == y && InUse(Last(ys))
    ensures Last(ys).b.rcv.delivered == Last(ys).a.snd.accepted
    ensures !Reopens(cfg, opts, limit, false, evs, ys, A) && Reopens(cfg, opts, limit, true, evs, ys, A)
  {
    hide Init, Step, ReadyForTx, Flushed, Reopens;
    evs, ys := CanShut(cfg, opts, limit, y, a, b, p);
    NeverReopens(cfg, opts, limit, false, evs, ys, A);
    PeerSendReopens(cfg, opts, limit, evs, ys, A, p);
  }
}
