/** When a transmit window can open again, for every option: the exact condition, and runs that shut it. */
module RdpDecide {
  import opened Base
  import opened SeqNum
  import opened RdpModel
  import opened RdpSystem
  import opened RdpClose
  import opened RdpOrder
  import opened RdpAcks
  import opened RdpRecover
  import opened RdpWindow
  import opened RdpTrace
  import opened RdpOptions
  import opened RdpProgress
  import opened RdpRounds
  import opened RdpReopen
  import opened RdpShut
  import opened RdpSilence

  // ---------------------------------------------------------------- continuations put together

  lemma AdmittedSince(users: bool, u: bool, y: Sys, y1: Sys, z: Sys, e: Event)
    requires Admitted(u, y1, z, e) && (u ==> users) && Extends(y.a, y1.a) && Extends(y.b, y1.b)
    ensures Admitted(users, y, z, e)
  {
    if Harmless(y1, z, e) {
      HarmlessSince(y, y1, z, e);
    }
  }

  lemma Together(cfg: Config, opts: Options, limit: nat, users: bool, u: bool, evs: seq<Event>, ys: seq<Sys>,
                 evs1: seq<Event>, ys1: seq<Sys>, evs2: seq<Event>, ys2: seq<Sys>)
    requires Continues(cfg, opts, limit, users, evs, ys, evs1, ys1) && (u ==> users)
    requires Continues(cfg, opts, limit, u, evs1, ys1, evs2, ys2)
    ensures Continues(cfg, opts, limit, users, evs, ys, evs2, ys2)
  {
    hide Init, Step, Admitted;
    RunSends(cfg, opts, limit, evs1, ys1, |ys| - 1, |ys1| - 1);
    var more, zs := evs2[|evs|..], ys2[|ys|..];
    forall i | 0 <= i < |more|
      ensures Admitted(users, Last(ys), if i == 0 then Last(ys) else zs[i - 1], more[i])
    {
      var j := |evs| + i;
      assert Last(ys) == ys2[|evs|] && more[i] == evs2[j] && (i > 0 ==> zs[i - 1] == ys2[j]);
      if j < |evs1| {
        AdmittedAt(cfg, opts, limit, users, evs, ys, evs1, ys1, j);
      } else {
        AdmittedAt(cfg, opts, limit, u, evs1, ys1, evs2, ys2, j);
        AdmittedSince(users, u, Last(ys), Last(ys1), ys2[j], evs2[j]);
      }
    }
  }

  /** Without sends nothing is accepted, and what was delivered stays. */
  lemma NothingAccepted(cfg: Config, opts: Options, limit: nat, evs: seq<Event>, ys: seq<Sys>,
                        evs1: seq<Event>, ys1: seq<Sys>, n: RdpSystem.Node)
    requires Continues(cfg, opts, limit, false, evs, ys, evs1, ys1)
    ensures At(Last(ys1), n).snd.accepted == At(Last(ys), n).snd.accepted
    ensures |At(Last(ys), n).rcv.delivered| <= |At(Last(ys1), n).rcv.delivered|
  {
    forall k | |evs| <= k < |evs1| ensures !evs1[k].act.Send? {
      AdmittedAt(cfg, opts, limit, false, evs, ys, evs1, ys1, k);
    }
    hide Init, Step, AdmittedRun;
    assert Last(ys) == ys1[|evs|];
    RunSends(cfg, opts, limit, evs1, ys1, |evs|, |ys1| - 1);
  }

  // ---------------------------------------------------------------- it can

  /** What is left to send again opens the window. */
  lemma LeftOverReopens(cfg: Config, opts: Options, limit: nat, users: bool, evs: seq<Event>, ys: seq<Sys>,
                        n: RdpSystem.Node)
    requires Sane(cfg, opts, limit) && IsRun(cfg, opts, limit, evs, ys) && InUse(Last(ys)) && cfg.inboxLen >= 3
    requires forall p <- At(Last(ys), n).snd.accepted :: p != []
    requires CanReopen(cfg, At(Last(ys), n), Peer(Last(ys), n))
    ensures Reopens(cfg, opts, limit, users, evs, ys, n)
  {
    var c, p := At(Last(ys), n), Peer(Last(ys), n);
    hide Sane, Unacked, Lacks, ReadyForTx, Init, Step;
    if ReadyForTx(c) {
      assert Continues(cfg, opts, limit, users, evs, ys, evs, ys);
    } else if Unacked(c) {
      OwnSegmentReopens(cfg, opts, limit, users, evs, ys, n);
    } else {
      PeerSegmentReopens(cfg, opts, limit, users, evs, ys, n);
    }
  }

  /** Where a side has nothing to send again, its peer lacks nothing of what it keeps. */
  lemma NothingLacked(cfg: Config, w: nat, c: Conn, p: Conn, f: nat)
    requires Sound(w, c, p, |p.rcv.delivered|) && Sound(w, p, c, f) && !Unacked(c)
    ensures !Lacks(cfg, p, c)
  {
    hide Flushed, Offset, TxOk, CtlOk, ReceiverOk, Coupled;
    FlushedBound(cfg, w, p, c, f);
    forall e | e in c.snd.txq ensures TxOff(c.snd.iss, e) <= Flushed(cfg, p) {
      assert TxOff(c.snd.iss, e) < Una(c);
    }
  }

  /** An unacknowledged entry of a side that only reads and makes timer passes stays. */
  lemma StillLeftOver(cfg: Config, opts: Options, limit: nat, evs: seq<Event>, ys: seq<Sys>, i: nat, n: RdpSystem.Node)
    requires Sane(cfg, opts, limit) && IsRun(cfg, opts, limit, evs, ys) && i <= |evs| && OnlyOwn(n, evs[i..])
    requires InUse(ys[i]) && Unacked(At(ys[i], n))
    ensures Unacked(At(Last(ys), n))
  {
    var c, p := At(ys[i], n), Peer(ys[i], n);
    hide Sane, Init, Step, Sound, Unacked, SeqBefore, Offset, Waits, OnlyOwn;
    SoundBoth(cfg, opts, limit, evs, ys, i, n);
    var x := UnackedEntry(opts.window, c, p, |p.rcv.delivered|);
    RunWaits(cfg, opts, limit, evs, ys, i, |evs|, n, x);
    WaitsUnacked(c, At(Last(ys), n), x);
  }

  lemma WaitsUnacked(c: Conn, d: Conn, x: u16)
    requires Waits(c, d, x) && Una(c) <= Offset(c.snd.iss, x)
    ensures Unacked(d)
  {
    hide Offset;
    var e :| e in d.snd.txq && e.seg.seqNr == x;
    assert Una(d) <= TxOff(d.snd.iss, e);
  }

  /** First the peer takes what waits in its reorder queue; whatever opens its window is still there. */
  lemma PeerTakesAll(cfg: Config, opts: Options, limit: nat, users: bool, evs: seq<Event>, ys: seq<Sys>,
                     n: RdpSystem.Node)
    returns (evs1: seq<Event>, ys1: seq<Sys>)
    requires Sane(cfg, opts, limit) && IsRun(cfg, opts, limit, evs, ys) && InUse(Last(ys)) && cfg.inboxLen >= 3
    requires forall p <- At(Last(ys), n).snd.accepted :: p != []
    requires !Unacked(At(Last(ys), n)) && CanReopen(cfg, Peer(Last(ys), n), At(Last(ys), n))
    ensures Continues(cfg, opts, limit, users, evs, ys, evs1, ys1) && InUse(Last(ys1))
    ensures At(Last(ys1), n) == At(Last(ys), n) && SameNumbers(Peer(Last(ys), n), Peer(Last(ys1), n))
    ensures Peer(Last(ys1), n).rcv.delivered == At(Last(ys1), n).snd.accepted
    ensures CanReopen(cfg, Peer(Last(ys1), n), At(Last(ys1), n))
  {
    hide Sane, Unacked, Lacks, Init, Step, Sound, HarmlessRun, OnlyOwn;
    var c, p := At(Last(ys), n), Peer(Last(ys), n);
    BothSound(cfg, opts, limit, evs, ys, n);
    NothingLacked(cfg, opts.window, c, p, |c.rcv.delivered|);
    var more, zs := DeliverQueued(cfg, opts, limit, evs, ys, n);
    evs1, ys1 := evs + more, ys + zs;
    assert evs1[|evs|..] == more && ys1[|ys|..] == zs && ys1[|evs|] == Last(ys);
    HarmlessIsAdmitted(users, Last(ys), more, zs);
    if Unacked(p) {
      StillLeftOver(cfg, opts, limit, evs1, ys1, |evs|, Other(n));
    }
  }

  // ---------------------------------------------------------------- the peer sends

  /** The segment of an accepted payload acknowledges all that its side has received. */
  lemma SentAcksAll(cfg: Config, w: nat, c: Conn, p: Conn, d: nat, data: Payload)
    requires Sound(w, c, p, d) && Sound(w, p, c, |c.rcv.delivered|) && p.rcv.delivered == c.snd.accepted
    requires ReadyForTx(p) && |data| + 5 <= cfg.bufferSize
    ensures var q, s := UserSend(cfg, p, data, 0), DataOf(p, data);
            && q.state == Open && q.handle && q.rcv == p.rcv && Extends(p, q) && s in q.snd.out[|p.snd.out|..]
            && AcksAll(cfg, c, q, s, |p.snd.accepted| + 1)
  {
    hide Flushed, Wrap, ReadyForTx, TxOk, CtlOk, ReceiverOk, Coupled, Offset;
    FlushedBound(cfg, w, c, p, d);
    var q, s := UserSend(cfg, p, data, 0), DataOf(p, data);
    assert q.snd.out == p.snd.out + [s] && q.snd.accepted == p.snd.accepted + [data];
  }

  function DataOf(c: Conn, data: Payload): Segment {
    Segment(false, true, false, false, c.snd.nxt, c.rcv.cur, data, [], NO_OPTS)
  }

  lemma PeerSends(cfg: Config, opts: Options, limit: nat, evs: seq<Event>, ys: seq<Sys>,
                  evs1: seq<Event>, ys1: seq<Sys>, n: RdpSystem.Node, data: Payload)
    requires Sane(cfg, opts, limit) && Continues(cfg, opts, limit, true, evs, ys, evs1, ys1) && InUse(Last(ys1))
    requires Peer(Last(ys1), n).rcv.delivered == At(Last(ys1), n).snd.accepted && ReadyForTx(Peer(Last(ys1), n))
    requires |Peer(Last(ys1), n).snd.accepted| < limit && |data| + 5 <= cfg.bufferSize
    ensures Reopens(cfg, opts, limit, true, evs, ys, n)
  {
    hide Sane, Init, Step, AdmittedRun, Sound, Reopens, UserSend, AcksAll, ReadyForTx;
    var c, p, m := At(Last(ys1), n), Peer(Last(ys1), n), Other(n);
    BothSound(cfg, opts, limit, evs1, ys1, n);
    SentAcksAll(cfg, opts.window, c, p, |p.rcv.delivered|, data);
    RunSends(cfg, opts, limit, evs1, ys1, |ys| - 1, |ys1| - 1);
    var evs2, ys2 := Extend(cfg, opts, limit, true, evs, ys, evs1, ys1, Event(m, Send(data, 0)));
    SinceLater(Last(ys), Last(ys1), Last(ys2), m, DataOf(p, data));
    FinalAck(cfg, opts, limit, true, evs, ys, evs2, ys2, n, DataOf(p, data), |p.snd.accepted| + 1);
  }

  /** Any payload the peer can have accepted opens the window. */
  lemma PeerSendReopens(cfg: Config, opts: Options, limit: nat, evs: seq<Event>, ys: seq<Sys>, n: RdpSystem.Node,
                        data: Payload)
    requires Sane(cfg, opts, limit) && IsRun(cfg, opts, limit, evs, ys) && InUse(Last(ys)) && cfg.inboxLen >= 3
    requires forall p <- At(Last(ys), n).snd.accepted :: p != []
    requires forall p <- Peer(Last(ys), n).snd.accepted :: p != []
    requires !Unacked(At(Last(ys), n)) && CanReopen(cfg, Peer(Last(ys), n), At(Last(ys), n))
    requires |Peer(Last(ys), n).snd.accepted| < limit && |data| + 5 <= cfg.bufferSize
    ensures Reopens(cfg, opts, limit, true, evs, ys, n)
  {
    hide Sane, Init, Step, AdmittedRun, Unacked, CanReopen, ReadyForTx;
    var m := Other(n);
    var evs1, ys1 := PeerTakesAll(cfg, opts, limit, true, evs, ys, n);
    LeftOverReopens(cfg, opts, limit, false, evs1, ys1, m);
    var evs2: seq<Event>, ys2: seq<Sys> :| Continues(cfg, opts, limit, false, evs1, ys1, evs2, ys2)
                                           && InUse(Last(ys2)) && ReadyForTx(At(Last(ys2), m));
    hide Reopens;
    Together(cfg, opts, limit, true, false, evs, ys, evs1, ys1, evs2, ys2);
    NothingAccepted(cfg, opts, limit, evs1, ys1, evs2, ys2, n);
    NothingAccepted(cfg, opts, limit, evs1, ys1, evs2, ys2, m);
    StillFull(cfg, opts, limit, evs2, ys2, n);
    PeerSends(cfg, opts, limit, evs, ys, evs2, ys2, n, data);
  }

  // ---------------------------------------------------------------- if and only if

  /** Timer passes acknowledge: with delayed acknowledgements and a receive queue longer than two windows. */
  predicate PassesAck(cfg: Config, opts: Options) { opts.delayedAcks != 0 && cfg.inboxLen > 2 * opts.window }

  /** Exactly when the window of a side can open, even if everything sent so far is lost, for every option: after any
      run with both ends open and held and no empty payload accepted, if timer passes acknowledge, or the window is
      open already, or a segment is left to send again that will draw an acknowledgement; or, where users may send, if
      one of these opens the window of the peer and the peer can still have a payload accepted. */
  lemma ReopensExactly(cfg: Config, opts: Options, limit: nat, users: bool, evs: seq<Event>, ys: seq<Sys>,
                       n: RdpSystem.Node)
    requires Sane(cfg, opts, limit) && IsRun(cfg, opts, limit, evs, ys) && InUse(Last(ys)) && cfg.inboxLen >= 3
    requires forall p <- At(Last(ys), n).snd.accepted :: p != []
    requires forall p <- Peer(Last(ys), n).snd.accepted :: p != []
    ensures Reopens(cfg, opts, limit, users, evs, ys, n) <==>
            PassesAck(cfg, opts) || CanReopenWith(cfg, limit, users, At(Last(ys), n), Peer(Last(ys), n))
  {
    var c, p := At(Last(ys), n), Peer(Last(ys), n);
    hide Init, Step, Unacked, Lacks, ReadyForTx, Reopens;
    if PassesAck(cfg, opts) {
      ReopensDelayed(cfg, opts, limit, users, evs, ys, n);
    } else if CanReopen(cfg, c, p) {
      LeftOverReopens(cfg, opts, limit, users, evs, ys, n);
    } else if CanReopenWith(cfg, limit, users, c, p) {
      PeerSendReopens(cfg, opts, limit, evs, ys, n, if cfg.bufferSize > 5 then [0] else []);
    } else {
      NeverReopens(cfg, opts, limit, users, evs, ys, n);
    }
  }
}
