/** The RDP endpoint in the form of the source: the queue scans as loops that rotate a queue, and an object whose
    methods update the connection in place. Each is proved to do what the function of RdpModel says. */
module RdpEndpoint {
  import opened Base
  import opened SeqNum
  import opened RdpModel
  import RdpOrder

  // ---------------------------------------------------------------- queue scans

  /** csp_rdp_rx_queue_flush: after a delivery the scan starts over from the front of the queue. */
  method RxQueueFlush(cfg: Config, r: Rcv) returns (t: Rcv)
    ensures t == RxFlush(cfg, r, |r.rxq|)
  {
    t := r;
    var i, count := 0, |t.rxq|;
    while i < count
      invariant 0 <= i <= count == |t.rxq|
      invariant RxFlush(cfg, t, count - i) == RxFlush(cfg, r, |r.rxq|)
      decreases |t.rxq|, count - i
    {
      if cfg.inboxLen - |t.inbox| <= 2 {
        return;
      }
      var packet := t.rxq[0];
      t := t.(rxq := t.rxq[1..]);
      if packet.seqNr == Wrap(t.cur + 1) {
        t := Deliver(cfg, t, packet.data);
        t := t.(cur := Wrap(t.cur + 1));
        i, count := 0, |t.rxq|;
      } else {
        t := t.(rxq := t.rxq + [packet]);
        i := i + 1;
      }
    }
  }

  /** csp_rdp_seq_in_rx_queue: stops at the first match and leaves the queue rotated there. */
  method SeqInRxQueue(q: seq<Segment>, seqNr: u16) returns (found: bool, p: seq<Segment>)
    ensures (found, p) == ScanRx(q, seqNr, |q|)
    ensures found <==> exists s :: s in q && s.seqNr == seqNr
    ensures exists k :: 0 <= k <= |q| && p == q[k..] + q[..k]
  {
    RdpOrder.ScanFinds(q, seqNr, |q|);
    p := q;
    var i := 0;
    while i < |q|
      invariant 0 <= i <= |q| && p == q[i..] + q[..i]
      invariant ScanRx(p, seqNr, |q| - i) == ScanRx(q, seqNr, |q|)
    {
      var packet := p[0];
      p := p[1..] + [packet];
      assert p == q[i + 1..] + q[..i + 1];
      if packet.seqNr == seqNr {
        return true, p;
      }
      i := i + 1;
    }
    return false, p;
  }

  /** The loop of csp_rdp_send_eack: once round the reorder queue, noting numbers while 95 bytes last. */
  method ListRxQueue(q: seq<Segment>) returns (eacks: seq<u16>, p: seq<Segment>)
    ensures eacks == EackList(q) && p == q
  {
    p, eacks := q, [];
    var space := 100 - 5;
    var i := 0;
    while i < |q|
      invariant 0 <= i <= |q| && p == q[i..] + q[..i]
      invariant eacks == EackList(q[..i]) && space == 95 - 2 * |eacks|
    {
      var packet := p[0];
      p := p[1..];
      if space >= 2 {
        eacks := eacks + [packet.seqNr];
        space := space - 2;
      }
      p := p + [packet];
      assert q[..i + 1] == q[..i] + [q[i]];
      i := i + 1;
    }
    assert q[..|q|] == q;
  }

  lemma AnyAboveAppend(q: seq<u16>, x: u16, seqNr: u16)
    ensures AnyAbove(q + [x], seqNr) <==> AnyAbove(q, seqNr) || x > seqNr
  {
    assert x in q + [x] && forall y :: y in q ==> y in q + [x];
  }

  /** The inner loop of csp_rdp_flush_eack: one queue element against every number listed. */
  method CompareEacks(e: TxEntry, eacks: seq<u16>, now: u32, pt: u32) returns (found: bool, f: TxEntry)
    ensures found <==> e.seg.seqNr in eacks
    ensures f == Touch(e, eacks, now, pt)
  {
    found, f := false, e;
    var j := 0;
    while j < |eacks|
      invariant 0 <= j <= |eacks|
      invariant found <==> e.seg.seqNr in eacks[..j]
      invariant f == Touch(e, eacks[..j], now, pt)
    {
      assert eacks[..j + 1] == eacks[..j] + [eacks[j]];
      AnyAboveAppend(eacks[..j], eacks[j], e.seg.seqNr);
      if eacks[j] == f.seg.seqNr {
        found := true;
      }
      if eacks[j] > f.seg.seqNr {
        if TimeAfter(now, f.quarantine) {
          f := MadeDue(f, now, pt);
        }
      }
      j := j + 1;
    }
    assert eacks[..|eacks|] == eacks;
  }

  /** csp_rdp_flush_eack: once round the retransmit queue. */
  method FlushEack(q: seq<TxEntry>, eacks: seq<u16>, now: u32, pt: u32) returns (p: seq<TxEntry>)
    ensures p == EackFilter(q, eacks, now, pt)
  {
    p := q;
    ghost var kept: seq<TxEntry> := [];
    var i := 0;
    while i < |q|
      invariant 0 <= i <= |q| && p == q[i..] + kept
      invariant kept + EackFilter(q[i..], eacks, now, pt) == EackFilter(q, eacks, now, pt)
    {
      var packet := p[0];
      p := p[1..];
      var found, touched := CompareEacks(packet, eacks, now, pt);
      if !found {
        p := p + [touched];
        kept := kept + [touched];
      }
      i := i + 1;
    }
  }

  lemma PassTurn(q: seq<TxEntry>, i: nat, una: u16, rcvCur: u16, now: u32, pt: u32, kept: seq<TxEntry>)
    requires i < |q|
    ensures var e := q[i];
            kept + PassFilter(q[i..], una, rcvCur, now, pt)
            == if SeqBefore(e.seg.seqNr, una) then kept + PassFilter(q[i + 1..], una, rcvCur, now, pt)
               else if Due(e, now, pt)
               then kept + [e.(seg := e.seg.(ackNr := rcvCur), sentAt := now)]
                    + PassFilter(q[i + 1..], una, rcvCur, now, pt)
               else kept + [e] + PassFilter(q[i + 1..], una, rcvCur, now, pt)
  {
  }

  lemma SendTurn(q: seq<TxEntry>, i: nat, una: u16, rcvCur: u16, now: u32, pt: u32, sent: seq<Segment>)
    requires i < |q|
    ensures var e := q[i];
            sent + PassSends(q[i..], una, rcvCur, now, pt)
            == if !SeqBefore(e.seg.seqNr, una) && Due(e, now, pt)
               then sent + [e.seg.(ackNr := rcvCur)] + PassSends(q[i + 1..], una, rcvCur, now, pt)
               else sent + PassSends(q[i + 1..], una, rcvCur, now, pt)
  {
  }

  lemma PassEnd(una: u16, rcvCur: u16, now: u32, pt: u32)
    ensures PassFilter([], una, rcvCur, now, pt) == [] && PassSends([], una, rcvCur, now, pt) == []
  {
  }

  /** The message-timeout loop of csp_rdp_check_timeouts. */
  method CheckQueue(q: seq<TxEntry>, una: u16, rcvCur: u16, now: u32, pt: u32)
    returns (p: seq<TxEntry>, sent: seq<Segment>)
    ensures p == PassFilter(q, una, rcvCur, now, pt)
    ensures sent == PassSends(q, una, rcvCur, now, pt)
  {
    hide SeqBefore, TimeAfter, PassFilter, PassSends;
    p, sent := q, [];
    assert q[0..] == q;
    ghost var kept: seq<TxEntry> := [];
    ghost var all, resent := PassFilter(q, una, rcvCur, now, pt), PassSends(q, una, rcvCur, now, pt);
    var i := 0;
    while i < |q|
      invariant 0 <= i <= |q| && p == q[i..] + kept
      invariant kept + PassFilter(q[i..], una, rcvCur, now, pt) == all
      invariant sent + PassSends(q[i..], una, rcvCur, now, pt) == resent
    {
      var packet := p[0];
      p := p[1..];
      assert packet == q[i] && p == q[i + 1..] + kept;
      PassTurn(q, i, una, rcvCur, now, pt, kept);
      SendTurn(q, i, una, rcvCur, now, pt, sent);
      if !SeqBefore(packet.seg.seqNr, una) {
        if TimeAfter(now, packet.sentAt + pt) {
          packet := packet.(seg := packet.seg.(ackNr := rcvCur), sentAt := now);
          sent := sent + [packet.seg];
        }
        p := p + [packet];
        kept := kept + [packet];
      }
      i := i + 1;
    }
    PassEnd(una, rcvCur, now, pt);
    assert q[i..] == [];
  }

  // ---------------------------------------------------------------- the connection

  class Endpoint {
    const cfg: Config
    var conn: Conn

    constructor (cfg: Config, conn: Conn)
      ensures this.cfg == cfg && this.conn == conn
    {
      this.cfg, this.conn := cfg, conn;
    }

    method SendCmp(s: Segment, now: u32)
      modifies this`conn
      ensures conn == RdpModel.SendCmp(cfg, old(conn), s, now)
    {
      if s.syn && |conn.snd.txq| < 2 * cfg.maxWindow {
        conn := conn.(snd := conn.snd.(txq := conn.snd.txq + [TxEntry(s, now, cfg.junk)]));
      }
      conn := conn.(snd := conn.snd.(out := conn.snd.out + [s]));
      if s.ack {
        conn := conn.(rcvLsa := s.ackNr, ackTimestamp := now);
      }
    }

    method SendEack(now: u32)
      modifies this`conn
      ensures conn == RdpModel.SendCmp(cfg, old(conn), Eack(old(conn)), now)
    {
      var eacks, q := ListRxQueue(conn.rcv.rxq);
      conn := conn.(rcv := conn.rcv.(rxq := q));
      SendCmp(Segment(false, true, true, false, conn.snd.nxt, conn.rcv.cur, [], eacks, NO_OPTS), now);
    }

    method CheckAck(now: u32)
      modifies this`conn
      ensures conn == RdpModel.CheckAck(cfg, old(conn), now)
    {
      if cfg.inboxLen - |conn.rcv.inbox| <= 2 * Signed32(conn.opt.window) {
        return;
      }
      if ShouldAck(conn, now) {
        SendCmp(Ack(conn), now);
      }
    }

    /** csp_rdp_close_internal; the answer is CSP_ERR_AGAIN. */
    method CloseInternal(who: set<Closer>, sendRst: bool, now: u32) returns (again: bool)
      modifies this`conn
      ensures (conn, again) == RdpModel.CloseInternal(cfg, old(conn), who, sendRst, now)
    {
      if conn.state == Closed {
        return false;
      }
      conn := conn.(closedBy := conn.closedBy + who, closeLog := conn.closeLog + who);
      if conn.state != CloseWait {
        conn := conn.(state := CloseWait, timestamp := now);
        if sendRst {
          SendCmp(AckRst(conn), now);
        }
      }
      if conn.closedBy != ALL_CLOSERS {
        return true;
      }
      conn := conn.(state := Closed, closedBy := {});
      return false;
    }

    /** csp_conn_close; the queues are emptied one element at a time. */
    method ConnClose(who: set<Closer>, now: u32)
      modifies this`conn
      ensures conn == RdpModel.ConnClose(cfg, old(conn), who, now)
    {
      hide RdpModel.CloseInternal;
      if !conn.open {
        return;
      }
      var again := CloseInternal(who, true, now);
      if again {
        return;
      }
      ghost var c := conn;
      while conn.rcv.inbox != []
        invariant conn == c.(rcv := c.rcv.(inbox := conn.rcv.inbox))
        decreases |conn.rcv.inbox|
      {
        conn := conn.(rcv := conn.rcv.(inbox := conn.rcv.inbox[1..]));
      }
      while conn.snd.txq != []
        invariant conn == c.(rcv := c.rcv.(inbox := []), snd := c.snd.(txq := conn.snd.txq))
        decreases |conn.snd.txq|
      {
        conn := conn.(snd := conn.snd.(txq := conn.snd.txq[1..]));
      }
      while conn.rcv.rxq != []
        invariant conn == c.(rcv := c.rcv.(inbox := [], rxq := conn.rcv.rxq), snd := c.snd.(txq := []))
        decreases |conn.rcv.rxq|
      {
        conn := conn.(rcv := conn.rcv.(rxq := conn.rcv.rxq[1..]));
      }
      conn := conn.(open := false);
    }

    method DiscardClose(who: set<Closer>, now: u32)
      modifies this`conn
      ensures conn == RdpModel.DiscardClose(cfg, old(conn), who, now)
    {
      if conn.pending {
        ConnClose(who + {Userspace}, now);
      } else {
        ConnClose(who, now);
        if |conn.rcv.inbox| < cfg.inboxLen {
          conn := conn.(rcv := conn.rcv.(inbox := conn.rcv.inbox + [None]));
        }
      }
    }

    method CheckTimeouts(now: u32)
      modifies this`conn
      ensures conn == RdpModel.CheckTimeouts(cfg, old(conn), now)
    {
      hide TimeAfter, RdpModel.ConnClose, RdpModel.CheckAck, RxFlush, PassFilter, PassSends;
      if conn.pending {
        if TimeAfter(now, conn.timestamp + conn.opt.connTimeout) {
          ConnClose(ALL_CLOSERS, now);
          return;
        }
      }
      if conn.state == CloseWait {
        if TimeAfter(now, conn.timestamp + conn.opt.connTimeout) {
          ConnClose({Protocol, Timeout}, now);
        }
        return;
      }
      var q, sent := CheckQueue(conn.snd.txq, conn.snd.una, conn.rcv.cur, now, conn.opt.packetTimeout);
      conn := conn.(snd := conn.snd.(txq := q, out := conn.snd.out + sent));
      if conn.state == Open && conn.opt.delayedAcks != 0 {
        CheckAck(now);
      }
      var r := RxQueueFlush(cfg, conn.rcv);
      conn := conn.(rcv := r);
    }

    method RecvRst(s: Segment, now: u32)
      modifies this`conn
      ensures conn == RdpModel.RecvRst(cfg, old(conn), s, now)
    {
      if s.ack {
        conn := conn.(snd := conn.snd.(una := Wrap(s.ackNr + 1)));
      }
      if conn.state == Closed {
        return;
      }
      if conn.state == CloseWait {
        DiscardClose(if s.ack then {Protocol, Timeout} else {Protocol}, now);
      } else if s.seqNr == conn.rcv.cur + 1 {
        conn := conn.(state := CloseWait, timestamp := now);
        SendCmp(AckRst(conn), now);
        DiscardClose({Protocol, Timeout}, now);
      }
    }

    method RecvClosed(s: Segment, now: u32, iss: u16)
      modifies this`conn
      ensures conn == RdpModel.RecvClosed(cfg, old(conn), s, now, iss)
    {
      if !s.syn {
        SendCmp(Rst(conn), now);
        DiscardClose({Protocol}, now);
        return;
      }
      conn := conn.(snd := conn.snd.(iss := iss, nxt := Wrap(iss + 1), una := iss, started := true));
      conn := conn.(rcv := conn.rcv.(cur := s.seqNr, irs := s.seqNr, synced := true), rcvLsa := s.seqNr);
      conn := conn.(opt := s.opts, state := SynRcvd, closeLog := {});
      SendCmp(SynAck(conn), now);
    }

    method RecvSynSent(s: Segment, now: u32)
      modifies this`conn
      ensures conn == RdpModel.RecvSynSent(cfg, old(conn), s, now)
    {
      if s.syn && s.ack {
        conn := conn.(rcv := conn.rcv.(cur := s.seqNr, irs := s.seqNr, synced := true),
                      rcvLsa := Wrap(s.seqNr - 1), snd := conn.snd.(una := Wrap(s.ackNr + 1)),
                      ackTimestamp := now, state := Open);
        SendCmp(Ack(conn), now);
      } else if s.ack {
        SendCmp(Rst(conn), now);
      } else {
        DiscardClose({Protocol}, now);
      }
    }

    method RecvData(s: Segment, now: u32)
      modifies this`conn
      ensures conn == RdpModel.RecvData(cfg, old(conn), s, now)
    {
      if s.seqNr != Wrap(conn.rcv.cur + 1) {
        var found, q := SeqInRxQueue(conn.rcv.rxq, s.seqNr);
        conn := conn.(rcv := conn.rcv.(rxq := q));
        if found {
          CheckAck(now);
          return;
        }
        if |conn.rcv.rxq| < 2 * cfg.maxWindow {
          conn := conn.(rcv := conn.rcv.(rxq := conn.rcv.rxq + [s]));
        }
        SendEack(now);
        return;
      }
      if |conn.rcv.inbox| >= cfg.inboxLen {
        return;
      }
      conn := conn.(rcv := Deliver(cfg, conn.rcv, s.data).(cur := s.seqNr));
      CheckAck(now);
      var r := RxQueueFlush(cfg, conn.rcv);
      conn := conn.(rcv := r);
    }

    method RecvAccepted(s: Segment, now: u32)
      modifies this`conn
      ensures conn == RdpModel.RecvAccepted(cfg, old(conn), s, now)
    {
      conn := conn.(snd := conn.snd.(una := Wrap(s.ackNr + 1)));
      assert conn == TakeAck(old(conn), s);
      if s.eak {
        if s.eacks != [] {
          var q := FlushEack(conn.snd.txq, s.eacks, now, conn.opt.packetTimeout);
          conn := conn.(snd := conn.snd.(txq := q));
        }
      } else if s.data != [] {
        RecvData(s, now);
      }
    }

    method RecvOpen(s: Segment, now: u32, sockOk: bool)
      requires conn.state == SynRcvd || conn.state == Open
      modifies this`conn
      ensures conn == RdpModel.RecvOpen(cfg, old(conn), s, now, sockOk)
    {
      if s.syn || !s.ack {
        if s.seqNr != conn.rcv.irs {
          DiscardClose({Protocol}, now);
        }
        return;
      }
      if !SeqAcceptable(conn, s.seqNr) {
        if conn.state == SynRcvd {
          SendCmp(SynAck(conn), now);
        } else {
          SendEack(now);
        }
        return;
      }
      if !AckAcceptable(conn, s.ackNr) {
        return;
      }
      if conn.state == SynRcvd {
        if s.ackNr != conn.snd.iss {
          DiscardClose({Protocol}, now);
          return;
        }
        conn := conn.(state := Open);
        if conn.pending {
          if !sockOk {
            DiscardClose({Protocol}, now);
            return;
          }
          conn := conn.(pending := false, handle := true);
        }
      }
      RecvAccepted(s, now);
    }

    /** csp_rdp_new_packet; the answer is whether the caller must close the connection. */
    method NewPacket(s: Segment, now: u32, iss: u16, sockOk: bool) returns (mustClose: bool)
      modifies this`conn
      ensures conn == RdpModel.NewPacket(cfg, old(conn), s, now, iss, sockOk)
      ensures mustClose == MustClose(old(conn), s)
    {
      mustClose := false;
      if s.rst {
        mustClose := conn.state == Closed && conn.pending;
        RecvRst(s, now);
        return;
      }
      match conn.state {
        case Closed => RecvClosed(s, now, iss);
        case SynSent => RecvSynSent(s, now);
        case SynRcvd => RecvOpen(s, now, sockOk);
        case Open => RecvOpen(s, now, sockOk);
        case CloseWait =>
          if s.syn || !s.ack || !AckAcceptable(conn, s.ackNr) {
            return;
          }
          conn := conn.(snd := conn.snd.(una := Wrap(s.ackNr + 1)));
          SendCmp(AckRst(conn), now);
      }
    }

    /** The router's turn: a timer pass, then at most one segment. */
    method RouteWork(s: Option<Segment>, now: u32, iss: u16, sockOk: bool)
      modifies this`conn
      ensures conn == RdpModel.RouteWork(cfg, old(conn), s, now, iss, sockOk)
    {
      if conn.open {
        CheckTimeouts(now);
      }
      if s.None? || (!conn.open && !conn.listening) {
        return;
      }
      if !conn.open {
        conn := Reopen(conn, now);
      }
      var mustClose := NewPacket(s.value, now, iss, sockOk);
      if mustClose {
        ConnClose({Userspace}, now);
      }
    }

    method Send(data: Payload, now: u32) returns (r: SendResult)
      modifies this`conn
      ensures r == SendOutcome(cfg, old(conn), data)
      ensures conn == UserSend(cfg, old(conn), data, now)
    {
      if conn.state != Open {
        return Reset;
      }
      if !ReadyForTx(conn) {
        return TimedOut;
      }
      if |data| + 5 > cfg.bufferSize {
        return NoMem;
      }
      conn := conn.(snd := SndPush(cfg, conn.snd, data, conn.rcv.cur, now));
      return Sent;
    }

    /** csp_read: None when there is nothing to read, or when the reader is only being woken. */
    method Read(now: u32) returns (p: Option<Payload>)
      modifies this`conn
      ensures conn == UserRead(cfg, old(conn), now)
      ensures p == if old(conn).open && old(conn).rcv.inbox != [] then old(conn).rcv.inbox[0] else None
    {
      if !conn.open || conn.rcv.inbox == [] {
        return None;
      }
      p := conn.rcv.inbox[0];
      conn := conn.(rcv := RcvPop(conn.rcv));
      if conn.opt.delayedAcks != 0 {
        CheckAck(now);
      }
    }

    /** csp_close. */
    method Close(now: u32)
      modifies this`conn
      ensures conn == UserClose(cfg, old(conn), now)
    {
      ConnClose({Userspace}, now);
      conn := conn.(handle := false);
    }

    /** csp_connect and csp_rdp_connect up to the wait for the peer's answer. */
    method ConnectStart(opts: Options, now: u32, iss: u16)
      modifies this`conn
      ensures conn == RdpModel.ConnectStart(cfg, old(conn), opts, now, iss)
    {
      conn := conn.(open := true, timestamp := now, connecting := true, closeLog := {});
      conn := conn.(rcv := conn.rcv.(inbox := []));
      conn := conn.(pending := false);
      conn := conn.(opt := opts, ackTimestamp := now);
      conn := conn.(snd := conn.snd.(iss := iss, started := true));
      conn := conn.(snd := conn.snd.(nxt := Wrap(conn.snd.iss + 1)));
      conn := conn.(snd := conn.snd.(una := conn.snd.iss));
      conn := conn.(state := SynSent);
      SendCmp(Segment(true, false, false, false, conn.snd.iss, 0, [], [], opts), now);
    }

    /** csp_rdp_connect after the wait, and what csp_connect makes of its answer. */
    method ConnectEnd(woken: bool, now: u32) returns (ok: bool)
      modifies this`conn
      ensures conn == RdpModel.ConnectEnd(cfg, old(conn), woken, now)
      ensures ok <==> woken && old(conn).state == Open
    {
      ok := woken && conn.state == Open;
      if ok {
        conn := conn.(connecting := false, handle := true);
      } else {
        var again := CloseInternal({Protocol}, false, now);
        ConnClose({Userspace}, now);
        conn := conn.(connecting := false);
      }
    }
  }
}
