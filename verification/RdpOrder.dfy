/** Ordered delivery: what reaches the receiver's queue is always a prefix of what the sender accepted. */
module RdpOrder {
  import opened Base
  import opened SeqNum
  import opened RdpModel
  import opened RdpSystem
  import opened RdpClose

  /** With this many payloads accepted, two of them still never share a 16-bit number. */
  const ORDER_LIMIT: nat := 0xFFFF

  /** A segment that carries the payload its number stands for, counted from the sender's initial number. */
  predicate CarriesItsPayload(iss: u16, acc: seq<Payload>, s: Segment) {
    && s.data != []
    && Offset(iss + 1, s.seqNr) < |acc|
    && s.data == acc[Offset(iss + 1, s.seqNr)]
  }

  predicate WellSent(d: Snd, s: Segment) {
    && (s.data != [] ==> CarriesItsPayload(d.iss, d.accepted, s))
    && (s.syn ==> d.started && s.seqNr == d.iss)
  }

  /** What waits for retransmission is a SYN, or the payload its number stands for. */
  predicate WellKept(d: Snd, s: Segment) {
    && WellSent(d, s)
    && (!s.syn ==> Offset(d.iss + 1, s.seqNr) < |d.accepted| && s.data == d.accepted[Offset(d.iss + 1, s.seqNr)])
  }

  /** Everything this endpoint sent or may send again is well formed. */
  predicate SenderOk(d: Snd) {
    && |d.accepted| <= ORDER_LIMIT
    && (d.accepted != [] || d.txq != [] ==> d.started)
    && (d.started ==> d.nxt == Wrap(d.iss + 1 + |d.accepted|))
    && (forall s :: s in d.out ==> WellSent(d, s))
    && (forall e :: e in d.txq ==> WellKept(d, e.seg))
  }

  /** The payloads waiting in a receive queue, wake-up markers left out. */
  function Payloads(q: seq<Option<Payload>>): seq<Payload> {
    if q == [] then [] else (if q[0].Some? then [q[0].value] else []) + Payloads(q[1..])
  }

  /** This endpoint's receive side, against the initial number and the payloads of its peer. */
  predicate ReceiverOk(r: Rcv, iss: u16, acc: seq<Payload>) {
    && r.delivered <= acc
    && |acc| <= ORDER_LIMIT
    && (forall i :: 0 <= i < |r.delivered| ==> r.delivered[i] != [])
    && (r.synced ==> r.irs == iss && r.cur == Wrap(iss + |r.delivered|))
    && (!r.synced ==> r.delivered == [] && r.rxq == [])
    && (forall s :: s in r.rxq ==> CarriesItsPayload(iss, acc, s))
    && r.readLog + Payloads(r.inbox) <= r.delivered
  }

  /** How the connection state and the receive side go together. While data can still arrive, the reader has
      lost nothing. */
  predicate Coupled(st: RdpState, r: Rcv) {
    && (r.rxq != [] ==> st == Open || st == CloseWait)
    && (st == SynRcvd || st == Open ==> r.synced)
    && (st == SynSent ==> !r.synced)
    && (st == SynRcvd ==> r.delivered == [])
    && (st == SynSent || st == SynRcvd || st == Open ==> r.readLog + Payloads(r.inbox) == r.delivered)
  }

  predicate Ok(c: Conn, iss: u16, acc: seq<Payload>) {
    && SenderOk(c.snd) && ReceiverOk(c.rcv, iss, acc) && Coupled(c.state, c.rcv)
    && (c.state != Closed ==> c.snd.started)
  }

  /** The part of an endpoint its peer's receive side is judged against. */
  predicate SameIdentity(d: Snd, e: Snd) {
    e.started == d.started && e.iss == d.iss && e.accepted == d.accepted
  }

  // ---------------------------------------------------------------- the send side

  lemma EmitOk(cfg: Config, d: Snd, s: Segment, now: u32)
    requires SenderOk(d) && WellSent(d, s)
    ensures SenderOk(Emit(cfg, d, s, now)) && SameIdentity(d, Emit(cfg, d, s, now))
  {
    var e := Emit(cfg, d, s, now);
    forall x | x in e.out ensures WellSent(e, x) {
      assert x in d.out || x == s;
    }
    forall x | x in e.txq ensures WellKept(e, x.seg) {
      assert x in d.txq || x.seg == s;
    }
  }

  lemma PushOk(cfg: Config, d: Snd, data: Payload, ackNr: u16, now: u32)
    requires SenderOk(d) && d.started && |d.accepted| < ORDER_LIMIT
    ensures SenderOk(SndPush(cfg, d, data, ackNr, now))
  {
    var e := SndPush(cfg, d, data, ackNr, now);
    var s := Segment(false, true, false, false, d.nxt, ackNr, data, [], NO_OPTS);
    PushedIsKept(d, e, s);
    WrapStep(d.iss, 1 + |d.accepted|);
    forall x | x in e.out ensures WellSent(e, x) {
      assert x in d.out || x == s;
      MoreAccepted(d, e, x);
    }
    forall x | x in e.txq ensures WellKept(e, x.seg) {
      assert x in d.txq || x.seg == s;
      MoreAccepted(d, e, x.seg);
    }
  }

  lemma PushedIsKept(d: Snd, e: Snd, s: Segment)
    requires SenderOk(d) && d.started && |d.accepted| < ORDER_LIMIT && !s.syn && s.seqNr == d.nxt
    requires e.iss == d.iss && e.accepted == d.accepted + [s.data]
    ensures WellKept(e, s)
  {
  }

  lemma MoreAccepted(d: Snd, e: Snd, x: Segment)
    requires e.iss == d.iss && e.started == d.started && d.accepted <= e.accepted
    ensures WellSent(d, x) ==> WellSent(e, x)
    ensures WellKept(d, x) ==> WellKept(e, x)
  {
  }

  lemma {:induction false} EackFilterKeeps(q: seq<TxEntry>, eacks: seq<u16>, now: u32, pt: u32, d: Snd)
    requires forall e :: e in q ==> WellKept(d, e.seg)
    ensures forall e :: e in EackFilter(q, eacks, now, pt) ==> WellKept(d, e.seg)
  {
    if q != [] {
      EackFilterKeeps(q[1..], eacks, now, pt, d);
      assert q[0] in q;
    }
  }

  lemma EackFilterOk(d: Snd, eacks: seq<u16>, now: u32, pt: u32)
    requires SenderOk(d)
    ensures var e := d.(txq := EackFilter(d.txq, eacks, now, pt)); SenderOk(e) && SameIdentity(d, e)
  {
    EackFilterKeeps(d.txq, eacks, now, pt, d);
    var e := d.(txq := EackFilter(d.txq, eacks, now, pt));
    assert forall x :: WellSent(d, x) ==> WellSent(e, x);
    assert forall x :: WellKept(d, x) ==> WellKept(e, x);
  }

  lemma {:induction false} PassKeeps(q: seq<TxEntry>, una: u16, ackNr: u16, now: u32, pt: u32, d: Snd)
    requires forall e :: e in q ==> WellKept(d, e.seg)
    ensures forall e :: e in PassFilter(q, una, ackNr, now, pt) ==> WellKept(d, e.seg)
    ensures forall s :: s in PassSends(q, una, ackNr, now, pt) ==> WellSent(d, s)
  {
    if q != [] {
      PassKeeps(q[1..], una, ackNr, now, pt, d);
      assert q[0] in q;
      assert WellKept(d, q[0].seg.(ackNr := ackNr));
    }
  }

  lemma RetransmitOk(d: Snd, ackNr: u16, now: u32, pt: u32)
    requires SenderOk(d)
    ensures SenderOk(Retransmit(d, ackNr, now, pt)) && SameIdentity(d, Retransmit(d, ackNr, now, pt))
  {
    PassKeeps(d.txq, d.una, ackNr, now, pt, d);
    var e := Retransmit(d, ackNr, now, pt);
    assert forall s :: WellSent(d, s) ==> WellSent(e, s);
    assert forall s :: WellKept(d, s) ==> WellKept(e, s);
  }

  // ---------------------------------------------------------------- the receive side

  lemma {:induction false} PayloadsAppend(q: seq<Option<Payload>>, p: Option<Payload>)
    ensures Payloads(q + [p]) == Payloads(q) + (if p.Some? then [p.value] else [])
  {
    if q == [] {
      assert q + [p] == [p];
    } else {
      PayloadsAppend(q[1..], p);
      assert (q + [p])[1..] == q[1..] + [p];
    }
  }

  /** The only segment numbered one past the last delivery carries the next payload. */
  lemma NextIsNext(r: Rcv, iss: u16, acc: seq<Payload>, s: Segment)
    requires ReceiverOk(r, iss, acc) && r.synced
    requires CarriesItsPayload(iss, acc, s) && s.seqNr == Wrap(r.cur + 1)
    ensures |r.delivered| < |acc| && s.data == acc[|r.delivered|]
    ensures s.seqNr == Wrap(iss + (|r.delivered| + 1))
  {
    var d := |r.delivered|;
    WrapStep(iss, d);
    OffsetOfWrap(iss + 1, d);
  }

  lemma DeliverOk(cfg: Config, r: Rcv, iss: u16, acc: seq<Payload>, s: Segment)
    requires ReceiverOk(r, iss, acc) && Coupled(Open, r) && |r.inbox| < cfg.inboxLen
    requires CarriesItsPayload(iss, acc, s) && s.seqNr == Wrap(r.cur + 1)
    ensures var t := Deliver(cfg, r, s.data).(cur := s.seqNr); ReceiverOk(t, iss, acc) && Coupled(Open, t)
  {
    NextIsNext(r, iss, acc, s);
    PayloadsAppend(r.inbox, Some(s.data));
    var t := Deliver(cfg, r, s.data).(cur := s.seqNr);
    assert r.delivered == acc[..|r.delivered|];
    assert t.delivered == acc[..|t.delivered|];
    assert t.readLog + Payloads(t.inbox) == (r.readLog + Payloads(r.inbox)) + [s.data];
  }

  /** Part of the reorder queue, in any order, is as good as all of it. */
  lemma SubQueueOk(r: Rcv, iss: u16, acc: seq<Payload>, q: seq<Segment>)
    requires ReceiverOk(r, iss, acc) && Coupled(Open, r) && r.rxq != [] && forall x :: x in q ==> x in r.rxq
    ensures ReceiverOk(r.(rxq := q), iss, acc) && Coupled(Open, r.(rxq := q))
    ensures CarriesItsPayload(iss, acc, r.rxq[0])
  {
  }

  lemma {:induction false} RxFlushOk(cfg: Config, r: Rcv, iss: u16, acc: seq<Payload>, i: nat)
    requires ReceiverOk(r, iss, acc) && Coupled(Open, r) && i <= |r.rxq|
    ensures ReceiverOk(RxFlush(cfg, r, i), iss, acc) && Coupled(Open, RxFlush(cfg, r, i))
    decreases |r.rxq|, i
  {
    hide ReceiverOk, Coupled, CarriesItsPayload, Deliver;
    if i == 0 || cfg.inboxLen - |r.inbox| <= 2 {
    } else {
      var s, rest := r.rxq[0], r.rxq[1..];
      assert s in r.rxq && forall x :: x in rest ==> x in r.rxq;
      if s.seqNr == Wrap(r.cur + 1) {
        var r1 := r.(rxq := rest);
        SubQueueOk(r, iss, acc, rest);
        DeliverOk(cfg, r1, iss, acc, s);
        DeliverFrame(cfg, r1, s.data);
        RxFlushOk(cfg, Deliver(cfg, r1, s.data).(cur := Wrap(r.cur + 1)), iss, acc, |r.rxq| - 1);
      } else {
        var r2 := r.(rxq := rest + [s]);
        SubQueueOk(r, iss, acc, rest + [s]);
        RxFlushOk(cfg, r2, iss, acc, i - 1);
      }
    }
  }

  lemma DeliverFrame(cfg: Config, r: Rcv, p: Payload)
    ensures Deliver(cfg, r, p).rxq == r.rxq
  {
  }

  /** Looking a number up only rotates the queue. */
  lemma {:induction false} ScanRxKeeps(q: seq<Segment>, seqNr: u16, i: nat)
    requires i <= |q|
    ensures multiset(ScanRx(q, seqNr, i).1) == multiset(q)
    ensures forall x :: x in ScanRx(q, seqNr, i).1 <==> x in q
    decreases i
  {
    if i > 0 {
      var q1 := q[1..] + [q[0]];
      assert q == [q[0]] + q[1..];
      assert forall x :: x in q1 <==> x in q;
      if q[0].seqNr != seqNr {
        ScanRxKeeps(q1, seqNr, i - 1);
      }
    }
  }

  /** The scan of the first `i` elements finds a number exactly if one of them has it. */
  lemma {:induction false} ScanFinds(q: seq<Segment>, seqNr: u16, i: nat)
    requires i <= |q|
    ensures ScanRx(q, seqNr, i).0 <==> exists j :: 0 <= j < i && q[j].seqNr == seqNr
    decreases i
  {
    if i > 0 && q[0].seqNr != seqNr {
      var q1 := q[1..] + [q[0]];
      ScanFinds(q1, seqNr, i - 1);
      if j :| 0 <= j < i && q[j].seqNr == seqNr {
        assert q1[j - 1] == q[j];
      }
    }
  }

  lemma ScanRxOk(r: Rcv, iss: u16, acc: seq<Payload>, seqNr: u16)
    requires ReceiverOk(r, iss, acc) && Coupled(Open, r)
    ensures var t := r.(rxq := ScanRx(r.rxq, seqNr, |r.rxq|).1); ReceiverOk(t, iss, acc) && Coupled(Open, t)
  {
    ScanRxKeeps(r.rxq, seqNr, |r.rxq|);
  }

  lemma WakeReaderOk(cfg: Config, r: Rcv, iss: u16, acc: seq<Payload>, st: RdpState)
    requires ReceiverOk(r, iss, acc) && Coupled(st, r)
    ensures ReceiverOk(WakeReader(cfg, r), iss, acc) && Coupled(st, WakeReader(cfg, r))
  {
    PayloadsAppend(r.inbox, None);
  }

  lemma PopOk(r: Rcv, iss: u16, acc: seq<Payload>, st: RdpState)
    requires ReceiverOk(r, iss, acc) && Coupled(st, r) && r.inbox != []
    ensures ReceiverOk(RcvPop(r), iss, acc) && Coupled(st, RcvPop(r))
  {
  }

  // ---------------------------------------------------------------- the routines

  lemma SendCmpOk(cfg: Config, c: Conn, iss: u16, acc: seq<Payload>, s: Segment, now: u32)
    requires Ok(c, iss, acc) && WellSent(c.snd, s)
    ensures Ok(SendCmp(cfg, c, s, now), iss, acc) && SameIdentity(c.snd, SendCmp(cfg, c, s, now).snd)
  {
    EmitOk(cfg, c.snd, s, now);
  }

  lemma TakeAckOk(c: Conn, s: Segment, iss: u16, acc: seq<Payload>)
    requires Ok(c, iss, acc)
    ensures Ok(TakeAck(c, s), iss, acc)
  {
  }

  lemma FlushOk(c: Conn, iss: u16, acc: seq<Payload>)
    requires SenderOk(c.snd) && ReceiverOk(c.rcv, iss, acc) && c.state == Closed
    ensures Ok(Flush(c), iss, acc) && SameIdentity(c.snd, Flush(c).snd)
  {
  }

  lemma CloseInternalOk(cfg: Config, c: Conn, who: set<Closer>, rst: bool, iss: u16, acc: seq<Payload>, now: u32)
    requires Ok(c, iss, acc)
    ensures var (d, again) := CloseInternal(cfg, c, who, rst, now);
            && SenderOk(d.snd) && ReceiverOk(d.rcv, iss, acc) && SameIdentity(c.snd, d.snd)
            && d.state == (if again then CloseWait else Closed) && (again ==> Ok(d, iss, acc))
  {
    hide SenderOk, ReceiverOk, Payloads;
    if c.state != Closed && c.state != CloseWait {
      EmitOk(cfg, c.snd, AckRst(c), now);
    }
  }

  lemma ConnCloseOk(cfg: Config, c: Conn, who: set<Closer>, iss: u16, acc: seq<Payload>, now: u32)
    requires Ok(c, iss, acc)
    ensures Ok(ConnClose(cfg, c, who, now), iss, acc) && SameIdentity(c.snd, ConnClose(cfg, c, who, now).snd)
  {
    if c.open {
      CloseInternalOk(cfg, c, who, true, iss, acc, now);
      var (d, again) := CloseInternal(cfg, c, who, true, now);
      if !again {
        FlushOk(d, iss, acc);
      }
    }
  }

  lemma DiscardCloseOk(cfg: Config, c: Conn, who: set<Closer>, iss: u16, acc: seq<Payload>, now: u32)
    requires Ok(c, iss, acc)
    ensures Ok(DiscardClose(cfg, c, who, now), iss, acc) && SameIdentity(c.snd, DiscardClose(cfg, c, who, now).snd)
  {
    if c.pending {
      ConnCloseOk(cfg, c, who + {Userspace}, iss, acc, now);
    } else {
      ConnCloseOk(cfg, c, who, iss, acc, now);
      var d := ConnClose(cfg, c, who, now);
      WakeReaderOk(cfg, d.rcv, iss, acc, d.state);
    }
  }

  lemma CheckAckOk(cfg: Config, c: Conn, iss: u16, acc: seq<Payload>, now: u32)
    requires Ok(c, iss, acc)
    ensures Ok(CheckAck(cfg, c, now), iss, acc) && SameIdentity(c.snd, CheckAck(cfg, c, now).snd)
    ensures CheckAck(cfg, c, now).state == c.state && CheckAck(cfg, c, now).rcv == c.rcv
  {
    EmitOk(cfg, c.snd, Ack(c), now);
  }

  lemma MessageTimersOk(cfg: Config, c: Conn, iss: u16, acc: seq<Payload>, now: u32)
    requires Ok(c, iss, acc) && c.state != CloseWait
    ensures Ok(MessageTimers(cfg, c, now), iss, acc) && SameIdentity(c.snd, MessageTimers(cfg, c, now).snd)
  {
    RetransmitOk(c.snd, c.rcv.cur, now, c.opt.packetTimeout);
    var c1 := c.(snd := Retransmit(c.snd, c.rcv.cur, now, c.opt.packetTimeout));
    assert Ok(c1, iss, acc);
    CheckAckOk(cfg, c1, iss, acc, now);
    if c.rcv.rxq != [] {
      RxFlushOk(cfg, c.rcv, iss, acc, |c.rcv.rxq|);
    }
  }

  lemma CheckTimeoutsOk(cfg: Config, c: Conn, iss: u16, acc: seq<Payload>, now: u32)
    requires Ok(c, iss, acc)
    ensures Ok(CheckTimeouts(cfg, c, now), iss, acc) && SameIdentity(c.snd, CheckTimeouts(cfg, c, now).snd)
  {
    if c.pending && ConnExpired(c, now) {
      ConnCloseOk(cfg, c, ALL_CLOSERS, iss, acc, now);
    } else if c.state != CloseWait {
      MessageTimersOk(cfg, c, iss, acc, now);
    } else {
      ConnCloseOk(cfg, c, {Protocol, Timeout}, iss, acc, now);
    }
  }

  lemma AnswerRstOk(cfg: Config, c: Conn, iss: u16, acc: seq<Payload>, now: u32)
    requires Ok(c, iss, acc) && c.state != Closed
    ensures Ok(AnswerRst(cfg, c, now), iss, acc) && SameIdentity(c.snd, AnswerRst(cfg, c, now).snd)
  {
    var c1 := c.(state := CloseWait, timestamp := now);
    SendCmpOk(cfg, c1, iss, acc, AckRst(c1), now);
    DiscardCloseOk(cfg, SendCmp(cfg, c1, AckRst(c1), now), {Protocol, Timeout}, iss, acc, now);
  }

  lemma RecvRstOk(cfg: Config, c: Conn, s: Segment, iss: u16, acc: seq<Payload>, now: u32)
    requires Ok(c, iss, acc)
    ensures Ok(RecvRst(cfg, c, s, now), iss, acc) && SameIdentity(c.snd, RecvRst(cfg, c, s, now).snd)
  {
    var c1 := if s.ack then TakeAck(c, s) else c;
    TakeAckOk(c, s, iss, acc);
    if c.state == CloseWait {
      DiscardCloseOk(cfg, c1, if s.ack then {Protocol, Timeout} else {Protocol}, iss, acc, now);
    } else if c.state != Closed && s.seqNr == c.rcv.cur + 1 {
      AnswerRstOk(cfg, c1, iss, acc, now);
    }
  }

  lemma RecvAheadOk(cfg: Config, c: Conn, s: Segment, iss: u16, acc: seq<Payload>, now: u32)
    requires Ok(c, iss, acc) && c.state == Open && CarriesItsPayload(iss, acc, s)
    ensures Ok(RecvAhead(cfg, c, s, now), iss, acc) && SameIdentity(c.snd, RecvAhead(cfg, c, s, now).snd)
  {
    ScanRxOk(c.rcv, iss, acc, s.seqNr);
    var (found, q) := ScanRx(c.rcv.rxq, s.seqNr, |c.rcv.rxq|);
    var c1 := c.(rcv := c.rcv.(rxq := q));
    if found {
      CheckAckOk(cfg, c1, iss, acc, now);
    } else {
      var c2 := c1.(rcv := RxAdd(cfg, c1.rcv, s));
      assert ReceiverOk(c2.rcv, iss, acc);
      SendCmpOk(cfg, c2, iss, acc, Eack(c2), now);
    }
  }

  lemma RecvInOrderOk(cfg: Config, c: Conn, s: Segment, iss: u16, acc: seq<Payload>, now: u32)
    requires Ok(c, iss, acc) && c.state == Open && CarriesItsPayload(iss, acc, s)
    requires s.seqNr == Wrap(c.rcv.cur + 1)
    ensures Ok(RecvInOrder(cfg, c, s, now), iss, acc) && SameIdentity(c.snd, RecvInOrder(cfg, c, s, now).snd)
  {
    if |c.rcv.inbox| < cfg.inboxLen {
      DeliverOk(cfg, c.rcv, iss, acc, s);
      var c1 := c.(rcv := Deliver(cfg, c.rcv, s.data).(cur := s.seqNr));
      CheckAckOk(cfg, c1, iss, acc, now);
      RxFlushOk(cfg, c1.rcv, iss, acc, |c1.rcv.rxq|);
    }
  }

  lemma RecvAcceptedOk(cfg: Config, c: Conn, s: Segment, iss: u16, acc: seq<Payload>, now: u32)
    requires Ok(c, iss, acc) && c.state == Open
    requires s.data != [] ==> CarriesItsPayload(iss, acc, s)
    ensures Ok(RecvAccepted(cfg, c, s, now), iss, acc) && SameIdentity(c.snd, RecvAccepted(cfg, c, s, now).snd)
  {
    var c1 := TakeAck(c, s);
    TakeAckOk(c, s, iss, acc);
    assert SameIdentity(c.snd, c1.snd);
    if s.eak {
      EackFilterOk(c1.snd, s.eacks, now, c1.opt.packetTimeout);
    } else if s.data != [] {
      if s.seqNr != Wrap(c.rcv.cur + 1) {
        assert RecvAccepted(cfg, c, s, now) == RecvAhead(cfg, c1, s, now);
        RecvAheadOk(cfg, c1, s, iss, acc, now);
      } else {
        assert RecvAccepted(cfg, c, s, now) == RecvInOrder(cfg, c1, s, now);
        RecvInOrderOk(cfg, c1, s, iss, acc, now);
      }
    }
  }

  lemma RecvOpenOk(cfg: Config, c: Conn, s: Segment, iss: u16, acc: seq<Payload>, now: u32, sockOk: bool)
    requires Ok(c, iss, acc) && (c.state == SynRcvd || c.state == Open)
    requires s.data != [] ==> CarriesItsPayload(iss, acc, s)
    ensures Ok(RecvOpen(cfg, c, s, now, sockOk), iss, acc)
    ensures SameIdentity(c.snd, RecvOpen(cfg, c, s, now, sockOk).snd)
  {
    hide SeqAcceptable, AckAcceptable, RecvAccepted, DiscardClose, SendCmp, ReceiverOk, SenderOk;
    if s.syn || !s.ack {
      DiscardCloseOk(cfg, c, {Protocol}, iss, acc, now);
    } else if !SeqAcceptable(c, s.seqNr) {
      SendCmpOk(cfg, c, iss, acc, SynAck(c), now);
      SendCmpOk(cfg, c, iss, acc, Eack(c), now);
    } else if AckAcceptable(c, s.ackNr) {
      if c.state == Open {
        RecvAcceptedOk(cfg, c, s, iss, acc, now);
      } else if s.ackNr != c.snd.iss {
        DiscardCloseOk(cfg, c, {Protocol}, iss, acc, now);
      } else if c.pending && !sockOk {
        DiscardCloseOk(cfg, c.(state := Open), {Protocol}, iss, acc, now);
      } else {
        RecvAcceptedOk(cfg, HandOver(c), s, iss, acc, now);
      }
    }
  }

  lemma AcceptOk(c: Conn, s: Segment, own: u16, iss: u16, acc: seq<Payload>)
    requires Ok(c, iss, acc) && c.state == Closed && !c.snd.started && !c.rcv.synced && s.seqNr == iss
    ensures Ok(Accept(c, s, own), iss, acc)
  {
  }

  lemma EstablishedOk(c: Conn, s: Segment, now: u32, iss: u16, acc: seq<Payload>)
    requires Ok(c, iss, acc) && c.state == SynSent && s.seqNr == iss
    ensures Ok(Established(c, s, now), iss, acc)
  {
  }

  lemma RecvClosedOk(cfg: Config, c: Conn, s: Segment, iss: u16, acc: seq<Payload>, now: u32, own: u16)
    requires Ok(c, iss, acc) && c.state == Closed
    requires s.syn ==> s.seqNr == iss && !c.snd.started && !c.rcv.synced
    ensures Ok(RecvClosed(cfg, c, s, now, own), iss, acc)
    ensures RecvClosed(cfg, c, s, now, own).snd.accepted == c.snd.accepted
    ensures !s.syn ==> SameIdentity(c.snd, RecvClosed(cfg, c, s, now, own).snd)
  {
    if s.syn {
      AcceptOk(c, s, own, iss, acc);
      var c1 := Accept(c, s, own);
      SendCmpOk(cfg, c1, iss, acc, SynAck(c1), now);
    } else {
      SendCmpOk(cfg, c, iss, acc, Rst(c), now);
      DiscardCloseOk(cfg, SendCmp(cfg, c, Rst(c), now), {Protocol}, iss, acc, now);
    }
  }

  lemma RecvSynSentOk(cfg: Config, c: Conn, s: Segment, iss: u16, acc: seq<Payload>, now: u32)
    requires Ok(c, iss, acc) && c.state == SynSent
    requires s.syn ==> s.seqNr == iss
    ensures Ok(RecvSynSent(cfg, c, s, now), iss, acc) && SameIdentity(c.snd, RecvSynSent(cfg, c, s, now).snd)
  {
    if s.syn && s.ack {
      EstablishedOk(c, s, now, iss, acc);
      var c1 := Established(c, s, now);
      SendCmpOk(cfg, c1, iss, acc, Ack(c1), now);
    } else if s.ack {
      SendCmpOk(cfg, c, iss, acc, Rst(c), now);
    } else {
      DiscardCloseOk(cfg, c, {Protocol}, iss, acc, now);
    }
  }

  lemma RecvCloseWaitOk(cfg: Config, c: Conn, s: Segment, iss: u16, acc: seq<Payload>, now: u32)
    requires Ok(c, iss, acc) && c.state == CloseWait
    ensures Ok(RecvCloseWait(cfg, c, s, now), iss, acc) && SameIdentity(c.snd, RecvCloseWait(cfg, c, s, now).snd)
  {
  }

  /** Any segment the peer really sent leaves the endpoint well formed, in every state. */
  lemma NewPacketOk(cfg: Config, c: Conn, s: Segment, iss: u16, acc: seq<Payload>, now: u32, own: u16, sockOk: bool)
    requires Ok(c, iss, acc)
    requires s.data != [] ==> CarriesItsPayload(iss, acc, s)
    requires s.syn ==> s.seqNr == iss
    requires s.syn && c.state == Closed ==> !c.snd.started && !c.rcv.synced
    ensures Ok(NewPacket(cfg, c, s, now, own, sockOk), iss, acc)
    ensures NewPacket(cfg, c, s, now, own, sockOk).snd.accepted == c.snd.accepted
    ensures c.snd.started ==> SameIdentity(c.snd, NewPacket(cfg, c, s, now, own, sockOk).snd)
  {
    if s.rst {
      RecvRstOk(cfg, c, s, iss, acc, now);
    } else if c.state == Closed {
      RecvClosedOk(cfg, c, s, iss, acc, now, own);
    } else if c.state == SynSent {
      RecvSynSentOk(cfg, c, s, iss, acc, now);
    } else if c.state == CloseWait {
      RecvCloseWaitOk(cfg, c, s, iss, acc, now);
    } else {
      RecvOpenOk(cfg, c, s, iss, acc, now, sockOk);
    }
  }

  lemma RoutePacketOk(cfg: Config, c: Conn, s: Segment, iss: u16, acc: seq<Payload>, now: u32, own: u16, sockOk: bool)
    requires Ok(c, iss, acc) && CtlOk(c)
    requires s.data != [] ==> CarriesItsPayload(iss, acc, s)
    requires s.syn ==> s.seqNr == iss
    requires s.syn && c.snd.started ==> c.open
    ensures Ok(RoutePacket(cfg, c, s, now, own, sockOk), iss, acc)
    ensures RoutePacket(cfg, c, s, now, own, sockOk).snd.accepted == c.snd.accepted
    ensures c.snd.started ==> SameIdentity(c.snd, RoutePacket(cfg, c, s, now, own, sockOk).snd)
  {
    if c.open {
      NewPacketOk(cfg, c, s, iss, acc, now, own, sockOk);
    } else if c.listening {
      var c1 := Reopen(c, now);
      ReopenOk(c, now, iss, acc);
      NewPacketOk(cfg, c1, s, iss, acc, now, own, sockOk);
      ConnCloseOk(cfg, NewPacket(cfg, c1, s, now, own, sockOk), {Userspace}, iss, acc, now);
    }
  }

  lemma ReopenOk(c: Conn, now: u32, iss: u16, acc: seq<Payload>)
    requires Ok(c, iss, acc) && c.state == Closed
    ensures Ok(Reopen(c, now), iss, acc) && SameIdentity(c.snd, Reopen(c, now).snd)
  {
  }

  lemma TimerPassOk(cfg: Config, c: Conn, iss: u16, acc: seq<Payload>, now: u32)
    requires Ok(c, iss, acc) && CtlOk(c)
    ensures Ok(TimerPass(cfg, c, now), iss, acc) && SameIdentity(c.snd, TimerPass(cfg, c, now).snd)
    ensures CtlOk(TimerPass(cfg, c, now))
  {
    if c.open {
      CheckTimeoutsOk(cfg, c, iss, acc, now);
      CheckTimeoutsCtl(cfg, c, now);
    }
  }

  lemma RouteWorkOk(cfg: Config, c: Conn, peer: Conn, s: Option<Segment>, now: u32, own: u16, sockOk: bool)
    requires Ok(c, peer.snd.iss, peer.snd.accepted) && CtlOk(c) && SenderOk(peer.snd)
    requires s.Some? ==> s.value in peer.snd.out && SingleUse(cfg, c, s.value, now)
    ensures Ok(RouteWork(cfg, c, s, now, own, sockOk), peer.snd.iss, peer.snd.accepted)
    ensures RouteWork(cfg, c, s, now, own, sockOk).snd.accepted == c.snd.accepted
    ensures c.snd.started ==> SameIdentity(c.snd, RouteWork(cfg, c, s, now, own, sockOk).snd)
  {
    TimerPassOk(cfg, c, peer.snd.iss, peer.snd.accepted, now);
    if s.Some? {
      assert WellSent(peer.snd, s.value);
      RoutePacketOk(cfg, TimerPass(cfg, c, now), s.value, peer.snd.iss, peer.snd.accepted, now, own, sockOk);
    }
  }

  lemma ConnectStartOk(cfg: Config, c: Conn, opts: Options, now: u32, own: u16, iss: u16, acc: seq<Payload>)
    requires Ok(c, iss, acc) && CtlOk(c) && !c.snd.started && !c.rcv.synced
    ensures Ok(ConnectStart(cfg, c, opts, now, own), iss, acc)
    ensures ConnectStart(cfg, c, opts, now, own).snd.accepted == c.snd.accepted
  {
  }

  lemma ConnectEndOk(cfg: Config, c: Conn, woken: bool, now: u32, iss: u16, acc: seq<Payload>)
    requires Ok(c, iss, acc) && CtlOk(c) && c.connecting
    ensures Ok(ConnectEnd(cfg, c, woken, now), iss, acc)
    ensures SameIdentity(c.snd, ConnectEnd(cfg, c, woken, now).snd)
  {
    if !(woken && c.state == Open) {
      CloseInternalOk(cfg, c, {Protocol}, false, iss, acc, now);
      ConnCloseOk(cfg, CloseInternal(cfg, c, {Protocol}, false, now).0, {Userspace}, iss, acc, now);
    }
  }

  lemma UserReadOk(cfg: Config, c: Conn, now: u32, iss: u16, acc: seq<Payload>)
    requires Ok(c, iss, acc)
    ensures Ok(UserRead(cfg, c, now), iss, acc) && SameIdentity(c.snd, UserRead(cfg, c, now).snd)
  {
    if c.open && c.rcv.inbox != [] {
      PopOk(c.rcv, iss, acc, c.state);
      CheckAckOk(cfg, c.(rcv := RcvPop(c.rcv)), iss, acc, now);
    }
  }

  /** One node acts: it stays well formed against its peer, and what its peer knows of it only grows. */
  lemma DoOk(cfg: Config, opts: Options, limit: nat, c: Conn, peer: Conn, act: Act)
    requires Ok(c, peer.snd.iss, peer.snd.accepted) && CtlOk(c) && SenderOk(peer.snd)
    requires Enabled(cfg, limit, c, peer, act) && limit <= ORDER_LIMIT
    ensures Ok(Do(cfg, opts, c, act), peer.snd.iss, peer.snd.accepted)
    ensures c.snd.accepted <= Do(cfg, opts, c, act).snd.accepted
    ensures |Do(cfg, opts, c, act).snd.accepted| <= |c.snd.accepted| + if act.Send? then 1 else 0
    ensures c.snd.started ==> Do(cfg, opts, c, act).snd.started && Do(cfg, opts, c, act).snd.iss == c.snd.iss
  {
    match act
    case Connect(now, iss) => ConnectStartOk(cfg, c, opts, now, iss, peer.snd.iss, peer.snd.accepted);
    case ConnectDone(now, woken) => ConnectEndOk(cfg, c, woken, now, peer.snd.iss, peer.snd.accepted);
    case Route(s, now, iss, sockOk) => RouteWorkOk(cfg, c, peer, s, now, iss, sockOk);
    case Send(data, now) =>
      if SendOutcome(cfg, c, data) == Sent {
        PushOk(cfg, c.snd, data, c.rcv.cur, now);
      }
    case Read(now) => UserReadOk(cfg, c, now, peer.snd.iss, peer.snd.accepted);
    case Close(now) => ConnCloseOk(cfg, c, {Userspace}, peer.snd.iss, peer.snd.accepted, now);
  }

  /** Both endpoints are well formed, each against the other. */
  predicate Inv(y: Sys) {
    && CtlOk(y.a) && CtlOk(y.b)
    && Ok(y.a, y.b.snd.iss, y.b.snd.accepted) && Ok(y.b, y.a.snd.iss, y.a.snd.accepted)
    && (y.a.rcv.synced ==> y.b.snd.started)
    && (y.b.rcv.synced ==> y.a.snd.started)
  }

  /** A receive side does not mind its peer accepting more, or starting before it heard of it. */
  lemma PeerGrows(r: Rcv, iss: u16, acc: seq<Payload>, iss': u16, acc': seq<Payload>)
    requires ReceiverOk(r, iss, acc) && acc <= acc' && |acc'| <= ORDER_LIMIT
    requires r.synced ==> iss' == iss
    ensures ReceiverOk(r, iss', acc')
  {
  }

  lemma StepInv(cfg: Config, opts: Options, limit: nat, y: Sys, ev: Event, z: Sys)
    requires Inv(y) && Step(cfg, opts, limit, y, ev, z) && limit <= ORDER_LIMIT
    ensures Inv(z)
  {
    var c, p := At(y, ev.node), Peer(y, ev.node);
    var d := Do(cfg, opts, c, ev.act);
    EnabledCanAct(cfg, limit, c, p, ev.act);
    DoCtl(cfg, opts, c, ev.act);
    DoOk(cfg, opts, limit, c, p, ev.act);
    PeerGrows(p.rcv, c.snd.iss, c.snd.accepted, d.snd.iss, d.snd.accepted);
    if ev.act.Route? && ev.act.s.Some? {
      assert WellSent(p.snd, ev.act.s.value);
    }
  }

  lemma {:induction false} RunInv(cfg: Config, opts: Options, limit: nat, evs: seq<Event>, ys: seq<Sys>, i: nat)
    requires IsRun(cfg, opts, limit, evs, ys) && i <= |evs| && limit <= ORDER_LIMIT
    ensures Inv(ys[i])
  {
    if i > 0 {
      RunInv(cfg, opts, limit, evs, ys, i - 1);
      assert Step(cfg, opts, limit, ys[i - 1], evs[i - 1], ys[i - 1 + 1]);
      StepInv(cfg, opts, limit, ys[i - 1], evs[i - 1], ys[i]);
    }
  }

  /** Ordered delivery, both ways at once, in every state of every run: what was put on a connection's queue is a
      prefix of what the other side's csp_rdp_send accepted, and what the user has read is a prefix of that. No
      segment is skipped, repeated or altered, wherever the 16-bit numbers start and wrap. */
  lemma OrderedDelivery(cfg: Config, opts: Options, limit: nat, evs: seq<Event>, ys: seq<Sys>, i: nat, n: Node)
    requires IsRun(cfg, opts, limit, evs, ys) && i <= |evs| && limit <= ORDER_LIMIT
    ensures At(ys[i], n).rcv.delivered <= Peer(ys[i], n).snd.accepted
    ensures At(ys[i], n).rcv.readLog <= At(ys[i], n).rcv.delivered
    ensures At(ys[i], n).state == Open ==>
              At(ys[i], n).rcv.delivered == At(ys[i], n).rcv.readLog + Payloads(At(ys[i], n).rcv.inbox)
  {
    RunInv(cfg, opts, limit, evs, ys, i);
  }

  /** An empty payload is accepted and numbered but never delivered, so nothing behind it ever is. */
  lemma EmptyPayloadBlocks(cfg: Config, opts: Options, limit: nat, evs: seq<Event>, ys: seq<Sys>,
                           i: nat, n: Node, k: nat)
    requires IsRun(cfg, opts, limit, evs, ys) && i <= |evs| && limit <= ORDER_LIMIT
    requires k < |Peer(ys[i], n).snd.accepted| && Peer(ys[i], n).snd.accepted[k] == []
    ensures |At(ys[i], n).rcv.delivered| <= k
  {
    RunInv(cfg, opts, limit, evs, ys, i);
  }
}
