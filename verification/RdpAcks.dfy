/** What acknowledgements say: an endpoint never acknowledges, cumulatively or selectively, a segment it does not
    have, and the retransmit queue stays an ordered list of distinct numbers. */
module RdpAcks {
  import opened SeqNum
  import opened RdpModel
  import opened RdpSystem
  import opened RdpClose
  import opened RdpOrder

  // ---------------------------------------------------------------- the receive side only gains

  /** The receiver has this number: delivered already, or waiting in the reorder queue. */
  predicate Covers(r: Rcv, x: u16) {
    || 1 <= Offset(r.irs, x) <= |r.delivered|
    || exists t :: t in r.rxq && t.seqNr == x
  }

  predicate Grows(r: Rcv, t: Rcv) {
    && t.irs == r.irs && t.synced == r.synced && |r.delivered| <= |t.delivered|
    && forall x: u16 :: Covers(r, x) ==> Covers(t, x)
  }

  lemma DeliverGrows(cfg: Config, r: Rcv, iss: u16, acc: seq<Payload>, q: seq<Segment>, s: Segment)
    requires ReceiverOk(r, iss, acc) && r.synced && |r.inbox| < cfg.inboxLen
    requires CarriesItsPayload(iss, acc, s) && s.seqNr == Wrap(r.cur + 1)
    requires forall t :: t in r.rxq ==> t in q || t == s
    ensures Grows(r, Deliver(cfg, r.(rxq := q), s.data).(cur := s.seqNr))
  {
    NextIsNext(r, iss, acc, s);
    OffsetOfWrap(iss, |r.delivered| + 1);
    var t := Deliver(cfg, r.(rxq := q), s.data).(cur := s.seqNr);
    forall x: u16 | Covers(r, x) ensures Covers(t, x) {
      if !(1 <= Offset(r.irs, x) <= |r.delivered|) {
        var w :| w in r.rxq && w.seqNr == x;
        assert w in q || x == s.seqNr;
      }
    }
  }

  lemma {:induction false} RxFlushGrows(cfg: Config, r: Rcv, iss: u16, acc: seq<Payload>, i: nat)
    requires ReceiverOk(r, iss, acc) && Coupled(Open, r) && i <= |r.rxq|
    ensures Grows(r, RxFlush(cfg, r, i))
    decreases |r.rxq|, i
  {
    hide ReceiverOk, CarriesItsPayload, Deliver, Payloads;
    if i == 0 || cfg.inboxLen - |r.inbox| <= 2 {
    } else {
      var s, rest := r.rxq[0], r.rxq[1..];
      assert r.rxq == [s] + rest;
      assert s in r.rxq && forall x :: x in rest ==> x in r.rxq;
      if s.seqNr == Wrap(r.cur + 1) {
        var r1 := Deliver(cfg, r.(rxq := rest), s.data).(cur := s.seqNr);
        SubQueueOk(r, iss, acc, rest);
        DeliverGrows(cfg, r, iss, acc, rest, s);
        DeliverOk(cfg, r.(rxq := rest), iss, acc, s);
        DeliverFrame(cfg, r.(rxq := rest), s.data);
        RxFlushGrows(cfg, r1, iss, acc, |r.rxq| - 1);
      } else {
        var r2 := r.(rxq := rest + [s]);
        assert forall t :: t in r.rxq ==> t in r2.rxq;
        SubQueueOk(r, iss, acc, rest + [s]);
        RxFlushGrows(cfg, r2, iss, acc, i - 1);
      }
    }
  }

  lemma ScanRxGrows(r: Rcv, seqNr: u16)
    ensures Grows(r, r.(rxq := ScanRx(r.rxq, seqNr, |r.rxq|).1))
  {
    ScanRxKeeps(r.rxq, seqNr, |r.rxq|);
  }

  lemma RxAddGrows(cfg: Config, r: Rcv, s: Segment)
    ensures Grows(r, RxAdd(cfg, r, s))
  {
  }

  // ---------------------------------------------------------------- segments on the wire

  /** Only the connecting side sends plain SYNs, and they announce the window `w`. */
  predicate SynSeg(w: nat, listening: bool, s: Segment) {
    if listening then s.ack else !s.ack && s.opts.window == w
  }

  /** A segment sent with `n` payloads accepted so far: its acknowledgement is honest and, unless it is part of
      the handshake or a reset, its own number is at most the next one to use. */
  predicate SegOk(w: nat, listening: bool, iss: u16, n: nat, r: Rcv, s: Segment) {
    && (s.syn ==> SynSeg(w, listening, s))
    && (s.eak ==> s.ack)
    && (!s.ack ==> if listening then s.rst else s.syn && !s.rst)
    && (s.ack ==> r.synced && Offset(r.irs, s.ackNr) <= |r.delivered|)
    && (s.ack && !s.syn && !s.rst ==> 1 <= Offset(iss, s.seqNr) <= n + 1)
  }

  predicate EackOk(r: Rcv, s: Segment) {
    s.eak ==> forall x :: x in s.eacks ==> Covers(r, x)
  }

  predicate OutOk(w: nat, c: Conn) {
    && (forall s :: s in c.snd.out ==> SegOk(w, c.listening, c.snd.iss, |c.snd.accepted|, c.rcv, s))
    && (c.state != Closed ==> forall s :: s in c.snd.out ==> EackOk(c.rcv, s))
    && (c.snd.out != [] ==> c.snd.started || c.listening)
  }

  function TxOff(iss: u16, e: TxEntry): u16 { Offset(iss, e.seg.seqNr) }

  /** An element of the retransmit queue: the SYN, with offset zero, or a payload. */
  predicate TxSeg(w: nat, listening: bool, iss: u16, n: nat, synced: bool, e: TxEntry) {
    && TxOff(iss, e) <= n
    && (e.seg.syn <==> TxOff(iss, e) == 0)
    && (e.seg.syn ==> SynSeg(w, listening, e.seg))
    && (e.seg.ack ==> synced)
    && (!e.seg.syn ==> e.seg.ack)
    && !e.seg.rst && !e.seg.eak
  }

  predicate Sorted(iss: u16, q: seq<TxEntry>) {
    forall i, j :: 0 <= i < j < |q| ==> TxOff(iss, q[i]) < TxOff(iss, q[j])
  }

  predicate TxOk(w: nat, c: Conn) {
    && (forall e :: e in c.snd.txq ==>
          TxSeg(w, c.listening, c.snd.iss, |c.snd.accepted|, c.rcv.synced, e))
    && Sorted(c.snd.iss, c.snd.txq)
    && (c.snd.txq != [] ==> c.snd.started)
  }

  /** The traffic of one endpoint is honest. */
  predicate Honest(w: nat, c: Conn) { OutOk(w, c) && TxOk(w, c) }

  // ---------------------------------------------------------------- building blocks

  /** The receive side gains, the send side stays. */
  lemma GrowsHonest(w: nat, c: Conn, d: Conn)
    requires Honest(w, c) && d.snd == c.snd && d.listening == c.listening && Grows(c.rcv, d.rcv)
    requires c.state == Closed ==> d.state == Closed
    ensures Honest(w, d)
  {
  }

  /** A new segment that does not go into the retransmit queue. */
  lemma SendHonest(cfg: Config, w: nat, c: Conn, s: Segment, now: u32)
    requires Honest(w, c) && !s.syn && (c.snd.started || c.listening)
    requires SegOk(w, c.listening, c.snd.iss, |c.snd.accepted|, c.rcv, s)
    requires c.state != Closed ==> EackOk(c.rcv, s)
    ensures Honest(w, SendCmp(cfg, c, s, now))
  {
  }

  /** Own numbers of a started, synchronised endpoint that are fit to send. */
  lemma OwnNumbers(c: Conn, iss: u16, acc: seq<Payload>)
    requires Ok(c, iss, acc)
    ensures c.snd.started ==> Offset(c.snd.iss, c.snd.nxt) == |c.snd.accepted| + 1 || |c.snd.accepted| == ORDER_LIMIT
    ensures c.rcv.synced ==> Offset(c.rcv.irs, c.rcv.cur) == |c.rcv.delivered|
  {
  }

  predicate Fits(c: Conn, iss: u16, acc: seq<Payload>) {
    Ok(c, iss, acc) && |c.snd.accepted| < ORDER_LIMIT
  }

  lemma AckHonest(cfg: Config, w: nat, c: Conn, now: u32, iss: u16, acc: seq<Payload>)
    requires Honest(w, c) && Fits(c, iss, acc) && c.rcv.synced && c.snd.started
    ensures Honest(w, SendCmp(cfg, c, Ack(c), now))
    ensures Honest(w, SendCmp(cfg, c, AckRst(c), now))
    ensures Honest(w, SendCmp(cfg, c, Eack(c), now))
  {
    OwnNumbers(c, iss, acc);
    SendHonest(cfg, w, c, Ack(c), now);
    SendHonest(cfg, w, c, AckRst(c), now);
    SendHonest(cfg, w, c, Eack(c), now);
  }

  lemma CheckAckHonest(cfg: Config, w: nat, c: Conn, now: u32, iss: u16, acc: seq<Payload>)
    requires Honest(w, c) && Fits(c, iss, acc) && c.rcv.synced && c.snd.started
    ensures Honest(w, CheckAck(cfg, c, now))
  {
    AckHonest(cfg, w, c, now, iss, acc);
  }

  // ---------------------------------------------------------------- the retransmit queue

  predicate SameSeg(s: Segment, t: Segment) { t == s.(ackNr := t.ackNr) }

  /** Every element of `p` is one of `q`, up to its acknowledgement and timers. */
  predicate From(q: seq<TxEntry>, p: seq<TxEntry>) {
    forall e :: e in p ==> exists x :: x in q && SameSeg(x.seg, e.seg)
  }

  lemma FromOk(w: nat, c: Conn, d: Conn)
    requires TxOk(w, c) && From(c.snd.txq, d.snd.txq) && Sorted(d.snd.iss, d.snd.txq)
    requires d.snd.iss == c.snd.iss && d.snd.accepted == c.snd.accepted && d.listening == c.listening
    requires d.rcv.synced == c.rcv.synced && (d.snd.txq != [] ==> d.snd.started)
    ensures TxOk(w, d)
  {
  }

  /** Putting the head back in front of what is left of the tail. */
  lemma ConsSorted(iss: u16, q: seq<TxEntry>, e: TxEntry, p: seq<TxEntry>)
    requires q != [] && Sorted(iss, q) && SameSeg(q[0].seg, e.seg) && From(q[1..], p) && Sorted(iss, p)
    ensures Sorted(iss, [e] + p) && From(q, [e] + p)
  {
  }

  lemma {:induction false} EackFilterThins(iss: u16, q: seq<TxEntry>, eacks: seq<u16>, now: u32, pt: u32)
    requires Sorted(iss, q)
    ensures Sorted(iss, EackFilter(q, eacks, now, pt)) && From(q, EackFilter(q, eacks, now, pt))
  {
    if q != [] {
      assert forall i, j :: 0 <= i < j < |q[1..]| ==> q[1..][i] == q[i + 1] && q[1..][j] == q[j + 1];
      EackFilterThins(iss, q[1..], eacks, now, pt);
      ConsSorted(iss, q, Touch(q[0], eacks, now, pt), EackFilter(q[1..], eacks, now, pt));
    }
  }

  lemma {:induction false} PassFilterThins(iss: u16, q: seq<TxEntry>, una: u16, ackNr: u16, now: u32, pt: u32)
    requires Sorted(iss, q)
    ensures Sorted(iss, PassFilter(q, una, ackNr, now, pt)) && From(q, PassFilter(q, una, ackNr, now, pt))
  {
    if q != [] {
      assert forall i, j :: 0 <= i < j < |q[1..]| ==> q[1..][i] == q[i + 1] && q[1..][j] == q[j + 1];
      PassFilterThins(iss, q[1..], una, ackNr, now, pt);
      var e := if Due(q[0], now, pt) then q[0].(seg := q[0].seg.(ackNr := ackNr), sentAt := now) else q[0];
      ConsSorted(iss, q, e, PassFilter(q[1..], una, ackNr, now, pt));
    }
  }

  /** What the timer pass sends again is an element of the queue under the latest acknowledgement. */
  lemma {:induction false} PassSendsFrom(q: seq<TxEntry>, una: u16, ackNr: u16, now: u32, pt: u32, s: Segment)
    requires s in PassSends(q, una, ackNr, now, pt)
    ensures exists e :: e in q && !SeqBefore(e.seg.seqNr, una) && s == e.seg.(ackNr := ackNr)
  {
    hide SeqBefore, Due;
    if q != [] {
      if s in PassSends(q[1..], una, ackNr, now, pt) {
        PassSendsFrom(q[1..], una, ackNr, now, pt, s);
        var e :| e in q[1..] && !SeqBefore(e.seg.seqNr, una) && s == e.seg.(ackNr := ackNr);
        assert e in q;
      } else {
        assert q[0] in q && s == q[0].seg.(ackNr := ackNr);
      }
    }
  }

  lemma RetransmitHonest(w: nat, c: Conn, now: u32, iss: u16, acc: seq<Payload>)
    requires Honest(w, c) && Fits(c, iss, acc)
    ensures Honest(w, c.(snd := Retransmit(c.snd, c.rcv.cur, now, c.opt.packetTimeout)))
  {
    var pt := c.opt.packetTimeout;
    var d := c.(snd := Retransmit(c.snd, c.rcv.cur, now, pt));
    PassFilterThins(c.snd.iss, c.snd.txq, c.snd.una, c.rcv.cur, now, pt);
    FromOk(w, c, d);
    OwnNumbers(c, iss, acc);
    forall s | s in d.snd.out
      ensures SegOk(w, d.listening, d.snd.iss, |d.snd.accepted|, d.rcv, s)
      ensures d.state != Closed ==> EackOk(d.rcv, s)
    {
      if s !in c.snd.out {
        PassSendsFrom(c.snd.txq, c.snd.una, c.rcv.cur, now, pt, s);
        var e :| e in c.snd.txq && s == e.seg.(ackNr := c.rcv.cur);
        assert TxSeg(w, c.listening, c.snd.iss, |c.snd.accepted|, c.rcv.synced, e);
      }
    }
  }
}
