/** Window fit and recoverability: the sender never runs ahead of the receiver's window, and no acknowledgement,
    cumulative or selective, frees a segment the receiver still needs. */
module RdpRecover {
  import opened SeqNum
  import opened RdpModel
  import opened RdpSystem
  import opened RdpClose
  import opened RdpOrder
  import opened RdpAcks
  import opened RdpHonest
  import opened RdpEffect

  /** A window the queues were built for, and a connection short enough for signed comparisons of its numbers. */
  predicate Sane(cfg: Config, opts: Options, limit: nat) {
    1 <= opts.window <= cfg.maxWindow && limit + 2 * opts.window < 0x8000
  }

  function Una(c: Conn): u16 { Offset(c.snd.iss, c.snd.una) }

  /** The send side against the number of payloads its peer has delivered. */
  predicate WindowOk(w: nat, c: Conn, delivered: nat) {
    && |c.snd.accepted| <= delivered + w
    && (c.state != Closed ==> c.opt.window == w && Una(c) <= delivered + 1)
    && (c.state == Open ==> 1 <= Una(c))
    && (c.state == SynSent || c.state == SynRcvd || !c.rcv.synced ==> c.snd.accepted == [])
  }

  /** An honest acknowledgement moves the oldest unacknowledged number to at most one past the deliveries. */
  lemma AckNumber(iss: u16, ackNr: u16, delivered: nat)
    requires Offset(iss, ackNr) <= delivered < 0xFFFF
    ensures 1 <= Offset(iss, Wrap(ackNr + 1)) <= delivered + 1
  {
    hide Wrap, Offset;
    WrapOfOffset(iss, ackNr);
    WrapStep(iss, Offset(iss, ackNr));
    OffsetOfWrap(iss, Offset(iss, ackNr) + 1);
  }

  lemma PacketWindow(w: nat, c: Conn, s: Segment, d: Conn, now: u32, delivered: nat)
    requires WindowOk(w, c, delivered) && c.state != Closed && PacketEffect(c, s, d, now) && delivered < 0xFFFF
    requires s.ack ==> Offset(c.snd.iss, s.ackNr) <= delivered
    requires c.rcv.synced ==> d.rcv.synced
    ensures WindowOk(w, d, delivered)
  {
    hide Wrap, Offset, EackFilter;
    if s.ack {
      AckNumber(c.snd.iss, s.ackNr, delivered);
    }
  }

  /** Comparisons only look at numbers modulo 2^16. */
  lemma SameBefore(x: int, y: int, cmp: int)
    requires x % 0x1_0000 == y % 0x1_0000
    ensures SeqBefore(x, cmp) <==> SeqBefore(Wrap(y), cmp)
  {
  }

  /** The transmit-window test, read on unwrapped numbers. */
  lemma ReadyMeans(iss: u16, una: u16, nxt: u16, w: nat, n: nat)
    requires nxt == Wrap(iss + 1 + n) && Offset(iss, una) <= n + 1 && n + 2 * w < 0x8000 && 1 <= w
    ensures !SeqAfter(nxt, una + w - 1) <==> n + 2 <= Offset(iss, una) + w
  {
    hide Wrap, Offset, SeqBefore;
    var u := Offset(iss, una);
    WrapOfOffset(iss, una);
    WrapModulo(iss + u, w - 1);
    BeforeIsLess(iss, u + w - 1, n + 1);
    SameBefore(una + w - 1, iss + (u + w - 1), nxt);
  }

  /** A payload is taken only if it lands inside the window. */
  lemma SendWindow(cfg: Config, w: nat, c: Conn, data: Payload, now: u32, delivered: nat)
    requires WindowOk(w, c, delivered) && SenderOk(c.snd) && c.snd.started
    requires delivered <= |c.snd.accepted| && |c.snd.accepted| + 2 * w < 0x8000 && 1 <= w
    requires SendOutcome(cfg, c, data) == Sent && c.rcv.synced
    ensures WindowOk(w, UserSend(cfg, c, data, now), delivered)
    ensures |c.snd.accepted| + 2 <= Una(c) + w
  {
    ReadyMeans(c.snd.iss, c.snd.una, c.snd.nxt, w, |c.snd.accepted|);
  }

  // ---------------------------------------------------------------- the retransmit queue never overflows

  predicate Live(c: Conn) { c.state == SynSent || c.state == SynRcvd || c.state == Open }

  /** `lo` is the highest acknowledged offset at a timer pass so far, `hi` the highest ever. Between two passes
      at most one segment arrives, so the two differ by at most a window. */
  predicate Marked(w: nat, c: Conn, lo: nat, hi: nat) {
    Live(c) ==>
      && Una(c) <= hi && lo <= hi <= lo + w && (lo < hi ==> Una(c) == hi)
      && hi <= |c.snd.accepted| + 1 <= hi + w
      && (forall e :: e in c.snd.txq ==> lo <= TxOff(c.snd.iss, e))
  }

  lemma {:induction false} SortedLength(iss: u16, q: seq<TxEntry>, lo: nat, n: int)
    requires Sorted(iss, q) && lo <= n + 1
    requires forall e :: e in q ==> lo <= TxOff(iss, e) <= n
    ensures |q| <= n + 1 - lo
  {
    if q != [] {
      var p, last := q[..|q| - 1], q[|q| - 1];
      assert last in q;
      forall e | e in p ensures lo <= TxOff(iss, e) <= TxOff(iss, last) - 1 {
        assert e in q;
      }
      SortedLength(iss, p, lo, TxOff(iss, last) - 1);
    }
  }

  lemma SendMarked(cfg: Config, w: nat, c: Conn, data: Payload, now: u32, lo: nat, hi: nat)
    requires Marked(w, c, lo, hi) && Honest(w, c) && SenderOk(c.snd) && w <= cfg.maxWindow && c.snd.started
    requires c.state == Open && SendOutcome(cfg, c, data) == Sent && |c.snd.accepted| + 2 <= Una(c) + w
    requires |c.snd.accepted| + 1 < ORDER_LIMIT
    ensures Marked(w, UserSend(cfg, c, data, now), lo, hi)
    ensures |UserSend(cfg, c, data, now).snd.txq| == |c.snd.txq| + 1
  {
    var n := |c.snd.accepted|;
    SortedLength(c.snd.iss, c.snd.txq, lo, n);
    OffsetOfWrap(c.snd.iss, n + 1);
  }

  lemma {:induction false} PassUnacked(q: seq<TxEntry>, una: u16, ackNr: u16, now: u32, pt: u32)
    ensures forall e :: e in PassFilter(q, una, ackNr, now, pt) ==> !SeqBefore(e.seg.seqNr, una)
  {
    if q != [] {
      PassUnacked(q[1..], una, ackNr, now, pt);
    }
  }

  lemma {:induction false} PassLeaves(q: seq<TxEntry>, una: u16, ackNr: u16, now: u32, pt: u32)
    ensures forall e :: e in q && !SeqBefore(e.seg.seqNr, una) ==>
              exists x :: x in PassFilter(q, una, ackNr, now, pt) && x.seg.seqNr == e.seg.seqNr
  {
    if q != [] {
      PassLeaves(q[1..], una, ackNr, now, pt);
      var p, rest := PassFilter(q, una, ackNr, now, pt), PassFilter(q[1..], una, ackNr, now, pt);
      forall e | e in q && !SeqBefore(e.seg.seqNr, una) ensures exists x :: x in p && x.seg.seqNr == e.seg.seqNr {
        if e in q[1..] {
          var x :| x in rest && x.seg.seqNr == e.seg.seqNr;
          assert x in p;
        } else {
          assert e == q[0] && p[0] in p;
        }
      }
    }
  }

  lemma {:induction false} EackLeaves(q: seq<TxEntry>, eacks: seq<u16>, now: u32, pt: u32)
    ensures forall e :: e in q && e.seg.seqNr !in eacks ==>
              exists x :: x in EackFilter(q, eacks, now, pt) && x.seg.seqNr == e.seg.seqNr
  {
    if q != [] {
      EackLeaves(q[1..], eacks, now, pt);
      var p, rest := EackFilter(q, eacks, now, pt), EackFilter(q[1..], eacks, now, pt);
      forall e | e in q && e.seg.seqNr !in eacks ensures exists x :: x in p && x.seg.seqNr == e.seg.seqNr {
        if e in q[1..] {
          var x :| x in rest && x.seg.seqNr == e.seg.seqNr;
          assert x in p;
        } else {
          assert e == q[0] && p[0] in p;
        }
      }
    }
  }

  /** Whether an entry counts as acknowledged is a matter of unwrapped numbers. */
  lemma AckedMeans(c: Conn, e: TxEntry)
    requires TxOff(c.snd.iss, e) < 0x8000 && Una(c) < 0x8000
    ensures SeqBefore(e.seg.seqNr, c.snd.una) <==> TxOff(c.snd.iss, e) < Una(c)
  {
    hide Wrap, Offset, SeqBefore;
    WrapOfOffset(c.snd.iss, e.seg.seqNr);
    WrapOfOffset(c.snd.iss, c.snd.una);
    BeforeIsLess(c.snd.iss, TxOff(c.snd.iss, e), Una(c));
  }

  lemma PassAbove(w: nat, c: Conn, ackNr: u16, now: u32, lo: nat, hi: nat)
    requires Marked(w, c, lo, hi) && Live(c) && TxOk(w, c) && Una(c) < 0x8000 && |c.snd.accepted| < 0x8000
    ensures forall e :: e in PassFilter(c.snd.txq, c.snd.una, ackNr, now, c.opt.packetTimeout) ==>
              hi <= TxOff(c.snd.iss, e)
  {
    var pt := c.opt.packetTimeout;
    PassUnacked(c.snd.txq, c.snd.una, ackNr, now, pt);
    PassFilterThins(c.snd.iss, c.snd.txq, c.snd.una, ackNr, now, pt);
    forall e | e in PassFilter(c.snd.txq, c.snd.una, ackNr, now, pt) ensures hi <= TxOff(c.snd.iss, e) {
      var x :| x in c.snd.txq && SameSeg(x.seg, e.seg);
      assert TxSeg(w, c.listening, c.snd.iss, |c.snd.accepted|, c.rcv.synced, x);
      AckedMeans(c, x);
    }
  }

  lemma PassMarked(w: nat, c: Conn, d: Conn, ackNr: u16, now: u32, lo: nat, hi: nat)
    requires Marked(w, c, lo, hi) && Honest(w, c) && Una(c) < 0x8000 && |c.snd.accepted| < 0x8000
    requires d.state == c.state
    requires d.snd == Retransmit(c.snd, ackNr, now, c.opt.packetTimeout).(out := d.snd.out)
    ensures Marked(w, d, hi, hi)
  {
    if Live(c) {
      PassAbove(w, c, ackNr, now, lo, hi);
    }
  }

  lemma PacketMarked(w: nat, c: Conn, s: Segment, d: Conn, now: u32, hi: nat)
    requires Marked(w, c, hi, hi) && Honest(w, c) && c.state != Closed && PacketEffect(c, s, d, now)
    requires Una(d) <= |d.snd.accepted| + 1
    requires Live(d) ==> Live(c)
    ensures Marked(w, d, hi, if Una(d) <= hi then hi else Una(d))
  {
    if Live(d) && d.snd.txq != c.snd.txq {
      EackFilterThins(c.snd.iss, c.snd.txq, s.eacks, now, c.opt.packetTimeout);
      forall e | e in d.snd.txq ensures hi <= TxOff(d.snd.iss, e) {
        var x :| x in c.snd.txq && SameSeg(x.seg, e.seg);
      }
    }
  }

  // ---------------------------------------------------------------- nothing needed is freed

  predicate InTx(d: Snd, k: nat) { exists e :: e in d.txq && TxOff(d.iss, e) == k + 1 }

  /** Payload `k` is kept for retransmission, or the receiver has it. */
  predicate Held(d: Snd, r: Rcv, k: nat) { InTx(d, k) || Covers(r, Wrap(d.iss + 1 + k)) }

  predicate AllHeld(d: Snd, r: Rcv) { forall k :: 0 <= k < |d.accepted| ==> Held(d, r, k) }

  lemma GrowsHeld(d: Snd, r: Rcv, t: Rcv)
    requires AllHeld(d, r) && Grows(r, t)
    ensures AllHeld(d, t)
  {
    forall k | 0 <= k < |d.accepted| ensures Held(d, t, k) {
      assert Held(d, r, k);
    }
  }

  /** Entries that leave the queue for a reason are held by the receiver. */
  lemma ShrinkHeld(d: Snd, e: Snd, r: Rcv)
    requires AllHeld(d, r) && e.iss == d.iss && e.accepted == d.accepted
    requires forall x :: x in d.txq && TxOff(d.iss, x) >= 1 ==>
               Covers(r, x.seg.seqNr) || exists y :: y in e.txq && y.seg.seqNr == x.seg.seqNr
    ensures AllHeld(e, r)
  {
    forall k | 0 <= k < |d.accepted| ensures Held(e, r, k) {
      assert Held(d, r, k);
      if InTx(d, k) {
        var x :| x in d.txq && TxOff(d.iss, x) == k + 1;
        WrapOfOffset(d.iss, x.seg.seqNr);
      }
    }
  }

  lemma PassHeld(w: nat, c: Conn, d: Conn, r: Rcv, ackNr: u16, now: u32)
    requires AllHeld(c.snd, r) && Honest(w, c) && r.irs == c.snd.iss
    requires Una(c) <= |r.delivered| + 1 && Una(c) < 0x8000 && |c.snd.accepted| < 0x8000
    requires d.snd == Retransmit(c.snd, ackNr, now, c.opt.packetTimeout).(out := d.snd.out)
    ensures AllHeld(d.snd, r)
  {
    PassLeaves(c.snd.txq, c.snd.una, ackNr, now, c.opt.packetTimeout);
    forall x | x in c.snd.txq && TxOff(c.snd.iss, x) >= 1
      ensures Covers(r, x.seg.seqNr) || exists y :: y in d.snd.txq && y.seg.seqNr == x.seg.seqNr
    {
      AckedMeans(c, x);
    }
    ShrinkHeld(c.snd, d.snd, r);
  }

  lemma PacketHeld(c: Conn, s: Segment, d: Conn, now: u32, r: Rcv)
    requires AllHeld(c.snd, r) && PacketEffect(c, s, d, now) && d.state != Closed
    requires EackOk(r, s)
    ensures AllHeld(d.snd, r)
  {
    if d.snd.txq != c.snd.txq {
      EackLeaves(c.snd.txq, s.eacks, now, c.opt.packetTimeout);
    }
    ShrinkHeld(c.snd, d.snd, r);
  }

  lemma SendHeld(cfg: Config, c: Conn, data: Payload, now: u32, r: Rcv)
    requires AllHeld(c.snd, r) && SenderOk(c.snd) && c.snd.started && |c.snd.accepted| + 1 < ORDER_LIMIT
    requires SendOutcome(cfg, c, data) == Sent
    requires |UserSend(cfg, c, data, now).snd.txq| == |c.snd.txq| + 1
    ensures AllHeld(UserSend(cfg, c, data, now).snd, r)
  {
    var d, n := UserSend(cfg, c, data, now).snd, |c.snd.accepted|;
    OffsetOfWrap(c.snd.iss, n + 1);
    forall k | 0 <= k < |d.accepted| ensures Held(d, r, k) {
      if k < n {
        assert Held(c.snd, r, k);
        if InTx(c.snd, k) {
          var x :| x in c.snd.txq && TxOff(c.snd.iss, x) == k + 1;
          assert x in d.txq;
        }
      } else {
        assert d.txq[|c.snd.txq|] in d.txq;
      }
    }
  }
}
