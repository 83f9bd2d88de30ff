/** The RDP endpoint as pure functions on a snapshot of one connection: what each routine of the transport does
    to the connection, its retransmit and reorder queues, and the segments it hands to csp_send_direct. */
module RdpModel {
  import opened Base
  import opened SeqNum

  type Payload = seq<bv8>

  datatype RdpState = Closed | SynSent | SynRcvd | Open | CloseWait

  /** Who has closed the connection: the three CSP_RDP_CLOSED_BY bits. */
  datatype Closer = Userspace | Protocol | Timeout

  const ALL_CLOSERS: set<Closer> := {Userspace, Protocol, Timeout}

  /** The six words carried by a SYN. */
  datatype Options = Options(window: u32, connTimeout: u32, packetTimeout: u32,
                             delayedAcks: u32, ackTimeout: u32, ackDelayCount: u32)

  /** A segment on the wire. A SYN carries `opts`, an extended acknowledgement carries `eacks`, anything else
      carries `data`. */
  datatype Segment = Segment(syn: bool, ack: bool, eak: bool, rst: bool, seqNr: u16, ackNr: u16,
                             data: Payload, eacks: seq<u16>, opts: Options)

  /** An element of the retransmit queue. */
  datatype TxEntry = TxEntry(seg: Segment, sentAt: u32, quarantine: u32)

  /** Build constants: CSP_RDP_MAX_WINDOW, CSP_CONN_RXQUEUE_LEN, CSP_BUFFER_SIZE, and the value found in
      fields the code leaves uninitialised. */
  datatype Config = Config(maxWindow: nat, inboxLen: nat, bufferSize: nat, junk: u32)

  /** The send side of a connection and its node's retransmit queue. The last three fields are a trace that the
      code never reads: every segment handed to the network, every payload csp_rdp_send took, and whether the
      initial number has been chosen. */
  datatype Snd = Snd(nxt: u16, una: u16, iss: u16, txq: seq<TxEntry>,
                     out: seq<Segment>, accepted: seq<Payload>, started: bool)

  /** The receive side: numbers, reorder queue and the connection's own queue, where None is the NULL that wakes
      the reader. The last three fields are a trace: every payload put on the connection's queue, every payload
      csp_read returned, and whether the peer's initial number is known. */
  datatype Rcv = Rcv(cur: u16, irs: u16, rxq: seq<Segment>, inbox: seq<Option<Payload>>,
                     delivered: seq<Payload>, readLog: seq<Payload>, synced: bool)

  /** One connection slot. `pending` is dest_socket != NULL. The last three control fields are a trace: a user
      task is inside csp_connect, a user task holds the handle, and everybody who closed the connection since it was
      last begun. */
  datatype Conn = Conn(open: bool, state: RdpState, closedBy: set<Closer>, rcvLsa: u16,
                       opt: Options, ackTimestamp: u32, timestamp: u32, listening: bool, pending: bool,
                       connecting: bool, handle: bool, closeLog: set<Closer>,
                       snd: Snd, rcv: Rcv)

  const NO_OPTS: Options := Options(0, 0, 0, 0, 0, 0)

  // ---------------------------------------------------------------- queues

  /** csp_rdp_queue_tx_add: a full queue drops the element. */
  function TxAdd(cfg: Config, d: Snd, e: TxEntry): Snd {
    if |d.txq| < 2 * cfg.maxWindow then d.(txq := d.txq + [e]) else d
  }

  /** csp_rdp_queue_rx_add: a full queue drops the element. */
  function RxAdd(cfg: Config, r: Rcv, s: Segment): Rcv {
    if |r.rxq| < 2 * cfg.maxWindow then r.(rxq := r.rxq + [s]) else r
  }

  /** csp_conn_enqueue_packet with a packet. */
  function Deliver(cfg: Config, r: Rcv, p: Payload): Rcv {
    if |r.inbox| < cfg.inboxLen then r.(inbox := r.inbox + [Some(p)], delivered := r.delivered + [p]) else r
  }

  /** csp_conn_enqueue_packet with NULL. */
  function WakeReader(cfg: Config, r: Rcv): Rcv {
    if |r.inbox| < cfg.inboxLen then r.(inbox := r.inbox + [None]) else r
  }

  // ---------------------------------------------------------------- control messages

  function Cmp(syn: bool, ack: bool, eak: bool, rst: bool, seqNr: u16, ackNr: u16): Segment {
    Segment(syn, ack, eak, rst, seqNr, ackNr, [], [], NO_OPTS)
  }

  /** A control message leaves; a SYN is also kept for retransmission. */
  function Emit(cfg: Config, d: Snd, s: Segment, now: u32): Snd {
    var d1 := if s.syn then TxAdd(cfg, d, TxEntry(s, now, cfg.junk)) else d;
    d1.(out := d.out + [s])
  }

  /** csp_rdp_send_cmp: an ACK also records what was last acknowledged, and when. */
  function SendCmp(cfg: Config, c: Conn, s: Segment, now: u32): Conn {
    var c1 := c.(snd := Emit(cfg, c.snd, s, now));
    if s.ack then c1.(rcvLsa := s.ackNr, ackTimestamp := now) else c1
  }

  /** Numbers that fit an extended acknowledgement: 100 bytes less the header, two bytes each. */
  const EACK_MAX: nat := 47

  /** The numbers of the first segments of a reorder queue. */
  function EackList(q: seq<Segment>): (r: seq<u16>)
    ensures |r| == if |q| <= EACK_MAX then |q| else EACK_MAX
    ensures forall x :: x in r ==> exists s :: s in q && s.seqNr == x
  {
    var n := if |q| <= EACK_MAX then |q| else EACK_MAX;
    seq(n, i requires 0 <= i < n => q[i].seqNr)
  }

  function Eack(c: Conn): Segment {
    Segment(false, true, true, false, c.snd.nxt, c.rcv.cur, [], EackList(c.rcv.rxq), NO_OPTS)
  }

  function Ack(c: Conn): Segment { Cmp(false, true, false, false, c.snd.nxt, c.rcv.cur) }

  function Rst(c: Conn): Segment { Cmp(false, false, false, true, c.snd.nxt, c.rcv.cur) }

  function AckRst(c: Conn): Segment { Cmp(false, true, false, true, c.snd.nxt, c.rcv.cur) }

  function SynAck(c: Conn): Segment { Cmp(true, true, false, false, c.snd.iss, c.rcv.irs) }

  predicate ShouldAck(c: Conn, now: u32) {
    || c.opt.delayedAcks == 0
    || TimeAfter(now, c.ackTimestamp + c.opt.ackTimeout)
    || SeqAfter(c.rcv.cur, c.rcvLsa + c.opt.ackDelayCount)
  }

  /** csp_rdp_check_ack. */
  function CheckAck(cfg: Config, c: Conn, now: u32): Conn {
    if cfg.inboxLen - |c.rcv.inbox| <= 2 * Signed32(c.opt.window) || !ShouldAck(c, now) then c
    else SendCmp(cfg, c, Ack(c), now)
  }

  predicate ReadyForTx(c: Conn) {
    !SeqAfter(c.snd.nxt, c.snd.una + c.opt.window - 1)
  }

  // ---------------------------------------------------------------- receive queue

  /** csp_rdp_rx_queue_flush with `i` elements left before the scan gives up. */
  function RxFlush(cfg: Config, r: Rcv, i: nat): Rcv
    requires i <= |r.rxq|
    decreases |r.rxq|, i
  {
    if i == 0 || cfg.inboxLen - |r.inbox| <= 2 then r
    else if r.rxq[0].seqNr == Wrap(r.cur + 1) then
      var r1 := Deliver(cfg, r.(rxq := r.rxq[1..]), r.rxq[0].data);
      RxFlush(cfg, r1.(cur := Wrap(r.cur + 1)), |r.rxq| - 1)
    else
      RxFlush(cfg, r.(rxq := r.rxq[1..] + [r.rxq[0]]), i - 1)
  }

  /** csp_rdp_seq_in_rx_queue: rotates the queue up to and including the first match. */
  function ScanRx(q: seq<Segment>, seqNr: u16, i: nat): (r: (bool, seq<Segment>))
    requires i <= |q|
    ensures |r.1| == |q|
    decreases i
  {
    if i == 0 then (false, q)
    else
      var q1 := q[1..] + [q[0]];
      if q[0].seqNr == seqNr then (true, q1) else ScanRx(q1, seqNr, i - 1)
  }

  // ---------------------------------------------------------------- retransmit queue

  predicate AnyAbove(eacks: seq<u16>, seqNr: u16) { exists x :: x in eacks && x > seqNr }

  /** An extended acknowledgement of a larger number makes an entry due at once, unless in quarantine. */
  function Touch(e: TxEntry, eacks: seq<u16>, now: u32, packetTimeout: u32): TxEntry {
    if AnyAbove(eacks, e.seg.seqNr) && TimeAfter(now, e.quarantine)
    then MadeDue(e, now, packetTimeout)
    else e
  }

  function MadeDue(e: TxEntry, now: u32, packetTimeout: u32): TxEntry {
    e.(sentAt := Wrap32(now - packetTimeout - 1), quarantine := Wrap32(now + packetTimeout / 2))
  }

  /** What csp_rdp_flush_eack leaves of the retransmit queue. */
  function EackFilter(q: seq<TxEntry>, eacks: seq<u16>, now: u32, packetTimeout: u32): seq<TxEntry> {
    if q == [] then []
    else if q[0].seg.seqNr in eacks then EackFilter(q[1..], eacks, now, packetTimeout)
    else [Touch(q[0], eacks, now, packetTimeout)] + EackFilter(q[1..], eacks, now, packetTimeout)
  }

  predicate Due(e: TxEntry, now: u32, packetTimeout: u32) { TimeAfter(now, e.sentAt + packetTimeout) }

  /** What the message-timeout loop leaves of the retransmit queue. */
  function PassFilter(q: seq<TxEntry>, una: u16, ackNr: u16, now: u32, packetTimeout: u32): seq<TxEntry> {
    if q == [] then []
    else
      var rest := PassFilter(q[1..], una, ackNr, now, packetTimeout);
      if SeqBefore(q[0].seg.seqNr, una) then rest
      else if Due(q[0], now, packetTimeout) then
        [q[0].(seg := q[0].seg.(ackNr := ackNr), sentAt := now)] + rest
      else [q[0]] + rest
  }

  /** The segments the message-timeout loop sends again. */
  function PassSends(q: seq<TxEntry>, una: u16, ackNr: u16, now: u32, packetTimeout: u32): seq<Segment> {
    if q == [] then []
    else
      var rest := PassSends(q[1..], una, ackNr, now, packetTimeout);
      if !SeqBefore(q[0].seg.seqNr, una) && Due(q[0], now, packetTimeout)
      then [q[0].seg.(ackNr := ackNr)] + rest
      else rest
  }

  function Retransmit(d: Snd, ackNr: u16, now: u32, packetTimeout: u32): Snd {
    d.(txq := PassFilter(d.txq, d.una, ackNr, now, packetTimeout),
       out := d.out + PassSends(d.txq, d.una, ackNr, now, packetTimeout))
  }

  // ---------------------------------------------------------------- closing

  /** csp_rdp_close_internal; the flag says CSP_ERR_AGAIN. */
  function CloseInternal(cfg: Config, c: Conn, who: set<Closer>, sendRst: bool, now: u32): (Conn, bool) {
    if c.state == Closed then (c, false)
    else
      var c1 := c.(closedBy := c.closedBy + who, closeLog := c.closeLog + who);
      var c2 := if c.state != CloseWait then
                  var w := c1.(state := CloseWait, timestamp := now);
                  if sendRst then SendCmp(cfg, w, AckRst(w), now) else w
                else c1;
      if c2.closedBy != ALL_CLOSERS then (c2, true)
      else (c2.(state := Closed, closedBy := {}), false)
  }

  /** The slot is given back and every queue of the connection emptied. */
  function Flush(c: Conn): Conn {
    c.(rcv := c.rcv.(inbox := [], rxq := []), snd := c.snd.(txq := []), open := false)
  }

  /** csp_conn_close of an RDP connection. */
  function ConnClose(cfg: Config, c: Conn, who: set<Closer>, now: u32): Conn {
    if !c.open then c
    else
      var (c1, again) := CloseInternal(cfg, c, who, true, now);
      if again then c1 else Flush(c1)
  }

  /** The discard_close exit of csp_rdp_new_packet. */
  function DiscardClose(cfg: Config, c: Conn, who: set<Closer>, now: u32): Conn {
    if c.pending then ConnClose(cfg, c, who + {Userspace}, now)
    else
      var c1 := ConnClose(cfg, c, who, now);
      c1.(rcv := WakeReader(cfg, c1.rcv))
  }

  // ---------------------------------------------------------------- timers

  /** Retransmissions, delayed acknowledgement and another try at the reorder queue. */
  function MessageTimers(cfg: Config, c: Conn, now: u32): Conn {
    var c1 := c.(snd := Retransmit(c.snd, c.rcv.cur, now, c.opt.packetTimeout));
    var c2 := if c1.state == Open && c1.opt.delayedAcks != 0 then CheckAck(cfg, c1, now) else c1;
    c2.(rcv := RxFlush(cfg, c2.rcv, |c2.rcv.rxq|))
  }

  predicate ConnExpired(c: Conn, now: u32) { TimeAfter(now, c.timestamp + c.opt.connTimeout) }

  /** csp_rdp_check_timeouts. */
  function CheckTimeouts(cfg: Config, c: Conn, now: u32): Conn {
    if c.pending && ConnExpired(c, now) then ConnClose(cfg, c, ALL_CLOSERS, now)
    else if c.state != CloseWait then MessageTimers(cfg, c, now)
    else if ConnExpired(c, now) then ConnClose(cfg, c, {Protocol, Timeout}, now)
    else c
  }

  // ---------------------------------------------------------------- incoming segments

  function TakeAck(c: Conn, s: Segment): Conn { c.(snd := c.snd.(una := Wrap(s.ackNr + 1))) }

  /** The peer is done: answer with a reset of our own and skip the wait for a timeout. */
  function AnswerRst(cfg: Config, c: Conn, now: u32): Conn {
    var c1 := c.(state := CloseWait, timestamp := now);
    DiscardClose(cfg, SendCmp(cfg, c1, AckRst(c1), now), {Protocol, Timeout}, now)
  }

  /** A segment with the RST flag. The in-sequence test is made on `int`, so 0xFFFF + 1 matches nothing. */
  function RecvRst(cfg: Config, c: Conn, s: Segment, now: u32): Conn {
    var c1 := if s.ack then TakeAck(c, s) else c;
    if c.state == Closed then c1
    else if c.state == CloseWait then
      DiscardClose(cfg, c1, if s.ack then {Protocol, Timeout} else {Protocol}, now)
    else if s.seqNr == c.rcv.cur + 1 then AnswerRst(cfg, c1, now)
    else c1
  }

  /** The connection a SYN turns a closed one into. */
  function Accept(c: Conn, s: Segment, iss: u16): Conn {
    c.(snd := c.snd.(iss := iss, nxt := Wrap(iss + 1), una := iss, started := true),
       rcv := c.rcv.(cur := s.seqNr, irs := s.seqNr, synced := true),
       rcvLsa := s.seqNr, opt := s.opts, state := SynRcvd, closeLog := {})
  }

  function RecvClosed(cfg: Config, c: Conn, s: Segment, now: u32, iss: u16): Conn {
    if !s.syn then DiscardClose(cfg, SendCmp(cfg, c, Rst(c), now), {Protocol}, now)
    else
      var c1 := Accept(c, s, iss);
      SendCmp(cfg, c1, SynAck(c1), now)
  }

  /** The connection a SYN/ACK opens. */
  function Established(c: Conn, s: Segment, now: u32): Conn {
    TakeAck(c, s).(rcv := c.rcv.(cur := s.seqNr, irs := s.seqNr, synced := true),
                   rcvLsa := Wrap(s.seqNr - 1), ackTimestamp := now, state := Open)
  }

  function RecvSynSent(cfg: Config, c: Conn, s: Segment, now: u32): Conn {
    if s.syn && s.ack then
      var c1 := Established(c, s, now);
      SendCmp(cfg, c1, Ack(c1), now)
    else if s.ack then SendCmp(cfg, c, Rst(c), now)
    else DiscardClose(cfg, c, {Protocol}, now)
  }

  /** Data ahead of its turn takes a place in the reorder queue, unless it already has one. */
  function RecvAhead(cfg: Config, c: Conn, s: Segment, now: u32): Conn {
    var (found, q) := ScanRx(c.rcv.rxq, s.seqNr, |c.rcv.rxq|);
    var c1 := c.(rcv := c.rcv.(rxq := q));
    if found then CheckAck(cfg, c1, now)
    else
      var c2 := c1.(rcv := RxAdd(cfg, c1.rcv, s));
      SendCmp(cfg, c2, Eack(c2), now)
  }

  /** The next segment goes straight to the connection's queue, and whatever it releases follows. */
  function RecvInOrder(cfg: Config, c: Conn, s: Segment, now: u32): Conn {
    if |c.rcv.inbox| >= cfg.inboxLen then c
    else
      var c1 := CheckAck(cfg, c.(rcv := Deliver(cfg, c.rcv, s.data).(cur := s.seqNr)), now);
      c1.(rcv := RxFlush(cfg, c1.rcv, |c1.rcv.rxq|))
  }

  function RecvData(cfg: Config, c: Conn, s: Segment, now: u32): Conn {
    if s.seqNr != Wrap(c.rcv.cur + 1) then RecvAhead(cfg, c, s, now) else RecvInOrder(cfg, c, s, now)
  }

  predicate SeqAcceptable(c: Conn, seqNr: u16) {
    SeqBetween(seqNr, c.rcv.cur + 1, c.rcv.cur + c.opt.window * 2)
  }

  predicate AckAcceptable(c: Conn, ackNr: u16) {
    SeqBetween(ackNr, c.snd.una - 1 - c.opt.window * 2, c.snd.nxt - 1)
  }

  /** Everything after the handshake checks: the acknowledgement is taken, then the contents. */
  function RecvAccepted(cfg: Config, c: Conn, s: Segment, now: u32): Conn {
    var c1 := TakeAck(c, s);
    if s.eak then
      if s.eacks == [] then c1
      else c1.(snd := c1.snd.(txq := EackFilter(c1.snd.txq, s.eacks, now, c1.opt.packetTimeout)))
    else if s.data == [] then c1
    else RecvData(cfg, c1, s, now)
  }

  /** SYN-RCVD ends: the handle goes to the listening socket, if one is still waiting for it. */
  function HandOver(c: Conn): Conn {
    c.(state := Open, pending := false, handle := c.handle || c.pending)
  }

  /** SYN-RCVD and OPEN. `sockOk` says whether the listening socket had room for the new connection. */
  function RecvOpen(cfg: Config, c: Conn, s: Segment, now: u32, sockOk: bool): Conn {
    if s.syn || !s.ack then
      if s.seqNr != c.rcv.irs then DiscardClose(cfg, c, {Protocol}, now) else c
    else if !SeqAcceptable(c, s.seqNr) then
      if c.state == SynRcvd then SendCmp(cfg, c, SynAck(c), now) else SendCmp(cfg, c, Eack(c), now)
    else if !AckAcceptable(c, s.ackNr) then c
    else if c.state == Open then RecvAccepted(cfg, c, s, now)
    else if s.ackNr != c.snd.iss then DiscardClose(cfg, c, {Protocol}, now)
    else if c.pending && !sockOk then DiscardClose(cfg, c.(state := Open), {Protocol}, now)
    else RecvAccepted(cfg, HandOver(c), s, now)
  }

  function RecvCloseWait(cfg: Config, c: Conn, s: Segment, now: u32): Conn {
    if s.syn || !s.ack || !AckAcceptable(c, s.ackNr) then c
    else SendCmp(cfg, TakeAck(c, s), AckRst(c), now)
  }

  /** csp_rdp_new_packet. */
  function NewPacket(cfg: Config, c: Conn, s: Segment, now: u32, iss: u16, sockOk: bool): Conn {
    if s.rst then RecvRst(cfg, c, s, now)
    else match c.state
      case Closed => RecvClosed(cfg, c, s, now, iss)
      case SynSent => RecvSynSent(cfg, c, s, now)
      case SynRcvd => RecvOpen(cfg, c, s, now, sockOk)
      case Open => RecvOpen(cfg, c, s, now, sockOk)
      case CloseWait => RecvCloseWait(cfg, c, s, now)
  }

  /** csp_rdp_new_packet returns whether its caller must close the connection. */
  predicate MustClose(c: Conn, s: Segment) { s.rst && c.state == Closed && c.pending }

  /** csp_conn_new for an incoming packet. */
  function Reopen(c: Conn, now: u32): Conn {
    c.(open := true, pending := true, timestamp := now, rcv := c.rcv.(inbox := []))
  }

  /** The part of csp_route_work after the timer pass: a segment that finds no open connection opens one if a
      socket listens, and is dropped otherwise. */
  function RoutePacket(cfg: Config, c: Conn, s: Segment, now: u32, iss: u16, sockOk: bool): Conn {
    if !c.open && !c.listening then c
    else
      var c1 := if c.open then c else Reopen(c, now);
      var c2 := NewPacket(cfg, c1, s, now, iss, sockOk);
      if MustClose(c1, s) then ConnClose(cfg, c2, {Userspace}, now) else c2
  }

  function TimerPass(cfg: Config, c: Conn, now: u32): Conn {
    if c.open then CheckTimeouts(cfg, c, now) else c
  }

  /** csp_route_work for the slot: a timer pass, then at most one segment. */
  function RouteWork(cfg: Config, c: Conn, s: Option<Segment>, now: u32, iss: u16, sockOk: bool): Conn {
    var c1 := TimerPass(cfg, c, now);
    if s.None? then c1 else RoutePacket(cfg, c1, s.value, now, iss, sockOk)
  }

  // ---------------------------------------------------------------- user calls

  datatype SendResult = Sent | Reset | TimedOut | NoMem

  /** Outcome of csp_rdp_send; a closed window that does not open ends in a timeout. */
  function SendOutcome(cfg: Config, c: Conn, data: Payload): SendResult {
    if c.state != Open then Reset
    else if !ReadyForTx(c) then TimedOut
    else if |data| + 5 > cfg.bufferSize then NoMem
    else Sent
  }

  /** The send side after a payload was taken and its segment sent. */
  function SndPush(cfg: Config, d: Snd, data: Payload, ackNr: u16, now: u32): Snd {
    var s := Segment(false, true, false, false, d.nxt, ackNr, data, [], NO_OPTS);
    TxAdd(cfg, d, TxEntry(s, now, 0)).(nxt := Wrap(d.nxt + 1), out := d.out + [s], accepted := d.accepted + [data])
  }

  /** csp_send on an RDP connection. */
  function UserSend(cfg: Config, c: Conn, data: Payload, now: u32): Conn {
    if SendOutcome(cfg, c, data) != Sent then c
    else c.(snd := SndPush(cfg, c.snd, data, c.rcv.cur, now))
  }

  /** The receive side after one element was read. */
  function RcvPop(r: Rcv): Rcv
    requires r.inbox != []
  {
    r.(inbox := r.inbox[1..],
       readLog := if r.inbox[0].Some? then r.readLog + [r.inbox[0].value] else r.readLog)
  }

  /** csp_read. */
  function UserRead(cfg: Config, c: Conn, now: u32): Conn {
    if !c.open || c.rcv.inbox == [] then c
    else
      var c1 := c.(rcv := RcvPop(c.rcv));
      if c.opt.delayedAcks != 0 then CheckAck(cfg, c1, now) else c1
  }

  /** csp_close. */
  function UserClose(cfg: Config, c: Conn, now: u32): Conn {
    ConnClose(cfg, c, {Userspace}, now).(handle := false)
  }

  /** csp_connect up to the first SYN. */
  function Connecting(c: Conn, opts: Options, now: u32, iss: u16): Conn {
    c.(open := true, pending := false, timestamp := now, opt := opts, ackTimestamp := now, state := SynSent,
       connecting := true, closeLog := {}, rcv := c.rcv.(inbox := []),
       snd := c.snd.(iss := iss, nxt := Wrap(iss + 1), una := iss, started := true))
  }

  function Syn(opts: Options, iss: u16): Segment { Segment(true, false, false, false, iss, 0, [], [], opts) }

  /** csp_connect up to the wait for the peer's answer. */
  function ConnectStart(cfg: Config, c: Conn, opts: Options, now: u32, iss: u16): Conn {
    SendCmp(cfg, Connecting(c, opts, now, iss), Syn(opts, iss), now)
  }

  /** csp_connect after the wait. `woken` is the semaphore's answer. */
  function ConnectEnd(cfg: Config, c: Conn, woken: bool, now: u32): Conn {
    if woken && c.state == Open then c.(connecting := false, handle := true)
    else
      var c1 := CloseInternal(cfg, c, {Protocol}, false, now).0;
      ConnClose(cfg, c1, {Userspace}, now).(connecting := false)
  }
}
