/** One node: the buffer pool, the router's input queue, connections, sockets, applications and drivers. */
module Node {
  import opened Base
  import opened ConnTable

  type Buf = nat

  /** Build constants: any number of buffers, and queues of any length. */
  const CSP_BUFFER_COUNT: nat
  const CSP_QFIFO_LEN: nat
  const CSP_CONN_RXQUEUE_LEN: nat

  /** csp_buffers (the queue of free buffers) and the reference count of every buffer. */
  datatype Pool = Pool(free: seq<Buf>, refs: seq<nat>)

  /** An element of the router's input queue; csp_qfifo_wake_up puts one without a packet. */
  datatype Input = Input(iface: nat, buf: Option<Buf>)

  /** A packet given to a driver: the interface it leaves on, its buffer, and the identifier written there. */
  datatype Handed = Handed(iface: nat, buf: Buf, id: Id)

  /** A node. `ids` is what is written in the buffers; `rx` and `dest` belong to the connections (the receive queue and
      dest_socket); of a socket's queue, `inbox` is what a connection-less one holds and `backlog` what another does;
      `apps` and `drivers` are the buffers applications (and callbacks) and drivers own. `handed` is a trace that the
      code never reads: every packet given to a driver, in order. */
  datatype Node = Node(pool: Pool, ids: seq<Id>, fifo: seq<Input>, table: Table, rx: seq<seq<Buf>>,
                       dest: seq<Option<nat>>, inbox: seq<seq<Buf>>, backlog: seq<seq<nat>>,
                       apps: multiset<Buf>, drivers: multiset<Buf>, handed: seq<Handed>)

  /** What the node is set up with: the interfaces (numbered) an address is within the subnet of and whether two share
      a subnet, the routing table, whether a packet that came in on an interface is for this node, the ports with a
      callback, the socket of a port, and the sockets that are connection-less. */
  datatype Config = Config(ifaces: nat, addr: nat -> nat, within: (nat, nat) -> bool, route: nat -> Option<nat>,
                           toMe: (nat, Id) -> bool, callback: nat -> bool, socket: nat -> Option<nat>,
                           connLess: nat -> bool)

  /** What else decides a step: deduplication, the security check, and on which interfaces sending works (room for HMAC
      and CRC, MTU, and the driver's own answer). */
  datatype Chance = Chance(duplicate: bool, secure: bool, sends: nat -> bool)

  // ---------------------------------------------------------------- buffers

  /** csp_buffer_get: None where the pool is empty. */
  function Get(n: Node): Option<(Node, Buf)> {
    if n.pool.free == [] then None
    else
      var b := n.pool.free[0];
      Some((n.(pool := Pool(n.pool.free[1..], if b < |n.pool.refs| then n.pool.refs[b := 1] else n.pool.refs)), b))
  }

  /** csp_buffer_free: a buffer that is free already, or still referred to, is not put back. */
  function Free(n: Node, b: Buf): Node {
    if b >= |n.pool.refs| || n.pool.refs[b] == 0 then n
    else if n.pool.refs[b] - 1 > 0 then n.(pool := n.pool.(refs := n.pool.refs[b := n.pool.refs[b] - 1]))
    else n.(pool := Pool(n.pool.free + [b], n.pool.refs[b := 0]))
  }

  function FreeAll(n: Node, q: seq<Buf>): (m: Node)
    ensures m == n.(pool := m.pool)
    decreases q
  {
    if q == [] then n else FreeAll(Free(n, q[0]), q[1..])
  }

  function WriteId(n: Node, b: Buf, id: Id): Node {
    if b < |n.ids| then n.(ids := n.ids[b := id]) else n
  }

  function ReadId(n: Node, b: Buf): Id { if b < |n.ids| then n.ids[b] else ZERO }

  /** csp_buffer_clone. */
  function Clone(n: Node, b: Buf): Option<(Node, Buf)> {
    var g := Get(n);
    if g.None? then None else Some((WriteId(g.value.0, g.value.1, ReadId(n, b)), g.value.1))
  }

  /** csp_qfifo_write, from a driver. */
  function QfifoWrite(n: Node, iface: nat, b: Buf): Node {
    if |n.fifo| < CSP_QFIFO_LEN then n.(fifo := n.fifo + [Input(iface, Some(b))]) else Free(n, b)
  }

  // ---------------------------------------------------------------- sending

  /** csp_send_direct_iface: the driver takes the packet, or it is freed. */
  function SendIface(n: Node, idout: Id, b: Buf, k: nat, works: bool): Node {
    var m := WriteId(n, b, idout);
    if works then m.(drivers := m.drivers + multiset{b}, handed := m.handed + [Handed(k, b, ReadId(m, b))])
    else Free(m, b)
  }

  /** Whether csp_send_direct sends to an interface: split horizon. */
  predicate Target(g: Config, dst: nat, k: nat, from: Option<nat>) {
    g.within(dst, k) && from != Some(k) && !(from.Some? && g.within(g.addr(k), from.value))
  }

  /** The loop of csp_send_direct from interface `k` on: a clone for every local subnet. None where a clone fails. */
  function SendLocal(g: Config, c: Chance, n: Node, idout: Id, b: Buf, from: Option<nat>, k: nat): Option<Node>
    decreases g.ifaces - k
  {
    if k >= g.ifaces then Some(n)
    else if !Target(g, idout.dst, k, from) then SendLocal(g, c, n, idout, b, from, k + 1)
    else
      var d := Clone(n, b);
      if d.None? then None
      else
        var out := idout.(src := g.addr(k));
        SendLocal(g, c, SendIface(d.value.0, out, d.value.1, k, c.sends(k)), out, b, from, k + 1)
  }

  predicate AnyTarget(g: Config, dst: nat, from: Option<nat>) {
    exists k :: 0 <= k < g.ifaces && Target(g, dst, k, from)
  }

  /** csp_send_direct. */
  function SendDirect(g: Config, c: Chance, n: Node, idout: Id, b: Buf, from: Option<nat>): Option<Node> {
    if AnyTarget(g, idout.dst, from) then
      var m := SendLocal(g, c, n, idout, b, from, 0);
      if m.None? then None else Some(Free(m.value, b))
    else
      var r := g.route(idout.dst);
      Some(if r.Some? then SendIface(n, idout, b, r.value, c.sends(r.value)) else Free(n, b))
  }

  // ---------------------------------------------------------------- connections

  predicate Shaped(n: Node) {
    && |n.rx| == |n.dest| == |n.table.slots| && n.table.last < |n.table.slots| && |n.inbox| == |n.backlog|
    && |n.ids| == CSP_BUFFER_COUNT
  }

  /** csp_conn_flush_rx_queue. */
  function FlushRx(n: Node, i: nat): Node
    requires i < |n.rx|
  {
    FreeAll(n.(rx := n.rx[i := []]), n.rx[i])
  }

  /** csp_conn_close, for a connection without RDP. */
  function CloseConn(n: Node, i: nat): (m: Node)
    requires Shaped(n) && i < |n.rx|
  {
    if !n.table.slots[i].open then n else FlushRx(n.(table := Close(n.table, i)), i)
  }

  /** csp_connect, past its options. */
  function OpenConn(n: Node, prio: nat, dest: nat, dport: nat, flags: nat): Node
    requires Shaped(n)
  {
    var t := Connect(n.table, prio, dest, dport, flags);
    if t.None? then n
    else
      var i := t.value.last;
      var m := n.(table := t.value, dest := n.dest[i := None]);
      FlushRx(m, i)
  }

  // ---------------------------------------------------------------- the router

  /** The end of csp_route_work: the packet is queued on its connection, and a new connection on its socket. */
  function Enqueue(n: Node, i: nat, b: Buf): Node
    requires Shaped(n) && i < |n.rx|
  {
    if |n.rx[i]| >= CSP_CONN_RXQUEUE_LEN then Free(n, b)
    else
      var m := n.(rx := n.rx[i := n.rx[i] + [b]]);
      if m.dest[i].None? || m.dest[i].value >= |m.backlog| then m
      else if |m.backlog[m.dest[i].value]| >= CSP_CONN_RXQUEUE_LEN then CloseConn(m, i)
      else
        var s := m.dest[i].value;
        m.(backlog := m.backlog[s := m.backlog[s] + [i]], dest := m.dest[i := None])
  }

  /** A packet for a socket's new connection, or for the connection it belongs to. */
  function ToConnection(g: Config, c: Chance, n: Node, b: Buf, id: Id): Node
    requires Shaped(n)
  {
    var i, s := Find(n.table.slots, id), g.socket(id.dport);
    if i < |n.table.slots| then
      if !c.secure then Free(n, b) else Enqueue(n, i, b)
    else if s.None? || !c.secure then Free(n, b)
    else
      var t := Incoming(n.table, id);
      if t.None? then Free(n, b)
      else
        var k := t.value.last;
        var m := n.(table := t.value, dest := n.dest[k := s]);
        Enqueue(FlushRx(m, k), k, b)
  }

  /** A packet for this node. */
  function ToMe(g: Config, c: Chance, n: Node, b: Buf, id: Id): Node
    requires Shaped(n)
  {
    var s := g.socket(id.dport);
    if g.callback(id.dport) then
      if c.secure then n.(apps := n.apps + multiset{b}) else Free(n, b)
    else if s.Some? && s.value < |n.inbox| && g.connLess(s.value) then
      if !c.secure || |n.inbox[s.value]| >= CSP_CONN_RXQUEUE_LEN then Free(n, b)
      else n.(inbox := n.inbox[s.value := n.inbox[s.value] + [b]])
    else ToConnection(g, c, n, b, id)
  }

  /** csp_route_work, on a packet without RDP. None where a clone fails. */
  function RouteWork(g: Config, c: Chance, n: Node): Option<Node>
    requires Shaped(n)
  {
    if n.fifo == [] then Some(n)
    else
      var input, m := n.fifo[0], n.(fifo := n.fifo[1..]);
      if input.buf.None? then Some(m)
      else
        var b := input.buf.value;
        var id := ReadId(m, b);
        if c.duplicate then Some(Free(m, b))
        else if !g.toMe(input.iface, id) then SendDirect(g, c, m, id, b, Some(input.iface))
        else Some(ToMe(g, c, m, b, id))
  }
}
