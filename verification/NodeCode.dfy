/** The router, the send path and the buffer pool as code that changes the node. */
module NodeCode {
  import opened Base
  import opened ConnTable
  import opened Node
  import opened NodeBuffers

  class Router {
    const g: Config
    var n: Node

    /** csp_buffer_init: every buffer is put in the queue of free ones. */
    constructor (g: Config, sockets: nat)
      ensures this.g == g && n == Start(sockets)
    {
      this.g := g;
      var free: seq<Buf> := [];
      while |free| < CSP_BUFFER_COUNT
        invariant |free| <= CSP_BUFFER_COUNT && free == Range(|free|)
      {
        free := free + [|free|];
      }
      n := Start(sockets).(pool := Pool(free, seq(CSP_BUFFER_COUNT, _ => 0)));
    }

    /** csp_buffer_get. */
    method BufferGet() returns (b: Option<Buf>)
      modifies this
      ensures b.Some? <==> Get(old(n)).Some?
      ensures if b.Some? then (n, b.value) == Get(old(n)).value else n == old(n)
    {
      if n.pool.free == [] {
        return None;
      }
      var x := n.pool.free[0];
      n := n.(pool := n.pool.(free := n.pool.free[1..]));
      if x < |n.pool.refs| {
        n := n.(pool := n.pool.(refs := n.pool.refs[x := 1]));
      }
      return Some(x);
    }

    /** csp_buffer_free. */
    method BufferFree(b: Buf)
      modifies this
      ensures n == Free(old(n), b)
    {
      if b >= |n.pool.refs| || n.pool.refs[b] == 0 {
        return;
      }
      n := n.(pool := n.pool.(refs := n.pool.refs[b := n.pool.refs[b] - 1]));
      if n.pool.refs[b] > 0 {
        return;
      }
      n := n.(pool := n.pool.(free := n.pool.free + [b]));
    }

    /** csp_buffer_clone. */
    method BufferClone(b: Buf) returns (d: Option<Buf>)
      modifies this
      ensures d.Some? <==> Clone(old(n), b).Some?
      ensures if d.Some? then (n, d.value) == Clone(old(n), b).value else n == old(n)
    {
      var id := ReadId(n, b);
      d := BufferGet();
      if d.Some? {
        n := WriteId(n, d.value, id);
      }
    }

    /** csp_qfifo_write. */
    method QfifoPut(iface: nat, b: Buf)
      modifies this
      ensures n == QfifoWrite(old(n), iface, b)
    {
      if |n.fifo| < CSP_QFIFO_LEN {
        n := n.(fifo := n.fifo + [Input(iface, Some(b))]);
      } else {
        BufferFree(b);
      }
    }

    /** csp_send_direct_iface. */
    method SendDirectIface(idout: Id, b: Buf, k: nat, works: bool)
      modifies this
      ensures n == SendIface(old(n), idout, b, k, works)
    {
      n := WriteId(n, b, idout);
      if works {
        n := n.(drivers := n.drivers + multiset{b}, handed := n.handed + [Handed(k, b, ReadId(n, b))]);
      } else {
        BufferFree(b);
      }
    }

    /** csp_send_direct: the loop over the interfaces, then the routing table. */
    method SendPacket(c: Chance, id: Id, b: Buf, from: Option<nat>)
      requires SendDirect(g, c, n, id, b, from).Some?
      modifies this
      ensures n == SendDirect(g, c, old(n), id, b, from).value
    {
      hide Get, Free, WriteId, Target;
      var idout, k, local_found := id, 0, false;
      ghost var whole := SendLocal(g, c, n, id, b, from, 0);
      while k < g.ifaces
        invariant 0 <= k <= g.ifaces && idout.dst == id.dst
        invariant local_found <==> exists j :: 0 <= j < k && Target(g, id.dst, j, from)
        invariant local_found || (n == old(n) && idout == id)
        invariant AnyTarget(g, id.dst, from) ==> SendLocal(g, c, n, idout, b, from, k) == whole && whole.Some?
      {
        if Target(g, id.dst, k, from) {
          assert AnyTarget(g, id.dst, from);
          idout := idout.(src := g.addr(k));
          var copy := BufferClone(b);
          SendDirectIface(idout, copy.value, k, c.sends(k));
          local_found := true;
        }
        k := k + 1;
      }
      if local_found {
        BufferFree(b);
        return;
      }
      var route := g.route(idout.dst);
      if route.Some? {
        SendDirectIface(idout, b, route.value, c.sends(route.value));
        return;
      }
      BufferFree(b);
    }

    /** csp_conn_flush_rx_queue. */
    method FlushQueue(i: nat)
      requires i < |n.rx|
      modifies this
      ensures n == FlushRx(old(n), i)
    {
      hide Free;
      ghost var whole := FlushRx(n, i);
      while n.rx[i] != []
        invariant i < |n.rx| && FlushRx(n, i) == whole
        decreases |n.rx[i]|
      {
        var b := n.rx[i][0];
        FlushStep(n, i);
        n := n.(rx := n.rx[i := n.rx[i][1..]]);
        FreeFrame(n, b);
        BufferFree(b);
      }
      assert n.rx[i := []] == n.rx;
    }

    /** csp_conn_close. */
    method ConnClose(i: nat)
      requires Shaped(n) && i < |n.rx|
      modifies this
      ensures n == CloseConn(old(n), i)
    {
      if !n.table.slots[i].open {
        return;
      }
      ghost var t := n;
      FlushQueue(i);
      CloseAfterFlush(t, i);
      n := n.(table := Close(n.table, i));
    }

    /** The end of csp_route_work. */
    method EnqueuePacket(i: nat, b: Buf)
      requires Shaped(n) && i < |n.rx|
      modifies this
      ensures n == Enqueue(old(n), i, b)
    {
      if |n.rx[i]| >= CSP_CONN_RXQUEUE_LEN {
        BufferFree(b);
        return;
      }
      n := n.(rx := n.rx[i := n.rx[i] + [b]]);
      if n.dest[i].Some? && n.dest[i].value < |n.backlog| {
        var s := n.dest[i].value;
        if |n.backlog[s]| >= CSP_CONN_RXQUEUE_LEN {
          ConnClose(i);
          return;
        }
        n := n.(backlog := n.backlog[s := n.backlog[s] + [i]]);
        n := n.(dest := n.dest[i := None]);
      }
    }

    /** csp_route_work. */
    method Work(c: Chance)
      requires Shaped(n) && RouteWork(g, c, n).Some?
      modifies this
      ensures n == RouteWork(g, c, old(n)).value
    {
      hide Free, FreeAll, Enqueue, Matches, Incoming, SendDirect;
      if n.fifo == [] {
        return;
      }
      var input := n.fifo[0];
      n := n.(fifo := n.fifo[1..]);
      if input.buf.None? {
        return;
      }
      var b := input.buf.value;
      var id := ReadId(n, b);
      if c.duplicate {
        BufferFree(b);
        return;
      }
      if !g.toMe(input.iface, id) {
        SendPacket(c, id, b, Some(input.iface));
        return;
      }
      if g.callback(id.dport) {
        if c.secure {
          n := n.(apps := n.apps + multiset{b});
        } else {
          BufferFree(b);
        }
        return;
      }
      var socket := g.socket(id.dport);
      if socket.Some? && socket.value < |n.inbox| && g.connLess(socket.value) {
        if !c.secure || |n.inbox[socket.value]| >= CSP_CONN_RXQUEUE_LEN {
          BufferFree(b);
        } else {
          n := n.(inbox := n.inbox[socket.value := n.inbox[socket.value] + [b]]);
        }
        return;
      }
      var conn := Find(n.table.slots, id);
      if conn == |n.table.slots| {
        if socket.None? || !c.secure {
          BufferFree(b);
          return;
        }
        var t := Incoming(n.table, id);
        if t.None? {
          BufferFree(b);
          return;
        }
        IncomingShape(n.table, id);
        conn := t.value.last;
        n := n.(table := t.value, dest := n.dest[conn := socket]);
        FlushQueue(conn);
      } else if !c.secure {
        BufferFree(b);
        return;
      }
      EnqueuePacket(conn, b);
    }
  }

  lemma FlushStep(n: Node, i: nat)
    requires i < |n.rx| && n.rx[i] != []
    ensures FlushRx(n, i) == FlushRx(Free(n.(rx := n.rx[i := n.rx[i][1..]]), n.rx[i][0]), i)
  {
    var m := n.(rx := n.rx[i := n.rx[i][1..]]);
    var b, q := n.rx[i][0], n.rx[i][1..];
    assert n.rx[i := []] == m.rx[i := []];
    FreeCommutes(m, b, i);
    assert FlushRx(n, i) == FreeAll(Free(m.(rx := m.rx[i := []]), b), q);
  }

  lemma FreeCommutes(n: Node, b: Buf, i: nat)
    requires i < |n.rx|
    ensures Free(n.(rx := n.rx[i := []]), b) == Free(n, b).(rx := n.rx[i := []])
  {
  }

  lemma FreeFrame(n: Node, b: Buf)
    ensures Free(n, b) == n.(pool := Free(n, b).pool)
  {
  }

  /** The connection can be marked closed before or after its queue is flushed. */
  lemma CloseAfterFlush(n: Node, i: nat)
    requires Shaped(n) && i < |n.rx|
    ensures FlushRx(n.(table := Close(n.table, i)), i) == FlushRx(n, i).(table := Close(n.table, i))
  {
    FreeAllTable(n.(rx := n.rx[i := []]), n.rx[i], Close(n.table, i));
  }

  lemma {:induction false} FreeAllTable(n: Node, q: seq<Buf>, t: Table)
    ensures FreeAll(n.(table := t), q) == FreeAll(n, q).(table := t)
    decreases q
  {
    if q != [] {
      assert Free(n.(table := t), q[0]) == Free(n, q[0]).(table := t);
      FreeAllTable(Free(n, q[0]), q[1..], t);
    }
  }
}
