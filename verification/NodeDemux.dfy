/** Unique demultiplexing in the whole router, together with everything else a node does. */
module NodeDemux {
  import opened Base
  import opened ConnTable
  import opened Node
  import opened NodeBuffers

  /** csp_port_get_socket finds a socket only for the ports that can be bound. */
  ghost predicate PortsBound(g: Config) {
    forall p: nat :: g.socket(p).Some? ==> p <= CSP_PORT_MAX_BIND
  }

  lemma EnqueueKeepsWf(n: Node, i: nat, b: Buf)
    requires Shaped(n) && i < |n.rx| && Wf(n.table)
    ensures Wf(Enqueue(n, i, b).table)
  {
  }

  lemma RouteKeepsWf(g: Config, c: Chance, n: Node)
    requires PortsBound(g) && Shaped(n) && Wf(n.table) && RouteWork(g, c, n).Some?
    ensures Wf(RouteWork(g, c, n).value.table)
  {
    hide Wf, SendDirect, Matches, Incoming, Enqueue;
    if n.fifo != [] && n.fifo[0].buf.Some? {
      var m, b := n.(fifo := n.fifo[1..]), n.fifo[0].buf.value;
      var id := ReadId(m, b);
      if !c.duplicate && !g.toMe(n.fifo[0].iface, id) {
        SendDirectShape(g, c, m, id, b, Some(n.fifo[0].iface));
      } else if !c.duplicate {
        ToConnectionKeepsWf(g, c, m, b, id);
      }
    }
  }

  lemma ToConnectionKeepsWf(g: Config, c: Chance, n: Node, b: Buf, id: Id)
    requires PortsBound(g) && Shaped(n) && Wf(n.table)
    ensures Wf(ToConnection(g, c, n, b, id).table)
  {
    hide Wf, Matches, Incoming, Enqueue;
    var i, s := Find(n.table.slots, id), g.socket(id.dport);
    if i < |n.table.slots| {
      EnqueueKeepsWf(n, i, b);
    } else if s.Some? && Incoming(n.table, id).Some? {
      IncomingKeepsWf(n.table, id);
      IncomingShape(n.table, id);
      var t := Incoming(n.table, id).value;
      EnqueueKeepsWf(FlushRx(n.(table := t, dest := n.dest[t.last := s]), t.last), t.last, b);
    }
  }

  /** Most events leave the connections alone. */
  predicate LeavesTable(e: Event) {
    !e.Route? && !e.AppSend? && !e.AppSendTo? && !e.AppConnect? && !e.AppClose?
  }

  lemma SameTable(g: Config, n: Node, e: Event)
    requires Shaped(n) && NodeBuffers.Do(g, n, e).Some? && LeavesTable(e)
    ensures NodeBuffers.Do(g, n, e).value.table == n.table
  {
    hide RouteWork, SendDirect, FreeAll, Connect, Close;
  }

  lemma StepKeepsTable(g: Config, n: Node, e: Event)
    requires PortsBound(g) && Shaped(n) && Wf(n.table) && NodeBuffers.Do(g, n, e).Some?
    ensures Wf(NodeBuffers.Do(g, n, e).value.table)
  {
    hide Wf, RouteWork, SendDirect, FreeAll, Connect, Close, Shaped;
    if LeavesTable(e) {
      SameTable(g, n, e);
    } else {
      match e
      case Route(c) => RouteKeepsWf(g, c, n);
      case AppSend(i, b, c) => SendKeepsTable(g, c, n, i, b);
      case AppSendTo(idout, b, c) => SendToKeepsTable(g, c, n, idout, b);
      case AppConnect(prio, dest, dport, flags) => ConnectKeepsWf(n.table, prio, dest, dport, flags);
      case AppClose(i) => CloseConnKeepsWf(n, i);
    }
  }

  lemma SendKeepsTable(g: Config, c: Chance, n: Node, i: nat, b: Buf)
    requires Shaped(n) && i < |n.rx| && Send(g, c, TakeApp(n, b), i, b).Some?
    ensures Send(g, c, TakeApp(n, b), i, b).value.table == n.table
  {
    hide SendDirect;
    if n.table.slots[i].open {
      SendDirectShape(g, c, TakeApp(n, b), n.table.slots[i].idout, b, None);
    }
  }

  lemma SendToKeepsTable(g: Config, c: Chance, n: Node, idout: Id, b: Buf)
    requires Shaped(n) && SendDirect(g, c, TakeApp(n, b), idout, b, None).Some?
    ensures SendDirect(g, c, TakeApp(n, b), idout, b, None).value.table == n.table
  {
    hide SendDirect;
    SendDirectShape(g, c, TakeApp(n, b), idout, b, None);
  }

  lemma CloseConnKeepsWf(n: Node, i: nat)
    requires Shaped(n) && Wf(n.table) && i < |n.rx|
    ensures Wf(CloseConn(n, i).table)
  {
    hide Wf;
    CloseKeepsWf(n.table, i);
  }

  lemma {:induction false} RunKeepsTable(g: Config, sockets: nat, run: seq<Node>, events: seq<Event>, k: nat)
    requires PortsBound(g) && NodeBuffers.IsRun(g, sockets, run, events) && k < |run|
    ensures Wf(run[k].table)
    decreases k
  {
    hide NodeBuffers.Do;
    if k > 0 {
      RunKeepsTable(g, sockets, run, events, k - 1);
      assert NodeBuffers.Do(g, run[k - 1], events[k - 1]) == Some(run[k - 1 + 1]);
      StepKeepsTable(g, run[k - 1], events[k - 1]);
    }
  }

  /** In every state of every run of a node, the packet at the head of the router's queue, like any other, matches at
      most one open connection. */
  lemma UniqueInEveryRun(g: Config, sockets: nat, run: seq<Node>, events: seq<Event>, k: nat, id: Id, i: nat, j: nat)
    requires PortsBound(g) && NodeBuffers.IsRun(g, sockets, run, events) && k < |run|
    requires i < |run[k].table.slots| && j < |run[k].table.slots|
    requires Matches(run[k].table.slots[i], id) && Matches(run[k].table.slots[j], id)
    ensures i == j
  {
    RunKeepsTable(g, sockets, run, events, k);
    MatchUnique(run[k].table, id, i, j);
  }
}
