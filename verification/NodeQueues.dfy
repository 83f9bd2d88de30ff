/** No packet is misdelivered: whatever waits on a connection belongs to it, and whatever waits on a connection-less
    socket is for its port. */
module NodeQueues {
  import opened Base
  import opened ConnTable
  import opened Node
  import opened NodeBuffers
  import opened NodeSend

  /** Every packet in a receive queue matches the connection of the queue, and every packet in the queue of a
      connection-less socket is for a port of that socket. */
  predicate Proper(g: Config, n: Node) {
    && |n.rx| == |n.table.slots|
    && (forall i :: 0 <= i < |n.rx| ==> RxProper(n, n.table.slots[i], n.rx[i]))
    && (forall s :: 0 <= s < |n.inbox| ==> InboxProper(g, n, s, n.inbox[s]))
  }

  predicate RxProper(n: Node, c: Slot, q: seq<Buf>) { forall b <- q :: Matches(c, ReadId(n, b)) }

  predicate InboxProper(g: Config, n: Node, s: nat, q: seq<Buf>) {
    forall b <- q :: g.socket(ReadId(n, b).dport) == Some(s)
  }

  /** A buffer that waits in one of these queues. */
  ghost predicate Waits(n: Node, b: Buf) {
    (exists i :: 0 <= i < |n.rx| && b in n.rx[i]) || (exists s :: 0 <= s < |n.inbox| && b in n.inbox[s])
  }

  // ---------------------------------------------------------------- what waits is nowhere else

  lemma {:induction false} SumAtLeast(qs: seq<seq<Buf>>, i: nat, b: Buf)
    requires i < |qs| && b in qs[i]
    ensures Sum(qs, b) >= 1
    decreases qs
  {
    if i > 0 {
      SumAtLeast(qs[1..], i - 1, b);
    }
  }

  lemma WaitsAlone(n: Node, hand: multiset<Buf>, b: Buf)
    requires Owned(n, hand) && Waits(n, b)
    ensures b !in n.pool.free && b !in hand && b !in n.apps && b !in n.drivers
  {
    if i :| 0 <= i < |n.rx| && b in n.rx[i] {
      SumAtLeast(n.rx, i, b);
    } else {
      var s :| 0 <= s < |n.inbox| && b in n.inbox[s];
      SumAtLeast(n.inbox, s, b);
    }
    assert Places(n, b) + hand[b] <= 1;
  }

  /** The same queues and connections, and the same identifiers in what waits. */
  ghost predicate SameQueues(n: Node, m: Node) {
    && m.rx == n.rx && m.inbox == n.inbox && m.table == n.table
    && (forall b: Buf :: Waits(n, b) ==> ReadId(m, b) == ReadId(n, b))
  }

  lemma StaysProper(g: Config, n: Node, m: Node)
    requires Proper(g, n) && SameQueues(n, m)
    ensures Proper(g, m)
  {
    hide ReadId, Matches;
    forall i | 0 <= i < |m.rx| ensures RxProper(m, m.table.slots[i], m.rx[i]) {
      assert RxProper(n, n.table.slots[i], n.rx[i]);
      forall b | b in m.rx[i] ensures Matches(m.table.slots[i], ReadId(m, b)) {
        assert Waits(n, b);
      }
    }
    forall s | 0 <= s < |m.inbox| ensures InboxProper(g, m, s, m.inbox[s]) {
      assert InboxProper(g, n, s, n.inbox[s]);
      forall b | b in m.inbox[s] ensures g.socket(ReadId(m, b).dport) == Some(s) {
        assert Waits(n, b);
      }
    }
  }

  /** A receive queue changes, with its connection perhaps; the identifiers stay. */
  lemma RxChanged(g: Config, n: Node, m: Node, k: nat)
    requires Proper(g, n) && m.ids == n.ids && m.inbox == n.inbox && |m.rx| == |n.rx| == |m.table.slots| && k < |n.rx|
    requires forall i :: 0 <= i < |n.rx| && i != k ==> m.rx[i] == n.rx[i] && m.table.slots[i] == n.table.slots[i]
    requires RxProper(m, m.table.slots[k], m.rx[k])
    ensures Proper(g, m)
  {
    hide Matches;
    forall i | 0 <= i < |m.rx| ensures RxProper(m, m.table.slots[i], m.rx[i]) {
      if i != k {
        assert RxProper(n, n.table.slots[i], n.rx[i]);
      }
    }
    forall s | 0 <= s < |m.inbox| ensures InboxProper(g, m, s, m.inbox[s]) {
      assert InboxProper(g, n, s, n.inbox[s]);
    }
  }

  // ---------------------------------------------------------------- sending

  lemma {:induction false} LocalFrame(g: Config, c: Chance, n: Node, idout: Id, b: Buf, from: Option<nat>, k: nat)
    requires SendLocal(g, c, n, idout, b, from, k).Some?
    ensures var m := SendLocal(g, c, n, idout, b, from, k).value;
            && m.rx == n.rx && m.inbox == n.inbox && m.table == n.table && m.fifo == n.fifo && m.backlog == n.backlog
            && m.dest == n.dest
    decreases g.ifaces - k
  {
    hide Target;
    if k < g.ifaces {
      if Target(g, idout.dst, k, from) {
        var (m, d) := Clone(n, b).value;
        var out := idout.(src := g.addr(k));
        LocalFrame(g, c, SendIface(m, out, d, k, c.sends(k)), out, b, from, k + 1);
      } else {
        LocalFrame(g, c, n, idout, b, from, k + 1);
      }
    }
  }

  lemma SendKeepsQueues(g: Config, c: Chance, n: Node, idout: Id, b: Buf, from: Option<nat>, hand: multiset<Buf>)
    requires Owned(n, hand + multiset{b}) && Shaped(n) && SendDirect(g, c, n, idout, b, from).Some?
    ensures SameQueues(n, SendDirect(g, c, n, idout, b, from).value)
  {
    hide Owned, SendLocal, AnyTarget, ReadId, Waits, Free;
    var m := SendDirect(g, c, n, idout, b, from).value;
    InHand(n, b, hand);
    InRange(n, hand + multiset{b});
    if AnyTarget(g, idout.dst, from) {
      LocalFrame(g, c, n, idout, b, from, 0);
      var l := SendLocal(g, c, n, idout, b, from, 0).value;
      FreeIsPool(l, b);
      FreeKeepsIds(l, b);
    } else {
      FreeIsPool(n, b);
      FreeKeepsIds(n, b);
      IfaceFrame(n, idout, b, if g.route(idout.dst).Some? then g.route(idout.dst).value else 0, c);
    }
    forall x: Buf | Waits(n, x) ensures ReadId(m, x) == ReadId(n, x) {
      WaitsAlone(n, hand + multiset{b}, x);
      if AnyTarget(g, idout.dst, from) {
        LocalKeeps(g, c, n, idout, b, from, 0, x);
      }
    }
  }

  lemma FreeIsPool(n: Node, b: Buf)
    ensures Free(n, b) == n.(pool := Free(n, b).pool)
  {
  }

  lemma IfaceFrame(n: Node, idout: Id, b: Buf, k: nat, c: Chance)
    requires b < |n.ids|
    ensures var m := SendIface(n, idout, b, k, c.sends(k));
            && m.rx == n.rx && m.inbox == n.inbox && m.table == n.table
            && (forall x: Buf :: x != b ==> ReadId(m, x) == ReadId(n, x))
  {
  }

  // ---------------------------------------------------------------- connections

  lemma FlushFrame(n: Node, i: nat)
    requires i < |n.rx|
    ensures FlushRx(n, i) == n.(rx := n.rx[i := []], pool := FlushRx(n, i).pool)
  {
  }

  lemma CloseProper(g: Config, n: Node, i: nat)
    requires Proper(g, n) && Shaped(n) && i < |n.rx|
    ensures Proper(g, CloseConn(n, i))
  {
    hide Proper, Matches, FlushRx;
    if n.table.slots[i].open {
      var m := n.(table := Close(n.table, i));
      FlushFrame(m, i);
      assert RxProper(CloseConn(n, i), CloseConn(n, i).table.slots[i], []);
      RxChanged(g, n, CloseConn(n, i), i);
    }
  }

  lemma OpenProper(g: Config, n: Node, prio: nat, dest: nat, dport: nat, flags: nat)
    requires Proper(g, n) && Shaped(n)
    ensures Proper(g, OpenConn(n, prio, dest, dport, flags))
  {
    hide Proper, Matches, FlushRx;
    var t := Connect(n.table, prio, dest, dport, flags);
    if t.Some? {
      var i := t.value.last;
      FlushFrame(n.(table := t.value, dest := n.dest[i := None]), i);
      RxChanged(g, n, OpenConn(n, prio, dest, dport, flags), i);
    }
  }

  lemma EnqueueProper(g: Config, n: Node, i: nat, b: Buf)
    requires Proper(g, n) && Shaped(n) && i < |n.rx| && Matches(n.table.slots[i], ReadId(n, b))
    ensures Proper(g, Enqueue(n, i, b))
  {
    hide Matches, Free, CloseConn, ReadId;
    FreeIsPool(n, b);
    if |n.rx[i]| >= CSP_CONN_RXQUEUE_LEN {
      SamePlaces(g, n, Free(n, b));
    } else {
      var m := n.(rx := n.rx[i := n.rx[i] + [b]]);
      assert RxProper(n, n.table.slots[i], n.rx[i]);
      assert RxProper(m, m.table.slots[i], m.rx[i]) by { SameId(n, m); }
      hide Proper, RxProper;
      RxChanged(g, n, m, i);
      CloseProper(g, m, i);
      if m.dest[i].Some? && m.dest[i].value < |m.backlog| {
        var s := m.dest[i].value;
        SamePlaces(g, m, m.(backlog := m.backlog[s := m.backlog[s] + [i]], dest := m.dest[i := None]));
      }
    }
  }

  lemma SameId(n: Node, m: Node)
    requires m.ids == n.ids
    ensures forall b: Buf :: ReadId(m, b) == ReadId(n, b)
  {
  }

  lemma SamePlaces(g: Config, n: Node, m: Node)
    requires Proper(g, n) && m.rx == n.rx && m.inbox == n.inbox && m.table == n.table && m.ids == n.ids
    ensures Proper(g, m)
  {
    hide Proper;
    SameId(n, m);
    StaysProper(g, n, m);
  }

  lemma ToConnectionProper(g: Config, c: Chance, n: Node, b: Buf)
    requires Proper(g, n) && Shaped(n)
    ensures Proper(g, ToConnection(g, c, n, b, ReadId(n, b)))
  {
    hide Proper, Matches, Free, Enqueue, ReadId, FlushRx, Incoming;
    var id := ReadId(n, b);
    var i, s := Find(n.table.slots, id), g.socket(id.dport);
    FreeIsPool(n, b);
    SamePlaces(g, n, Free(n, b));
    if i < |n.table.slots| {
      EnqueueProper(g, n, i, b);
    } else if s.Some? && c.secure && Incoming(n.table, id).Some? {
      var t := Incoming(n.table, id).value;
      IncomingFits(n.table, id);
      var m := n.(table := t, dest := n.dest[t.last := s]);
      var f := FlushRx(m, t.last);
      FlushFrame(m, t.last);
      assert RxProper(f, f.table.slots[t.last], []);
      RxChanged(g, n, f, t.last);
      SameId(n, f);
      EnqueueProper(g, f, t.last, b);
    }
  }

  lemma IncomingFits(t: Table, id: Id)
    requires t.last < |t.slots| && Incoming(t, id).Some?
    ensures var u := Incoming(t, id).value;
            && |u.slots| == |t.slots| && u.last < |t.slots| && Matches(u.slots[u.last], id)
            && (forall i :: 0 <= i < |t.slots| && i != u.last ==> u.slots[i] == t.slots[i])
  {
  }

  // ---------------------------------------------------------------- events

  lemma ToMeProper(g: Config, c: Chance, n: Node, b: Buf)
    requires Proper(g, n) && Shaped(n)
    ensures Proper(g, ToMe(g, c, n, b, ReadId(n, b)))
  {
    hide Proper, Free, ReadId, ToConnection;
    var id := ReadId(n, b);
    var s := g.socket(id.dport);
    FreeIsPool(n, b);
    SamePlaces(g, n, Free(n, b));
    SamePlaces(g, n, n.(apps := n.apps + multiset{b}));
    ToConnectionProper(g, c, n, b);
    if s.Some? && s.value < |n.inbox| {
      InboxGains(g, n, s.value, b);
    }
  }

  lemma InboxGains(g: Config, n: Node, s: nat, b: Buf)
    requires Proper(g, n) && s < |n.inbox| && g.socket(ReadId(n, b).dport) == Some(s)
    ensures Proper(g, n.(inbox := n.inbox[s := n.inbox[s] + [b]]))
  {
    hide Matches, ReadId;
    var m := n.(inbox := n.inbox[s := n.inbox[s] + [b]]);
    SameId(n, m);
    forall i | 0 <= i < |m.rx| ensures RxProper(m, m.table.slots[i], m.rx[i]) {
      assert RxProper(n, n.table.slots[i], n.rx[i]);
    }
    forall k | 0 <= k < |m.inbox| ensures InboxProper(g, m, k, m.inbox[k]) {
      assert InboxProper(g, n, k, n.inbox[k]);
    }
  }

  lemma InboxLoses(g: Config, n: Node, s: nat)
    requires Proper(g, n) && s < |n.inbox| && n.inbox[s] != []
    ensures Proper(g, GiveApp(n.(inbox := n.inbox[s := n.inbox[s][1..]]), n.inbox[s][0]))
  {
    hide Matches, ReadId;
    var m := GiveApp(n.(inbox := n.inbox[s := n.inbox[s][1..]]), n.inbox[s][0]);
    SameId(n, m);
    forall i | 0 <= i < |m.rx| ensures RxProper(m, m.table.slots[i], m.rx[i]) {
      assert RxProper(n, n.table.slots[i], n.rx[i]);
    }
    forall k | 0 <= k < |m.inbox| ensures InboxProper(g, m, k, m.inbox[k]) {
      assert InboxProper(g, n, k, n.inbox[k]);
    }
  }

  lemma ReadProper(g: Config, n: Node, i: nat)
    requires Proper(g, n) && Shaped(n) && i < |n.rx|
    ensures Proper(g, Read(n, i))
  {
    hide Matches, ReadId;
    if n.table.slots[i].open && n.rx[i] != [] {
      var m := Read(n, i);
      SameId(n, m);
      assert RxProper(n, n.table.slots[i], n.rx[i]);
      assert RxProper(m, m.table.slots[i], m.rx[i]);
      hide Proper, RxProper;
      RxChanged(g, n, m, i);
    }
  }

  lemma RouteProper(g: Config, c: Chance, n: Node)
    requires Good(n) && Proper(g, n) && RouteWork(g, c, n).Some?
    ensures Proper(g, RouteWork(g, c, n).value)
  {
    hide Proper, Owned, SendDirect, ToMe, Free, SameQueues, ReadId;
    if n.fifo != [] {
      var m := n.(fifo := n.fifo[1..]);
      SamePlaces(g, n, m);
      if n.fifo[0].buf.Some? {
        var b, from := n.fifo[0].buf.value, Some(n.fifo[0].iface);
        FreeIsPool(m, b);
        SamePlaces(g, m, Free(m, b));
        ToMeProper(g, c, m, b);
        FromFifo(n, multiset{});
        if SendDirect(g, c, m, ReadId(m, b), b, from).Some? {
          SendKeepsQueues(g, c, m, ReadId(m, b), b, from, multiset{});
          StaysProper(g, m, SendDirect(g, c, m, ReadId(m, b), b, from).value);
        }
      }
    }
  }

  /** A buffer that is taken or written was not waiting. */
  lemma WrittenElsewhere(g: Config, n: Node, m: Node, b: Buf)
    requires Good(n) && Proper(g, n) && (b in n.pool.free || b in n.drivers || b in n.apps)
    requires m.rx == n.rx && m.inbox == n.inbox && m.table == n.table
    requires forall x: Buf :: x != b ==> ReadId(m, x) == ReadId(n, x)
    ensures Proper(g, m)
  {
    hide Proper, ReadId, Owned;
    forall x: Buf | Waits(n, x) ensures ReadId(m, x) == ReadId(n, x) {
      WaitsAlone(n, multiset{}, x);
    }
    StaysProper(g, n, m);
  }

  lemma GetProper(g: Config, n: Node, id: Id)
    requires Good(n) && Proper(g, n) && Get(n).Some?
    ensures var (m, b) := Get(n).value;
            Proper(g, GiveApp(WriteId(m, b, id), b)) && Proper(g, GiveDriver(WriteId(m, b, id), b))
  {
    hide Proper, Good;
    var (m, b) := Get(n).value;
    WrittenElsewhere(g, n, GiveApp(WriteId(m, b, id), b), b);
    WrittenElsewhere(g, n, GiveDriver(WriteId(m, b, id), b), b);
  }

  lemma AppSendProper(g: Config, c: Chance, n: Node, idout: Id, b: Buf)
    requires Good(n) && Proper(g, n) && b in n.apps && SendDirect(g, c, TakeApp(n, b), idout, b, None).Some?
    ensures Proper(g, SendDirect(g, c, TakeApp(n, b), idout, b, None).value)
  {
    hide Proper, Owned, SendDirect, SameQueues;
    var m := TakeApp(n, b);
    SamePlaces(g, n, m);
    FromApp(n, b, multiset{});
    SendKeepsQueues(g, c, m, idout, b, None, multiset{});
    StaysProper(g, m, SendDirect(g, c, m, idout, b, None).value);
  }

  lemma FreedProper(g: Config, n: Node, b: Buf)
    requires Proper(g, n)
    ensures Proper(g, Free(TakeApp(n, b), b)) && Proper(g, Free(TakeDriver(n, b), b))
  {
    hide Proper, Free;
    FreeIsPool(TakeApp(n, b), b);
    FreeIsPool(TakeDriver(n, b), b);
    SamePlaces(g, n, Free(TakeApp(n, b), b));
    SamePlaces(g, n, Free(TakeDriver(n, b), b));
  }

  lemma DriverReceiveProper(g: Config, n: Node, iface: nat, b: Buf, id: Id)
    requires Good(n) && Proper(g, n) && b in n.drivers
    ensures Proper(g, QfifoWrite(WriteId(TakeDriver(n, b), b, id), iface, b))
  {
    hide Proper, Good, Free;
    var m := WriteId(TakeDriver(n, b), b, id);
    WrittenElsewhere(g, n, m, b);
    FreeIsPool(m, b);
    SamePlaces(g, m, QfifoWrite(m, iface, b));
  }

  lemma StepProper(g: Config, n: Node, e: Event)
    requires Good(n) && Proper(g, n) && NodeBuffers.Do(g, n, e).Some?
    ensures Proper(g, NodeBuffers.Do(g, n, e).value)
  {
    hide Proper, Owned, RouteWork, SendDirect, Read, OpenConn, CloseConn, Free, Get, QfifoWrite, WriteId;
    match e
    case Route(c) => RouteProper(g, c, n);
    case WakeUp => SamePlaces(g, n, n.(fifo := n.fifo + [Input(0, None)]));
    case AppGet(id) =>
      if Get(n).Some? {
        GetProper(g, n, id);
      }
    case AppFree(b) => FreedProper(g, n, b);
    case AppSend(i, b, c) =>
      FreedProper(g, n, b);
      if n.table.slots[i].open {
        AppSendProper(g, c, n, n.table.slots[i].idout, b);
      }
    case AppSendTo(idout, b, c) => AppSendProper(g, c, n, idout, b);
    case AppRead(i) => ReadProper(g, n, i);
    case AppReceive(s) => InboxLoses(g, n, s);
    case AppAccept(s) => SamePlaces(g, n, n.(backlog := n.backlog[s := n.backlog[s][1..]]));
    case AppConnect(prio, dest, dport, flags) => OpenProper(g, n, prio, dest, dport, flags);
    case AppClose(i) => CloseProper(g, n, i);
    case DriverGet(id) =>
      if Get(n).Some? {
        GetProper(g, n, id);
      }
    case DriverFree(b) => FreedProper(g, n, b);
    case DriverReceive(iface, b, id) => DriverReceiveProper(g, n, iface, b, id);
  }

  lemma StartProper(g: Config, sockets: nat)
    ensures Proper(g, Start(sockets))
  {
  }

  /** No packet is misdelivered: in every state of every run, a packet in the receive queue of a connection matches that
      connection, and a packet in the queue of a connection-less socket is for a port of that socket. */
  lemma {:induction false} NeverMisdelivered(g: Config, sockets: nat, run: seq<Node>, events: seq<Event>, k: nat)
    requires NodeBuffers.IsRun(g, sockets, run, events) && k < |run|
    ensures Proper(g, run[k])
    decreases k
  {
    hide NodeBuffers.Do, Good, Proper, Start;
    if k == 0 {
      StartProper(g, sockets);
    } else {
      NeverMisdelivered(g, sockets, run, events, k - 1);
      RunGood(g, sockets, run, events, k - 1);
      assert NodeBuffers.Do(g, run[k - 1], events[k - 1]) == Some(run[k - 1 + 1]);
      assert Shaped(run[k - 1]);
      StepProper(g, run[k - 1], events[k - 1]);
    }
  }

  // ---------------------------------------------------------------- and it does arrive

  /** A packet that passes the security check, for an open connection with room, is queued on it, last, and nothing else
      changes. */
  lemma QueuedOnConnection(g: Config, c: Chance, n: Node, b: Buf, i: nat)
    requires Shaped(n) && Wf(n.table) && c.secure && !g.callback(ReadId(n, b).dport)
    requires var s := g.socket(ReadId(n, b).dport); s.Some? ==> s.value >= |n.inbox| || !g.connLess(s.value)
    requires i < |n.rx| && Matches(n.table.slots[i], ReadId(n, b)) && |n.rx[i]| < CSP_CONN_RXQUEUE_LEN
    requires n.dest[i].None?
    ensures ToMe(g, c, n, b, ReadId(n, b)) == n.(rx := n.rx[i := n.rx[i] + [b]])
  {
    hide Wf, Matches, ReadId;
    var k := Find(n.table.slots, ReadId(n, b));
    if k < |n.table.slots| {
      MatchUnique(n.table, ReadId(n, b), i, k);
    }
  }

  /** The first packet of a new connection is queued on it, alone, and the connection is offered to the socket of its
      port, once and last, if there is room for it. */
  lemma NewConnectionOffered(g: Config, c: Chance, n: Node, b: Buf, s: nat)
    requires Shaped(n) && c.secure && !g.callback(ReadId(n, b).dport) && g.socket(ReadId(n, b).dport) == Some(s)
    requires s < |n.backlog| && !g.connLess(s) && |n.backlog[s]| < CSP_CONN_RXQUEUE_LEN && CSP_CONN_RXQUEUE_LEN > 0
    requires Find(n.table.slots, ReadId(n, b)) == |n.table.slots| && Incoming(n.table, ReadId(n, b)).Some?
    ensures var m, t := ToMe(g, c, n, b, ReadId(n, b)), Incoming(n.table, ReadId(n, b)).value;
            && m.table == t && m.rx == n.rx[t.last := [b]] && m.backlog == n.backlog[s := n.backlog[s] + [t.last]]
            && m.dest == n.dest[t.last := None] && m.inbox == n.inbox && m.apps == n.apps
  {
    hide Matches, ReadId, Incoming, FlushRx;
    var t := Incoming(n.table, ReadId(n, b)).value;
    IncomingFits(n.table, ReadId(n, b));
    var m := n.(table := t, dest := n.dest[t.last := Some(s)]);
    FlushFrame(m, t.last);
    assert n.dest[t.last := Some(s)][t.last := None] == n.dest[t.last := None];
    var one: seq<Buf> := [] + [b];
    assert one == [b];
    assert n.rx[t.last := []][t.last := one] == n.rx[t.last := one];
  }

  /** A packet for a callback or for a connection-less socket with room goes to its application, or to the end of that
      socket's queue. */
  lemma QueuedOnSocket(g: Config, c: Chance, n: Node, b: Buf, id: Id)
    requires Shaped(n) && c.secure
    ensures g.callback(id.dport) ==> ToMe(g, c, n, b, id) == n.(apps := n.apps + multiset{b})
    ensures !g.callback(id.dport) ==>
              forall s: nat :: g.socket(id.dport) == Some(s) && s < |n.inbox| && g.connLess(s)
                               && |n.inbox[s]| < CSP_CONN_RXQUEUE_LEN ==>
                ToMe(g, c, n, b, id) == n.(inbox := n.inbox[s := n.inbox[s] + [b]])
  {
  }

  /** A packet that fails the security check, or one seen before, goes back to the pool and reaches nobody. */
  lemma RejectedReachesNobody(g: Config, c: Chance, n: Node)
    requires Shaped(n) && n.fifo != [] && n.fifo[0].buf.Some?
    requires c.duplicate || (!c.secure && g.toMe(n.fifo[0].iface, ReadId(n, n.fifo[0].buf.value)))
    ensures RouteWork(g, c, n) == Some(Free(n.(fifo := n.fifo[1..]), n.fifo[0].buf.value))
  {
    hide Free, Matches, Incoming;
  }

  // ---------------------------------------------------------------- in turn

  /** A queue changes in turn: one element is put behind the others, or the first is taken, or nothing happens. */
  predicate InTurn<T(==)>(q: seq<T>, r: seq<T>) {
    r == q || (q != [] && r == q[1..]) || (|r| == |q| + 1 && r[..|q|] == q)
  }

  /** Every queue of a node changes in turn, except that of a connection which opens or closes. */
  predicate AllInTurn(n: Node, m: Node) {
    && InTurn(n.fifo, m.fifo) && |m.rx| == |n.rx| && |m.inbox| == |n.inbox| && |m.backlog| == |n.backlog|
    && |n.table.slots| == |m.table.slots| == |n.rx|
    && (forall i :: 0 <= i < |n.rx| && n.table.slots[i].open && m.table.slots[i].open ==> InTurn(n.rx[i], m.rx[i]))
    && (forall s :: 0 <= s < |n.inbox| ==> InTurn(n.inbox[s], m.inbox[s]))
    && (forall s :: 0 <= s < |n.backlog| ==> InTurn(n.backlog[s], m.backlog[s]))
  }

  lemma SendFrame(g: Config, c: Chance, n: Node, idout: Id, b: Buf, from: Option<nat>)
    requires SendDirect(g, c, n, idout, b, from).Some?
    ensures var m := SendDirect(g, c, n, idout, b, from).value;
            m.rx == n.rx && m.inbox == n.inbox && m.table == n.table && m.fifo == n.fifo && m.backlog == n.backlog
  {
    hide SendLocal, AnyTarget;
    if AnyTarget(g, idout.dst, from) {
      LocalFrame(g, c, n, idout, b, from, 0);
    }
  }

  lemma CloseInTurn(n: Node, i: nat)
    requires Shaped(n) && i < |n.rx|
    ensures AllInTurn(n, CloseConn(n, i)) && CloseConn(n, i).fifo == n.fifo && !CloseConn(n, i).table.slots[i].open
    ensures var m := CloseConn(n, i);
            && m.inbox == n.inbox && m.backlog == n.backlog && |m.rx| == |n.rx| == |m.table.slots|
            && (forall j :: 0 <= j < |n.rx| && j != i ==> m.rx[j] == n.rx[j] && m.table.slots[j] == n.table.slots[j])
  {
    hide FlushRx;
    FlushFrame(n.(table := Close(n.table, i)), i);
  }

  lemma OpenInTurn(n: Node, prio: nat, dest: nat, dport: nat, flags: nat)
    requires Shaped(n)
    ensures AllInTurn(n, OpenConn(n, prio, dest, dport, flags))
  {
    hide FlushRx, InTurn;
    var t := Connect(n.table, prio, dest, dport, flags);
    if t.Some? {
      FlushFrame(n.(table := t.value, dest := n.dest[t.value.last := None]), t.value.last);
    }
    Unmoved(n.rx);
    Unmoved(n.inbox);
    Unmoved(n.backlog);
    Unmoved([n.fifo]);
  }

  lemma Unmoved<T>(qs: seq<seq<T>>)
    ensures forall q <- qs :: InTurn(q, q)
  {
  }

  lemma EnqueueInTurn(n: Node, i: nat, b: Buf)
    requires Shaped(n) && i < |n.rx|
    ensures AllInTurn(n, Enqueue(n, i, b)) && Enqueue(n, i, b).fifo == n.fifo && Enqueue(n, i, b).inbox == n.inbox
    ensures var m := Enqueue(n, i, b);
            forall j :: 0 <= j < |n.rx| && j != i ==> m.rx[j] == n.rx[j] && m.table.slots[j] == n.table.slots[j]
  {
    hide CloseConn, Free;
    FreeIsPool(n, b);
    var m := n.(rx := n.rx[i := n.rx[i] + [b]]);
    CloseInTurn(m, i);
  }

  lemma ToConnectionInTurn(g: Config, c: Chance, n: Node, b: Buf, id: Id)
    requires Shaped(n)
    ensures AllInTurn(n, ToConnection(g, c, n, b, id)) && ToConnection(g, c, n, b, id).fifo == n.fifo
  {
    hide Free, Matches, Enqueue, FlushRx, InTurn;
    FreeIsPool(n, b);
    Unmoved(n.rx);
    Unmoved(n.inbox);
    Unmoved(n.backlog);
    Unmoved([n.fifo]);
    var i := Find(n.table.slots, id);
    if i < |n.table.slots| {
      EnqueueInTurn(n, i, b);
    } else if Incoming(n.table, id).Some? {
      var t := Incoming(n.table, id).value;
      IncomingFits(n.table, id);
      var m := n.(table := t, dest := n.dest[t.last := g.socket(id.dport)]);
      FlushFrame(m, t.last);
      EnqueueInTurn(FlushRx(m, t.last), t.last, b);
    }
  }

  lemma RouteInTurn(g: Config, c: Chance, n: Node)
    requires Shaped(n) && RouteWork(g, c, n).Some?
    ensures AllInTurn(n, RouteWork(g, c, n).value)
    ensures n.fifo != [] ==> RouteWork(g, c, n).value.fifo == n.fifo[1..]
  {
    hide Free, ToConnection, SendDirect;
    if n.fifo != [] && n.fifo[0].buf.Some? {
      var m, b := n.(fifo := n.fifo[1..]), n.fifo[0].buf.value;
      FreeIsPool(m, b);
      ToConnectionInTurn(g, c, m, b, ReadId(m, b));
      if !c.duplicate && !g.toMe(n.fifo[0].iface, ReadId(m, b)) {
        SendFrame(g, c, m, ReadId(m, b), b, Some(n.fifo[0].iface));
      }
    }
  }

  /** Nothing moves but the router's input queue. */
  lemma FifoMoves(n: Node, m: Node)
    requires Shaped(n) && m.rx == n.rx && m.inbox == n.inbox && m.table == n.table && m.backlog == n.backlog
    requires InTurn(n.fifo, m.fifo)
    ensures AllInTurn(n, m)
  {
  }

  lemma ReadInTurn(n: Node, i: nat)
    requires Shaped(n) && i < |n.rx|
    ensures AllInTurn(n, Read(n, i))
  {
  }

  lemma SocketInTurn(n: Node, s: nat)
    requires Shaped(n) && s < |n.inbox|
    ensures n.inbox[s] != [] ==> AllInTurn(n, GiveApp(n.(inbox := n.inbox[s := n.inbox[s][1..]]), n.inbox[s][0]))
    ensures n.backlog[s] != [] ==> AllInTurn(n, n.(backlog := n.backlog[s := n.backlog[s][1..]]))
  {
  }

  /** What an application or a driver gets, frees or sends leaves every queue as it is. */
  lemma PoolFrame(n: Node, b: Buf, id: Id)
    ensures FifoFrame(n, Free(TakeApp(n, b), b)) && FifoFrame(n, Free(TakeDriver(n, b), b))
    ensures Get(n).Some? ==>
              var (m, d) := Get(n).value;
              FifoFrame(n, GiveApp(WriteId(m, d, id), d)) && FifoFrame(n, GiveDriver(WriteId(m, d, id), d))
  {
  }

  predicate FifoFrame(n: Node, m: Node) {
    m.fifo == n.fifo && m.rx == n.rx && m.inbox == n.inbox && m.table == n.table && m.backlog == n.backlog
  }

  lemma FrameInTurn(n: Node, m: Node)
    requires Shaped(n) && FifoFrame(n, m)
    ensures AllInTurn(n, m)
  {
    FifoMoves(n, m);
  }

  lemma ReceiveInTurn(n: Node, iface: nat, b: Buf, id: Id)
    requires Shaped(n)
    ensures AllInTurn(n, QfifoWrite(WriteId(TakeDriver(n, b), b, id), iface, b))
    ensures AllInTurn(n, n.(fifo := n.fifo + [Input(0, None)]))
  {
    hide AllInTurn, Free;
    var m := WriteId(TakeDriver(n, b), b, id);
    FreeIsPool(m, b);
    FifoMoves(n, QfifoWrite(m, iface, b));
    FifoMoves(n, n.(fifo := n.fifo + [Input(0, None)]));
  }

  lemma SendInTurn(g: Config, c: Chance, n: Node, idout: Id, b: Buf)
    requires Shaped(n) && SendDirect(g, c, TakeApp(n, b), idout, b, None).Some?
    ensures AllInTurn(n, SendDirect(g, c, TakeApp(n, b), idout, b, None).value)
  {
    hide SendDirect, AllInTurn;
    SendFrame(g, c, TakeApp(n, b), idout, b, None);
    FrameInTurn(n, SendDirect(g, c, TakeApp(n, b), idout, b, None).value);
  }

  lemma StepInTurn(g: Config, n: Node, e: Event)
    requires Shaped(n) && NodeBuffers.Do(g, n, e).Some?
    ensures AllInTurn(n, NodeBuffers.Do(g, n, e).value)
  {
    hide RouteWork, SendDirect, Read, OpenConn, CloseConn, Free, Get, AllInTurn, FifoFrame, QfifoWrite, WriteId;
    var m := NodeBuffers.Do(g, n, e).value;
    PoolFrame(n, if e.AppFree? || e.AppSend? || e.DriverFree? then e.b else 0,
              if e.AppGet? || e.DriverGet? then e.id else ZERO);
    if FifoFrame(n, m) {
      FrameInTurn(n, m);
    }
    SelfFrame(n);
    match e
    case Route(c) => RouteInTurn(g, c, n);
    case WakeUp => ReceiveInTurn(n, 0, 0, ZERO);
    case AppGet(id) =>
    case AppFree(b) =>
    case AppSend(i, b, c) =>
      if n.table.slots[i].open {
        SendInTurn(g, c, n, n.table.slots[i].idout, b);
      }
    case AppSendTo(idout, b, c) => SendInTurn(g, c, n, idout, b);
    case AppRead(i) => ReadInTurn(n, i);
    case AppReceive(s) => SocketInTurn(n, s);
    case AppAccept(s) => SocketInTurn(n, s);
    case AppConnect(prio, dest, dport, flags) => OpenInTurn(n, prio, dest, dport, flags);
    case AppClose(i) => CloseInTurn(n, i);
    case DriverGet(id) =>
    case DriverFree(b) =>
    case DriverReceive(iface, b, id) => ReceiveInTurn(n, iface, b, id);
  }

  lemma SelfFrame(n: Node)
    ensures FifoFrame(n, n)
  {
  }

  /** First in, first out, in every run: the router's input queue, the queues of the sockets and those of the
      connections which stay open change in turn. */
  lemma FirstInFirstOut(g: Config, sockets: nat, run: seq<Node>, events: seq<Event>, k: nat)
    requires NodeBuffers.IsRun(g, sockets, run, events) && k < |events|
    ensures AllInTurn(run[k], run[k + 1])
  {
    hide Owned, NodeBuffers.Do, AllInTurn, Start;
    RunGood(g, sockets, run, events, k);
    assert NodeBuffers.Do(g, run[k], events[k]) == Some(run[k + 1]);
    StepInTurn(g, run[k], events[k]);
  }
}
