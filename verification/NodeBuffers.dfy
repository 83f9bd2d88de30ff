/** Buffer conservation: every buffer of the pool is always in exactly one place. */
module NodeBuffers {
  import opened Base
  import opened ConnTable
  import opened Node

  // ---------------------------------------------------------------- where buffers are

  function Times(q: seq<Buf>, b: Buf): nat { multiset(q)[b] }

  function Queued(fifo: seq<Input>, b: Buf): nat
    decreases fifo
  {
    if fifo == [] then 0 else (if fifo[0].buf == Some(b) then 1 else 0) + Queued(fifo[1..], b)
  }

  function Sum(qs: seq<seq<Buf>>, b: Buf): nat
    decreases qs
  {
    if qs == [] then 0 else Times(qs[0], b) + Sum(qs[1..], b)
  }

  /** How often a buffer is in any of the places. */
  function Places(n: Node, b: Buf): nat {
    Times(n.pool.free, b) + Queued(n.fifo, b) + Sum(n.rx, b) + Sum(n.inbox, b) + n.apps[b] + n.drivers[b]
  }

  /** A buffer has a reference exactly if it is not free. */
  predicate Counted(p: Pool) {
    |p.refs| == CSP_BUFFER_COUNT && forall b :: 0 <= b < |p.refs| ==> p.refs[b] == if b in p.free then 0 else 1
  }

  /** Each buffer of the pool is once in a place or in the hand of the running step, and nothing else is. */
  ghost predicate Once(n: Node, hand: multiset<Buf>) {
    forall b: Buf :: Places(n, b) + hand[b] == if b < CSP_BUFFER_COUNT then 1 else 0
  }

  ghost predicate Owned(n: Node, hand: multiset<Buf>) { Once(n, hand) && Counted(n.pool) }

  lemma {:induction false} SumUpdate(qs: seq<seq<Buf>>, i: nat, q: seq<Buf>, b: Buf)
    requires i < |qs|
    ensures Sum(qs[i := q], b) + Times(qs[i], b) == Sum(qs, b) + Times(q, b)
    decreases qs
  {
    hide Times;
    if i == 0 {
      assert qs[i := q][1..] == qs[1..];
    } else {
      assert qs[i := q][1..] == qs[1..][i - 1 := q];
      SumUpdate(qs[1..], i - 1, q, b);
    }
  }

  lemma {:induction false} QueuedAppend(fifo: seq<Input>, x: Input, b: Buf)
    ensures Queued(fifo + [x], b) == Queued(fifo, b) + if x.buf == Some(b) then 1 else 0
    decreases fifo
  {
    if fifo == [] {
      assert fifo + [x] == [x];
    } else {
      assert (fifo + [x])[1..] == fifo[1..] + [x];
      QueuedAppend(fifo[1..], x, b);
    }
  }

  lemma TimesAppend(q: seq<Buf>, x: Buf, b: Buf)
    ensures Times(q + [x], b) == Times(q, b) + multiset{x}[b]
  {
  }

  lemma TimesTail(q: seq<Buf>, b: Buf)
    requires q != []
    ensures Times(q, b) == Times(q[1..], b) + multiset{q[0]}[b]
  {
    assert q == [q[0]] + q[1..];
  }

  lemma TimesNone(b: Buf)
    ensures Times([], b) == 0
  {
  }

  // ---------------------------------------------------------------- the operations

  /** A buffer in hand is a buffer of the pool, is nowhere else, and has its one reference. */
  lemma InHand(n: Node, b: Buf, hand: multiset<Buf>)
    requires Owned(n, hand + multiset{b})
    ensures b < CSP_BUFFER_COUNT && n.pool.refs[b] == 1 && b !in n.pool.free
  {
    hide Queued, Sum;
    assert Places(n, b) + (hand + multiset{b})[b] <= 1;
  }

  /** What is no longer in hand is in a place. */
  lemma Moved(n: Node, had: multiset<Buf>, m: Node, has: multiset<Buf>)
    requires Owned(n, had) && Counted(m.pool)
    requires forall b: Buf :: Places(m, b) + has[b] == Places(n, b) + had[b]
    ensures Owned(m, has)
  {
  }

  lemma FreeCounted(n: Node, b: Buf)
    requires Counted(n.pool) && b < CSP_BUFFER_COUNT && n.pool.refs[b] == 1
    ensures Free(n, b).pool == Pool(n.pool.free + [b], n.pool.refs[b := 0]) && Counted(Free(n, b).pool)
  {
  }

  lemma FreeOwned(n: Node, b: Buf, hand: multiset<Buf>)
    requires Owned(n, hand + multiset{b})
    ensures Owned(Free(n, b), hand)
  {
    InHand(n, b, hand);
    hide Queued, Sum, Times, Counted, Once;
    FreeCounted(n, b);
    var m := Free(n, b);
    forall x: Buf ensures Places(m, x) + hand[x] == Places(n, x) + (hand + multiset{b})[x] {
      TimesAppend(n.pool.free, b, x);
    }
    Moved(n, hand + multiset{b}, m, hand);
  }

  lemma GetCounted(n: Node)
    requires Counted(n.pool) && Get(n).Some? && Get(n).value.1 < CSP_BUFFER_COUNT
    requires Times(n.pool.free, n.pool.free[0]) <= 1
    ensures Counted(Get(n).value.0.pool)
  {
    TimesTail(n.pool.free, n.pool.free[0]);
  }

  lemma GetOwned(n: Node, hand: multiset<Buf>)
    requires Owned(n, hand) && Get(n).Some?
    ensures Owned(Get(n).value.0, hand + multiset{Get(n).value.1})
  {
    hide Queued, Sum, Times, Counted;
    var (m, b) := Get(n).value;
    TimesTail(n.pool.free, b);
    assert Places(n, b) + hand[b] <= 1;
    GetCounted(n);
    forall x: Buf ensures Places(m, x) + (hand + multiset{b})[x] == Places(n, x) + hand[x] {
      TimesTail(n.pool.free, x);
    }
    Moved(n, hand, m, hand + multiset{b});
  }

  /** What is not a place does not matter. */
  lemma SameBuffers(n: Node, m: Node, hand: multiset<Buf>)
    requires Owned(n, hand)
    requires m.pool == n.pool && m.fifo == n.fifo && m.rx == n.rx && m.inbox == n.inbox
    requires m.apps == n.apps && m.drivers == n.drivers
    ensures Owned(m, hand)
  {
  }

  lemma CloneOwned(n: Node, b: Buf, hand: multiset<Buf>)
    requires Owned(n, hand) && Clone(n, b).Some?
    ensures Owned(Clone(n, b).value.0, hand + multiset{Clone(n, b).value.1})
  {
    hide Owned;
    GetOwned(n, hand);
    var (m, d) := Get(n).value;
    SameBuffers(m, WriteId(m, d, ReadId(n, b)), hand + multiset{d});
  }

  lemma {:induction false} FreeAllOwned(n: Node, q: seq<Buf>, hand: multiset<Buf>)
    requires Owned(n, hand + multiset(q))
    ensures Owned(FreeAll(n, q), hand)
    decreases q
  {
    hide Owned, Free;
    if q == [] {
      assert hand + multiset(q) == hand;
    } else {
      assert q == [q[0]] + q[1..];
      assert hand + multiset(q) == (hand + multiset(q[1..])) + multiset{q[0]};
      FreeOwned(n, q[0], hand + multiset(q[1..]));
      FreeAllOwned(Free(n, q[0]), q[1..], hand);
    }
  }

  lemma FlushOwned(n: Node, i: nat, hand: multiset<Buf>)
    requires Owned(n, hand) && i < |n.rx|
    ensures Owned(FlushRx(n, i), hand)
  {
    hide Queued, Sum, Counted, FreeAll, Once;
    var m := n.(rx := n.rx[i := []]);
    forall x: Buf ensures Places(m, x) + (hand + multiset(n.rx[i]))[x] == Places(n, x) + hand[x] {
      SumUpdate(n.rx, i, [], x);
      TimesNone(x);
    }
    Moved(n, hand, m, hand + multiset(n.rx[i]));
    FreeAllOwned(m, n.rx[i], hand);
  }

  lemma ToDriver(n: Node, b: Buf, hand: multiset<Buf>)
    requires Owned(n, hand + multiset{b})
    ensures Owned(n.(drivers := n.drivers + multiset{b}), hand)
  {
    hide Queued, Sum, Times, Counted, Once;
    var m := n.(drivers := n.drivers + multiset{b});
    Moved(n, hand + multiset{b}, m, hand);
  }

  lemma ToApp(n: Node, b: Buf, hand: multiset<Buf>)
    requires Owned(n, hand + multiset{b})
    ensures Owned(n.(apps := n.apps + multiset{b}), hand)
  {
    hide Queued, Sum, Times, Counted, Once;
    var m := n.(apps := n.apps + multiset{b});
    Moved(n, hand + multiset{b}, m, hand);
  }

  lemma FromDriver(n: Node, b: Buf, hand: multiset<Buf>)
    requires Owned(n, hand) && b in n.drivers
    ensures Owned(n.(drivers := n.drivers - multiset{b}), hand + multiset{b})
  {
  }

  lemma FromApp(n: Node, b: Buf, hand: multiset<Buf>)
    requires Owned(n, hand) && b in n.apps
    ensures Owned(n.(apps := n.apps - multiset{b}), hand + multiset{b})
  {
  }

  lemma ToRx(n: Node, i: nat, b: Buf, hand: multiset<Buf>)
    requires Owned(n, hand + multiset{b}) && i < |n.rx|
    ensures Owned(n.(rx := n.rx[i := n.rx[i] + [b]]), hand)
  {
    hide Queued, Sum, Times, Counted, Once;
    var m := n.(rx := n.rx[i := n.rx[i] + [b]]);
    forall x: Buf ensures Places(m, x) + hand[x] == Places(n, x) + (hand + multiset{b})[x] {
      SumUpdate(n.rx, i, n.rx[i] + [b], x);
      TimesAppend(n.rx[i], b, x);
    }
    Moved(n, hand + multiset{b}, m, hand);
  }

  lemma FromRx(n: Node, i: nat, hand: multiset<Buf>)
    requires Owned(n, hand) && i < |n.rx| && n.rx[i] != []
    ensures Owned(n.(rx := n.rx[i := n.rx[i][1..]]), hand + multiset{n.rx[i][0]})
  {
    hide Queued, Sum, Times, Counted, Once;
    var m := n.(rx := n.rx[i := n.rx[i][1..]]);
    forall x: Buf ensures Places(m, x) + (hand + multiset{n.rx[i][0]})[x] == Places(n, x) + hand[x] {
      SumUpdate(n.rx, i, n.rx[i][1..], x);
      TimesTail(n.rx[i], x);
    }
    Moved(n, hand, m, hand + multiset{n.rx[i][0]});
  }

  lemma ToInbox(n: Node, i: nat, b: Buf, hand: multiset<Buf>)
    requires Owned(n, hand + multiset{b}) && i < |n.inbox|
    ensures Owned(n.(inbox := n.inbox[i := n.inbox[i] + [b]]), hand)
  {
    hide Queued, Sum, Times, Counted, Once;
    var m := n.(inbox := n.inbox[i := n.inbox[i] + [b]]);
    forall x: Buf ensures Places(m, x) + hand[x] == Places(n, x) + (hand + multiset{b})[x] {
      SumUpdate(n.inbox, i, n.inbox[i] + [b], x);
      TimesAppend(n.inbox[i], b, x);
    }
    Moved(n, hand + multiset{b}, m, hand);
  }

  lemma FromInbox(n: Node, i: nat, hand: multiset<Buf>)
    requires Owned(n, hand) && i < |n.inbox| && n.inbox[i] != []
    ensures Owned(n.(inbox := n.inbox[i := n.inbox[i][1..]]), hand + multiset{n.inbox[i][0]})
  {
    hide Queued, Sum, Times, Counted, Once;
    var m := n.(inbox := n.inbox[i := n.inbox[i][1..]]);
    forall x: Buf ensures Places(m, x) + (hand + multiset{n.inbox[i][0]})[x] == Places(n, x) + hand[x] {
      SumUpdate(n.inbox, i, n.inbox[i][1..], x);
      TimesTail(n.inbox[i], x);
    }
    Moved(n, hand, m, hand + multiset{n.inbox[i][0]});
  }

  /** The buffer of an input, if it has one. */
  function Carried(x: Input): multiset<Buf> { if x.buf.Some? then multiset{x.buf.value} else multiset{} }

  lemma ToFifo(n: Node, x: Input, hand: multiset<Buf>)
    requires Owned(n, hand + Carried(x))
    ensures Owned(n.(fifo := n.fifo + [x]), hand)
  {
    hide Queued, Sum, Times, Counted, Once;
    var m := n.(fifo := n.fifo + [x]);
    forall b: Buf ensures Places(m, b) + hand[b] == Places(n, b) + (hand + Carried(x))[b] {
      QueuedAppend(n.fifo, x, b);
    }
    Moved(n, hand + Carried(x), m, hand);
  }

  lemma FromFifo(n: Node, hand: multiset<Buf>)
    requires Owned(n, hand) && n.fifo != []
    ensures Owned(n.(fifo := n.fifo[1..]), hand + Carried(n.fifo[0]))
  {
  }

  // ---------------------------------------------------------------- sending

  lemma SendIfaceOwned(n: Node, idout: Id, b: Buf, k: nat, works: bool, hand: multiset<Buf>)
    requires Owned(n, hand + multiset{b})
    ensures Owned(SendIface(n, idout, b, k, works), hand)
  {
    hide Owned, Free;
    var m := WriteId(n, b, idout);
    SameBuffers(n, m, hand + multiset{b});
    if works {
      ToDriver(m, b, hand);
      var given := m.(drivers := m.drivers + multiset{b});
      SameBuffers(given, given.(handed := m.handed + [Handed(k, b, ReadId(m, b))]), hand);
    } else {
      FreeOwned(m, b, hand);
    }
  }

  lemma {:induction false} SendLocalOwned(g: Config, c: Chance, n: Node, idout: Id, b: Buf, from: Option<nat>, k: nat,
                                          hand: multiset<Buf>)
    requires Owned(n, hand) && SendLocal(g, c, n, idout, b, from, k).Some?
    ensures Owned(SendLocal(g, c, n, idout, b, from, k).value, hand)
    decreases g.ifaces - k
  {
    hide Owned, Clone, SendIface, Target;
    if k < g.ifaces {
      if Target(g, idout.dst, k, from) {
        CloneOwned(n, b, hand);
        var (m, d) := Clone(n, b).value;
        var out := idout.(src := g.addr(k));
        SendIfaceOwned(m, out, d, k, c.sends(k), hand);
        SendLocalOwned(g, c, SendIface(m, out, d, k, c.sends(k)), out, b, from, k + 1, hand);
      } else {
        SendLocalOwned(g, c, n, idout, b, from, k + 1, hand);
      }
    }
  }

  lemma SendDirectOwned(g: Config, c: Chance, n: Node, idout: Id, b: Buf, from: Option<nat>, hand: multiset<Buf>)
    requires Owned(n, hand + multiset{b}) && SendDirect(g, c, n, idout, b, from).Some?
    ensures Owned(SendDirect(g, c, n, idout, b, from).value, hand)
  {
    hide Owned, SendLocal, SendIface, AnyTarget, Free;
    if AnyTarget(g, idout.dst, from) {
      SendLocalOwned(g, c, n, idout, b, from, 0, hand + multiset{b});
      FreeOwned(SendLocal(g, c, n, idout, b, from, 0).value, b, hand);
    } else {
      var r := g.route(idout.dst);
      if r.Some? {
        SendIfaceOwned(n, idout, b, r.value, c.sends(r.value), hand);
      } else {
        FreeOwned(n, b, hand);
      }
    }
  }

  // ---------------------------------------------------------------- the router

  lemma CloseOwned(n: Node, i: nat, hand: multiset<Buf>)
    requires Owned(n, hand) && Shaped(n) && i < |n.rx|
    ensures Owned(CloseConn(n, i), hand) && Shaped(CloseConn(n, i))
  {
    hide Owned;
    if n.table.slots[i].open {
      var m := n.(table := Close(n.table, i));
      SameBuffers(n, m, hand);
      FlushOwned(m, i, hand);
    }
  }

  lemma EnqueueOwned(n: Node, i: nat, b: Buf, hand: multiset<Buf>)
    requires Owned(n, hand + multiset{b}) && Shaped(n) && i < |n.rx|
    ensures Owned(Enqueue(n, i, b), hand) && Shaped(Enqueue(n, i, b))
  {
    hide Owned, CloseConn;
    if |n.rx[i]| >= CSP_CONN_RXQUEUE_LEN {
      FreeOwned(n, b, hand);
    } else {
      var m := n.(rx := n.rx[i := n.rx[i] + [b]]);
      ToRx(n, i, b, hand);
      CloseOwned(m, i, hand);
      SameBuffers(m, m.(backlog := Enqueue(n, i, b).backlog, dest := Enqueue(n, i, b).dest), hand);
    }
  }

  lemma ToConnectionOwned(g: Config, c: Chance, n: Node, b: Buf, id: Id, hand: multiset<Buf>)
    requires Owned(n, hand + multiset{b}) && Shaped(n)
    ensures Owned(ToConnection(g, c, n, b, id), hand) && Shaped(ToConnection(g, c, n, b, id))
  {
    hide Owned, Enqueue, Incoming, Matches;
    var i := Find(n.table.slots, id);
    var t := Incoming(n.table, id);
    FreeOwned(n, b, hand);
    if i < |n.table.slots| {
      EnqueueOwned(n, i, b, hand);
    } else if t.Some? {
      IncomingShape(n.table, id);
      var k := t.value.last;
      var m := n.(table := t.value, dest := n.dest[k := g.socket(id.dport)]);
      SameBuffers(n, m, hand + multiset{b});
      FlushOwned(m, k, hand + multiset{b});
      EnqueueOwned(FlushRx(m, k), k, b, hand);
    }
  }

  lemma IncomingShape(t: Table, id: Id)
    requires t.last < |t.slots| && Incoming(t, id).Some?
    ensures |Incoming(t, id).value.slots| == |t.slots| && Incoming(t, id).value.last < |t.slots|
  {
  }

  lemma ToMeOwned(g: Config, c: Chance, n: Node, b: Buf, id: Id, hand: multiset<Buf>)
    requires Owned(n, hand + multiset{b}) && Shaped(n)
    ensures Owned(ToMe(g, c, n, b, id), hand) && Shaped(ToMe(g, c, n, b, id))
  {
    hide Owned, ToConnection;
    var s := g.socket(id.dport);
    FreeOwned(n, b, hand);
    ToApp(n, b, hand);
    if s.Some? && s.value < |n.inbox| {
      ToInbox(n, s.value, b, hand);
    }
    ToConnectionOwned(g, c, n, b, id, hand);
  }

  lemma {:induction false} SendLocalShape(g: Config, c: Chance, n: Node, idout: Id, b: Buf, from: Option<nat>, k: nat)
    requires Shaped(n) && SendLocal(g, c, n, idout, b, from, k).Some?
    ensures var m := SendLocal(g, c, n, idout, b, from, k).value; Shaped(m) && m.table == n.table
    decreases g.ifaces - k
  {
    hide Target;
    if k < g.ifaces {
      if Target(g, idout.dst, k, from) {
        var (m, d) := Clone(n, b).value;
        var out := idout.(src := g.addr(k));
        SendLocalShape(g, c, SendIface(m, out, d, k, c.sends(k)), out, b, from, k + 1);
      } else {
        SendLocalShape(g, c, n, idout, b, from, k + 1);
      }
    }
  }

  lemma SendDirectShape(g: Config, c: Chance, n: Node, idout: Id, b: Buf, from: Option<nat>)
    requires Shaped(n) && SendDirect(g, c, n, idout, b, from).Some?
    ensures var m := SendDirect(g, c, n, idout, b, from).value; Shaped(m) && m.table == n.table
  {
    hide SendLocal, AnyTarget;
    if AnyTarget(g, idout.dst, from) {
      SendLocalShape(g, c, n, idout, b, from, 0);
    }
  }

  /** Whatever path csp_route_work takes, the packet is freed once or handed on once. */
  lemma RouteOwned(g: Config, c: Chance, n: Node)
    requires Owned(n, multiset{}) && Shaped(n) && RouteWork(g, c, n).Some?
    ensures Owned(RouteWork(g, c, n).value, multiset{}) && Shaped(RouteWork(g, c, n).value)
  {
    hide Owned, SendDirect, ToMe;
    if n.fifo != [] {
      FromFifo(n, multiset{});
      var m := n.(fifo := n.fifo[1..]);
      if n.fifo[0].buf.Some? {
        var b := n.fifo[0].buf.value;
        var id := ReadId(m, b);
        if c.duplicate {
          FreeOwned(m, b, multiset{});
        } else if !g.toMe(n.fifo[0].iface, id) {
          SendDirectOwned(g, c, m, id, b, Some(n.fifo[0].iface), multiset{});
          SendDirectShape(g, c, m, id, b, Some(n.fifo[0].iface));
        } else {
          ToMeOwned(g, c, m, b, id, multiset{});
        }
      } else {
        assert multiset{} + Carried(n.fifo[0]) == multiset{};
      }
    }
  }

  // ---------------------------------------------------------------- runs

  /** What happens on a node: a router step, and what applications and drivers do with buffers they own. */
  datatype Event =
    | Route(c: Chance)
    | WakeUp
    | AppGet(id: Id)
    | AppFree(b: Buf)
    | AppSend(i: nat, b: Buf, c: Chance)
    | AppSendTo(idout: Id, b: Buf, c: Chance)
    | AppRead(i: nat)
    | AppReceive(s: nat)
    | AppAccept(s: nat)
    | AppConnect(prio: nat, dest: nat, dport: nat, flags: nat)
    | AppClose(i: nat)
    | DriverGet(id: Id)
    | DriverFree(b: Buf)
    | DriverReceive(iface: nat, b: Buf, id: Id)

  /** csp_send. */
  function Send(g: Config, c: Chance, n: Node, i: nat, b: Buf): Option<Node>
    requires i < |n.table.slots|
  {
    if !n.table.slots[i].open then Some(Free(n, b)) else SendDirect(g, c, n, n.table.slots[i].idout, b, None)
  }

  /** csp_read. */
  function Read(n: Node, i: nat): Node
    requires Shaped(n) && i < |n.rx|
  {
    if !n.table.slots[i].open || n.rx[i] == [] then n
    else n.(rx := n.rx[i := n.rx[i][1..]], apps := n.apps + multiset{n.rx[i][0]})
  }

  function GiveApp(n: Node, b: Buf): Node { n.(apps := n.apps + multiset{b}) }

  function GiveDriver(n: Node, b: Buf): Node { n.(drivers := n.drivers + multiset{b}) }

  function TakeApp(n: Node, b: Buf): Node { n.(apps := n.apps - multiset{b}) }

  function TakeDriver(n: Node, b: Buf): Node { n.(drivers := n.drivers - multiset{b}) }

  /** One event; None where it cannot happen: the buffer is not the actor's, or a clone fails. */
  function Do(g: Config, n: Node, e: Event): Option<Node>
    requires Shaped(n)
  {
    match e
    case Route(c) => RouteWork(g, c, n)
    case WakeUp => Some(if |n.fifo| < CSP_QFIFO_LEN then n.(fifo := n.fifo + [Input(0, None)]) else n)
    case AppGet(id) =>
      var r := Get(n);
      Some(if r.None? then n else GiveApp(WriteId(r.value.0, r.value.1, id), r.value.1))
    case AppFree(b) => if b in n.apps then Some(Free(TakeApp(n, b), b)) else None
    case AppSend(i, b, c) => if b in n.apps && i < |n.rx| then Send(g, c, TakeApp(n, b), i, b) else None
    case AppSendTo(idout, b, c) => if b in n.apps then SendDirect(g, c, TakeApp(n, b), idout, b, None) else None
    case AppRead(i) => if i < |n.rx| then Some(Read(n, i)) else None
    case AppReceive(s) =>
      if s < |n.inbox| && n.inbox[s] != []
      then Some(GiveApp(n.(inbox := n.inbox[s := n.inbox[s][1..]]), n.inbox[s][0])) else None
    case AppAccept(s) =>
      if s < |n.backlog| && n.backlog[s] != [] then Some(n.(backlog := n.backlog[s := n.backlog[s][1..]])) else None
    case AppConnect(prio, dest, dport, flags) => Some(OpenConn(n, prio, dest, dport, flags))
    case AppClose(i) => if i < |n.rx| then Some(CloseConn(n, i)) else None
    case DriverGet(id) =>
      var r := Get(n);
      Some(if r.None? then n else GiveDriver(WriteId(r.value.0, r.value.1, id), r.value.1))
    case DriverFree(b) => if b in n.drivers then Some(Free(TakeDriver(n, b), b)) else None
    case DriverReceive(iface, b, id) =>
      if b in n.drivers then Some(QfifoWrite(WriteId(TakeDriver(n, b), b, id), iface, b)) else None
  }

  ghost predicate Good(n: Node) { Owned(n, multiset{}) && Shaped(n) }

  lemma GetGood(n: Node, id: Id)
    requires Good(n) && Get(n).Some?
    ensures var (m, b) := Get(n).value; Good(GiveApp(WriteId(m, b, id), b)) && Good(GiveDriver(WriteId(m, b, id), b))
  {
    hide Owned;
    var (m, b) := Get(n).value;
    GetOwned(n, multiset{});
    SameBuffers(m, WriteId(m, b, id), multiset{} + multiset{b});
    ToApp(WriteId(m, b, id), b, multiset{});
    ToDriver(WriteId(m, b, id), b, multiset{});
  }

  lemma SendGood(g: Config, c: Chance, n: Node, i: nat, b: Buf)
    requires Good(n) && b in n.apps && i < |n.rx| && Send(g, c, TakeApp(n, b), i, b).Some?
    ensures Good(Send(g, c, TakeApp(n, b), i, b).value)
  {
    hide Owned, SendDirect;
    var m := TakeApp(n, b);
    FromApp(n, b, multiset{});
    if n.table.slots[i].open {
      SendDirectOwned(g, c, m, n.table.slots[i].idout, b, None, multiset{});
      SendDirectShape(g, c, m, n.table.slots[i].idout, b, None);
    } else {
      FreeOwned(m, b, multiset{});
    }
  }

  lemma SendToGood(g: Config, c: Chance, n: Node, idout: Id, b: Buf)
    requires Good(n) && b in n.apps && SendDirect(g, c, TakeApp(n, b), idout, b, None).Some?
    ensures Good(SendDirect(g, c, TakeApp(n, b), idout, b, None).value)
  {
    hide Owned, SendDirect;
    FromApp(n, b, multiset{});
    SendDirectOwned(g, c, TakeApp(n, b), idout, b, None, multiset{});
    SendDirectShape(g, c, TakeApp(n, b), idout, b, None);
  }

  lemma ReadGood(n: Node, i: nat)
    requires Good(n) && i < |n.rx|
    ensures Good(Read(n, i))
  {
    hide Owned;
    if n.table.slots[i].open && n.rx[i] != [] {
      FromRx(n, i, multiset{});
      ToApp(n.(rx := n.rx[i := n.rx[i][1..]]), n.rx[i][0], multiset{});
    }
  }

  lemma ReceiveGood(n: Node, s: nat)
    requires Good(n) && s < |n.inbox| && n.inbox[s] != []
    ensures Good(GiveApp(n.(inbox := n.inbox[s := n.inbox[s][1..]]), n.inbox[s][0]))
  {
    hide Owned;
    FromInbox(n, s, multiset{});
    ToApp(n.(inbox := n.inbox[s := n.inbox[s][1..]]), n.inbox[s][0], multiset{});
  }

  lemma ConnectGood(n: Node, prio: nat, dest: nat, dport: nat, flags: nat)
    requires Good(n)
    ensures Good(OpenConn(n, prio, dest, dport, flags))
  {
    hide Owned;
    var t := Connect(n.table, prio, dest, dport, flags);
    if t.Some? {
      var m := n.(table := t.value, dest := n.dest[t.value.last := None]);
      SameBuffers(n, m, multiset{});
      FlushOwned(m, t.value.last, multiset{});
    }
  }

  lemma DriverReceiveGood(n: Node, iface: nat, b: Buf, id: Id)
    requires Good(n) && b in n.drivers
    ensures Good(QfifoWrite(WriteId(TakeDriver(n, b), b, id), iface, b))
  {
    hide Owned;
    FromDriver(n, b, multiset{});
    var m := WriteId(TakeDriver(n, b), b, id);
    SameBuffers(TakeDriver(n, b), m, multiset{} + multiset{b});
    if |m.fifo| < CSP_QFIFO_LEN {
      ToFifo(m, Input(iface, Some(b)), multiset{});
    } else {
      FreeOwned(m, b, multiset{});
    }
  }

  lemma FreeGood(n: Node, b: Buf)
    requires Good(n)
    ensures b in n.apps ==> Good(Free(TakeApp(n, b), b))
    ensures b in n.drivers ==> Good(Free(TakeDriver(n, b), b))
  {
    hide Owned;
    if b in n.apps {
      FromApp(n, b, multiset{});
      FreeOwned(TakeApp(n, b), b, multiset{});
    }
    if b in n.drivers {
      FromDriver(n, b, multiset{});
      FreeOwned(TakeDriver(n, b), b, multiset{});
    }
  }

  lemma WakeUpGood(n: Node)
    requires Good(n)
    ensures Good(n.(fifo := n.fifo + [Input(0, None)]))
  {
    hide Owned;
    assert multiset{} + Carried(Input(0, None)) == multiset{};
    ToFifo(n, Input(0, None), multiset{});
  }

  /** Every event keeps every buffer in exactly one place. */
  lemma StepGood(g: Config, n: Node, e: Event)
    requires Good(n) && Do(g, n, e).Some?
    ensures Good(Do(g, n, e).value)
  {
    hide Owned, RouteWork, SendDirect, Send, Read, OpenConn, CloseConn, Free, Get, QfifoWrite, WriteId;
    match e
    case Route(c) => RouteOwned(g, c, n);
    case WakeUp => WakeUpGood(n);
    case AppGet(id) =>
      if Get(n).Some? {
        GetGood(n, id);
      }
    case AppFree(b) => FreeGood(n, b);
    case AppSend(i, b, c) => SendGood(g, c, n, i, b);
    case AppSendTo(idout, b, c) => SendToGood(g, c, n, idout, b);
    case AppRead(i) => ReadGood(n, i);
    case AppReceive(s) => ReceiveGood(n, s);
    case AppAccept(s) => SameBuffers(n, n.(backlog := n.backlog[s := n.backlog[s][1..]]), multiset{});
    case AppConnect(prio, dest, dport, flags) => ConnectGood(n, prio, dest, dport, flags);
    case AppClose(i) => CloseOwned(n, i, multiset{});
    case DriverGet(id) =>
      if Get(n).Some? {
        GetGood(n, id);
      }
    case DriverFree(b) => FreeGood(n, b);
    case DriverReceive(iface, b, id) => DriverReceiveGood(n, iface, b, id);
  }

  // ---------------------------------------------------------------- the start

  function Range(k: nat): (s: seq<Buf>)
    ensures |s| == k && forall i :: 0 <= i < k ==> s[i] == i
  {
    seq(k, i requires 0 <= i => i)
  }

  /** csp_init, with `sockets` sockets: all buffers are free. */
  function Start(sockets: nat): Node {
    Node(Pool(Range(CSP_BUFFER_COUNT), seq(CSP_BUFFER_COUNT, _ => 0)), seq(CSP_BUFFER_COUNT, _ => ZERO), [], Init(),
         seq(CSP_CONN_MAX, _ => []), seq(CSP_CONN_MAX, _ => None), seq(sockets, _ => []), seq(sockets, _ => []),
         multiset{}, multiset{}, [])
  }

  lemma {:induction false} RangeOnce(k: nat, b: Buf)
    ensures Times(Range(k), b) == if b < k then 1 else 0
    decreases k
  {
    if k > 0 {
      assert Range(k) == Range(k - 1) + [k - 1];
      RangeOnce(k - 1, b);
      TimesAppend(Range(k - 1), k - 1, b);
    }
  }

  lemma {:induction false} EmptySum(qs: seq<seq<Buf>>, b: Buf)
    requires forall i :: 0 <= i < |qs| ==> qs[i] == []
    ensures Sum(qs, b) == 0
    decreases qs
  {
    if qs != [] {
      EmptySum(qs[1..], b);
      TimesNone(b);
    }
  }

  lemma StartGood(sockets: nat)
    ensures Good(Start(sockets))
  {
    hide Times, Sum;
    var n := Start(sockets);
    forall b: Buf ensures Places(n, b) + multiset{}[b] == if b < CSP_BUFFER_COUNT then 1 else 0 {
      RangeOnce(CSP_BUFFER_COUNT, b);
      EmptySum(n.rx, b);
      EmptySum(n.inbox, b);
    }
    forall b | 0 <= b < CSP_BUFFER_COUNT ensures b in n.pool.free {
      assert n.pool.free[b] == b;
    }
  }

  ghost predicate IsRun(g: Config, sockets: nat, run: seq<Node>, events: seq<Event>) {
    && |run| == |events| + 1 && run[0] == Start(sockets)
    && forall i :: 0 <= i < |events| ==> Shaped(run[i]) && Do(g, run[i], events[i]) == Some(run[i + 1])
  }

  lemma {:induction false} RunGood(g: Config, sockets: nat, run: seq<Node>, events: seq<Event>, k: nat)
    requires IsRun(g, sockets, run, events) && k < |run|
    ensures Good(run[k])
    decreases k
  {
    hide Do, Good, Start;
    if k == 0 {
      StartGood(sockets);
    } else {
      RunGood(g, sockets, run, events, k - 1);
      assert Do(g, run[k - 1], events[k - 1]) == Some(run[k - 1 + 1]);
      assert Shaped(run[k - 1]);
      StepGood(g, run[k - 1], events[k - 1]);
    }
  }

  /** Buffer conservation: in every state of every run each buffer of the pool is in exactly one place - free, or in
      one queue, or with one owner - and it is counted as referred to exactly if it is not free. */
  lemma Conservation(g: Config, sockets: nat, run: seq<Node>, events: seq<Event>, k: nat, b: Buf)
    requires IsRun(g, sockets, run, events) && k < |run|
    ensures Places(run[k], b) == if b < CSP_BUFFER_COUNT then 1 else 0
    ensures |run[k].pool.refs| == CSP_BUFFER_COUNT
    ensures b < CSP_BUFFER_COUNT ==> (run[k].pool.refs[b] == 0 <==> b in run[k].pool.free)
  {
    hide Places, Do, Start;
    RunGood(g, sockets, run, events, k);
    assert Places(run[k], b) + multiset{}[b] == if b < CSP_BUFFER_COUNT then 1 else 0;
  }

  /** A packet the router takes from its queue is afterwards in exactly one place: freed once or handed on once. */
  lemma RoutedOnce(g: Config, sockets: nat, run: seq<Node>, events: seq<Event>, k: nat)
    requires IsRun(g, sockets, run, events) && k < |events| && events[k].Route?
    requires run[k].fifo != [] && run[k].fifo[0].buf.Some?
    ensures Places(run[k + 1], run[k].fifo[0].buf.value) == 1
    ensures run[k + 1].fifo == run[k].fifo[1..]
  {
    hide Places, Start;
    var b := run[k].fifo[0].buf.value;
    Conservation(g, sockets, run, events, k + 1, b);
    Conservation(g, sockets, run, events, k, b);
    InFifo(run[k]);
    RouteTakes(g, events[k].c, run[k]);
  }

  lemma InFifo(n: Node)
    requires n.fifo != [] && n.fifo[0].buf.Some?
    ensures Places(n, n.fifo[0].buf.value) >= 1
  {
  }

  lemma RouteTakes(g: Config, c: Chance, n: Node)
    requires Shaped(n) && n.fifo != [] && RouteWork(g, c, n).Some?
    ensures RouteWork(g, c, n).value.fifo == n.fifo[1..]
  {
    if n.fifo[0].buf.Some? {
      var m, b := n.(fifo := n.fifo[1..]), n.fifo[0].buf.value;
      var id := ReadId(m, b);
      if !c.duplicate && !g.toMe(n.fifo[0].iface, id) && AnyTarget(g, id.dst, Some(n.fifo[0].iface)) {
        hide AnyTarget;
        SendLocalFifo(g, c, m, id, b, Some(n.fifo[0].iface), 0);
      }
    }
  }

  lemma {:induction false} SendLocalFifo(g: Config, c: Chance, n: Node, idout: Id, b: Buf, from: Option<nat>, k: nat)
    requires SendLocal(g, c, n, idout, b, from, k).Some?
    ensures SendLocal(g, c, n, idout, b, from, k).value.fifo == n.fifo
    decreases g.ifaces - k
  {
    hide Target;
    if k < g.ifaces {
      if Target(g, idout.dst, k, from) {
        var (m, d) := Clone(n, b).value;
        var out := idout.(src := g.addr(k));
        SendLocalFifo(g, c, SendIface(m, out, d, k, c.sends(k)), out, b, from, k + 1);
      } else {
        SendLocalFifo(g, c, n, idout, b, from, k + 1);
      }
    }
  }

  // ---------------------------------------------------------------- when a clone fails

  /** How many free buffers the loop of csp_send_direct needs from interface `k` on: one for the clone at hand, and one
      for every clone a driver has kept. */
  function ClonesNeeded(g: Config, c: Chance, dst: nat, from: Option<nat>, k: nat): nat
    decreases g.ifaces - k
  {
    if k >= g.ifaces then 0
    else
      var rest := ClonesNeeded(g, c, dst, from, k + 1);
      if !Target(g, dst, k, from) then rest
      else if c.sends(k) then rest + 1
      else if rest == 0 then 1 else rest
  }

  lemma CloneSent(n: Node, idout: Id, b: Buf, k: nat, works: bool)
    requires n.pool.free != [] && forall x <- n.pool.free :: x < |n.pool.refs|
    ensures Clone(n, b).Some?
    ensures var d := Clone(n, b).value;
            var m := SendIface(d.0, idout, d.1, k, works);
            && |m.pool.free| == (if works then |n.pool.free| - 1 else |n.pool.free|)
            && (forall x <- m.pool.free :: x < |m.pool.refs|)
  {
    hide WriteId, ReadId, Free;
    var x, rest := n.pool.free[0], n.pool.free[1..];
    assert x in n.pool.free && forall y <- rest :: y in n.pool.free;
    var d := Clone(n, b).value;
    SamePool(Get(n).value.0, x, ReadId(n, b));
    SamePool(d.0, x, idout);
    assert d.1 == x && d.0.pool == Pool(rest, n.pool.refs[x := 1]);
    FreedOnce(WriteId(d.0, x, idout), x);
  }

  lemma SamePool(n: Node, b: Buf, id: Id)
    ensures WriteId(n, b, id).pool == n.pool && WriteId(n, b, id).drivers == n.drivers
  {
  }

  lemma FreedOnce(n: Node, b: Buf)
    requires b < |n.pool.refs| && n.pool.refs[b] == 1
    ensures Free(n, b).pool == Pool(n.pool.free + [b], n.pool.refs[b := 0])
  {
  }

  lemma {:induction false} LocalFails(g: Config, c: Chance, n: Node, idout: Id, b: Buf, from: Option<nat>, k: nat)
    requires forall x <- n.pool.free :: x < |n.pool.refs|
    ensures SendLocal(g, c, n, idout, b, from, k).None? <==> |n.pool.free| < ClonesNeeded(g, c, idout.dst, from, k)
    decreases g.ifaces - k
  {
    hide Target, Clone, SendIface;
    if k < g.ifaces {
      if !Target(g, idout.dst, k, from) {
        LocalFails(g, c, n, idout, b, from, k + 1);
      } else if n.pool.free == [] {
        CloneFails(n, b);
      } else {
        var out := idout.(src := g.addr(k));
        CloneSent(n, out, b, k, c.sends(k));
        var d := Clone(n, b).value;
        LocalFails(g, c, SendIface(d.0, out, d.1, k, c.sends(k)), out, b, from, k + 1);
      }
    }
  }

  lemma CloneFails(n: Node, b: Buf)
    requires n.pool.free == []
    ensures Clone(n, b).None?
  {
  }

  /** Sending fails for want of a clone exactly if fewer buffers are free than the loop needs. */
  lemma SendFailsExactly(g: Config, c: Chance, n: Node, idout: Id, b: Buf, from: Option<nat>, hand: multiset<Buf>)
    requires Owned(n, hand)
    ensures SendDirect(g, c, n, idout, b, from).None? <==> |n.pool.free| < ClonesNeeded(g, c, idout.dst, from, 0)
  {
    hide Target, ClonesNeeded, SendIface, Free;
    InPool(n, hand);
    LocalFails(g, c, n, idout, b, from, 0);
    if !AnyTarget(g, idout.dst, from) {
      NoneNeeded(g, c, idout.dst, from, 0);
    }
  }

  lemma InPool(n: Node, hand: multiset<Buf>)
    requires Owned(n, hand)
    ensures forall x <- n.pool.free :: x < |n.pool.refs|
  {
    hide Queued, Sum;
    forall x | x in n.pool.free ensures x < |n.pool.refs| {
      assert Places(n, x) + hand[x] == if x < CSP_BUFFER_COUNT then 1 else 0;
    }
  }

  lemma {:induction false} NoneNeeded(g: Config, c: Chance, dst: nat, from: Option<nat>, k: nat)
    requires !AnyTarget(g, dst, from)
    ensures ClonesNeeded(g, c, dst, from, k) == 0
    decreases g.ifaces - k
  {
    hide Target;
    if k < g.ifaces {
      assert !Target(g, dst, k, from);
      NoneNeeded(g, c, dst, from, k + 1);
    }
  }

  // ---------------------------------------------------------------- when no clone can fail

  /** The interfaces from `k` on that the loop sends to. */
  function Targets(g: Config, dst: nat, from: Option<nat>, k: nat): nat
    decreases g.ifaces - k
  {
    if k >= g.ifaces then 0 else (if Target(g, dst, k, from) then 1 else 0) + Targets(g, dst, from, k + 1)
  }

  lemma {:induction false} NeededAtMost(g: Config, c: Chance, dst: nat, from: Option<nat>, k: nat)
    ensures ClonesNeeded(g, c, dst, from, k) <= Targets(g, dst, from, k)
    ensures (forall j: nat :: c.sends(j)) ==> ClonesNeeded(g, c, dst, from, k) == Targets(g, dst, from, k)
    decreases g.ifaces - k
  {
    hide Target;
    if k < g.ifaces {
      NeededAtMost(g, c, dst, from, k + 1);
    }
  }

  /** No clone fails, whatever the drivers answer, if and only if there is a free buffer for every interface the packet
      goes to. */
  lemma NeverFailsExactly(g: Config, n: Node, idout: Id, b: Buf, from: Option<nat>, hand: multiset<Buf>)
    requires Owned(n, hand)
    ensures (forall c: Chance :: SendDirect(g, c, n, idout, b, from).Some?) <==>
            Targets(g, idout.dst, from, 0) <= |n.pool.free|
  {
    hide Owned, SendDirect, ClonesNeeded, Targets;
    forall c: Chance
      ensures SendDirect(g, c, n, idout, b, from).None? <==> |n.pool.free| < ClonesNeeded(g, c, idout.dst, from, 0)
      ensures ClonesNeeded(g, c, idout.dst, from, 0) <= Targets(g, idout.dst, from, 0)
    {
      SendFailsExactly(g, c, n, idout, b, from, hand);
      NeededAtMost(g, c, idout.dst, from, 0);
    }
    var all := Chance(false, true, _ => true);
    NeededAtMost(g, all, idout.dst, from, 0);
    assert SendDirect(g, all, n, idout, b, from).None? <==> |n.pool.free| < Targets(g, idout.dst, from, 0);
  }
}
