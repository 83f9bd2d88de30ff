/** The connection table: how packets find their connection. */
module ConnTable {
  import opened Base

  /** csp_id_t, its fields as numbers. */
  datatype Id = Id(pri: nat, flags: nat, src: nat, dst: nat, dport: nat, sport: nat)

  /** The part of csp_conn_t that finding a connection looks at. */
  datatype Slot = Slot(open: bool, client: bool, sportOutgoing: nat, idin: Id, idout: Id)

  /** arr_conn and csp_conn_last_given. */
  datatype Table = Table(slots: seq<Slot>, last: nat)

  type Positive = n: nat | n > 0 witness 1

  /** Build constants: any table with a slot, any range of ports. */
  const CSP_CONN_MAX: Positive
  const CSP_PORT_MAX_BIND: nat

  // ---------------------------------------------------------------- the operations

  /** The conditions of csp_conn_find_existing: an outgoing connection is found by its port alone. */
  predicate Matches(c: Slot, id: Id) {
    && c.open && c.idin.dport == id.dport
    && (!c.client ==> c.idin.sport == id.sport && c.idin.src == id.src)
  }

  /** csp_conn_find_existing: the first that matches, or the length of the table. */
  function Find(slots: seq<Slot>, id: Id): (i: nat)
    ensures i <= |slots| && (i < |slots| ==> Matches(slots[i], id))
    ensures forall j :: 0 <= j < i ==> !Matches(slots[j], id)
    decreases slots
  {
    if slots == [] || Matches(slots[0], id) then 0 else 1 + Find(slots[1..], id)
  }

  /** The search of csp_conn_allocate: the next closed slot after `i`, at most `n` further on. */
  function NextClosed(slots: seq<Slot>, i: nat, n: nat): (r: Option<nat>)
    requires i < |slots|
    ensures r.Some? ==> r.value < |slots| && !slots[r.value].open
    decreases n
  {
    if n == 0 then None
    else
      var k := (i + 1) % |slots|;
      if !slots[k].open then Some(k) else NextClosed(slots, k, n - 1)
  }

  /** csp_conn_new. */
  function New(t: Table, idin: Id, idout: Id, client: bool): (r: Option<Table>)
    requires t.last < |t.slots|
    ensures r.Some? ==> |r.value.slots| == |t.slots| && r.value.last < |t.slots|
  {
    var k := NextClosed(t.slots, t.last, |t.slots|);
    if k.None? then None
    else Some(Table(t.slots[k.value := Slot(true, client, t.slots[k.value].sportOutgoing, idin, idout)], k.value))
  }

  /** csp_connect, with the flags its options come to: the connection gets the port of its slot. */
  function Connect(t: Table, prio: nat, dest: nat, dport: nat, flags: nat): (r: Option<Table>)
    requires t.last < |t.slots|
  {
    var unset := 0;
    var r := New(t, Id(prio, flags, dest, 0, unset, dport), Id(prio, flags, 0, dest, dport, unset), true);
    if r.None? then None
    else
      var c := r.value.slots[r.value.last];
      var d := c.(idout := c.idout.(sport := c.sportOutgoing), idin := c.idin.(dport := c.sportOutgoing));
      Some(r.value.(slots := r.value.slots[r.value.last := d]))
  }

  /** The connection csp_route_work makes for a packet that belongs to none. */
  function Incoming(t: Table, id: Id): (r: Option<Table>)
    requires t.last < |t.slots|
  {
    New(t, id, Id(id.pri, id.flags, id.dst, id.src, id.sport, id.dport), false)
  }

  /** The end of csp_conn_close. */
  function Close(t: Table, i: nat): Table
    requires i < |t.slots|
  {
    t.(slots := t.slots[i := t.slots[i].(open := false)])
  }

  /** csp_conn_init. */
  function Init(): Table {
    Table(seq(CSP_CONN_MAX, i requires 0 <= i => Slot(false, false, CSP_PORT_MAX_BIND + 1 + i, ZERO, ZERO)), 0)
  }

  const ZERO := Id(0, 0, 0, 0, 0, 0)

  // ---------------------------------------------------------------- runs

  datatype Step =
    | DoConnect(prio: nat, dest: nat, dport: nat, flags: nat)
    | DoRoute(id: Id)
    | DoClose(i: nat)

  /** One step; a packet opens a connection only if it belongs to none and a socket can be bound to its port. */
  function Do(t: Table, s: Step): Table
    requires t.last < |t.slots|
  {
    match s
    case DoConnect(prio, dest, dport, flags) =>
      var r := Connect(t, prio, dest, dport, flags);
      if r.Some? then r.value else t
    case DoRoute(id) =>
      if Find(t.slots, id) == |t.slots| && id.dport <= CSP_PORT_MAX_BIND && Incoming(t, id).Some?
      then Incoming(t, id).value else t
    case DoClose(i) => if i < |t.slots| then Close(t, i) else t
  }

  /** Outgoing connections have the port of their slot, which no socket has; incoming ones differ in port or peer. */
  ghost predicate Wf(t: Table) {
    && t.last < |t.slots|
    && (forall i :: 0 <= i < |t.slots| ==> t.slots[i].sportOutgoing == CSP_PORT_MAX_BIND + 1 + i)
    && (forall i :: 0 <= i < |t.slots| && t.slots[i].open ==> SlotOk(t.slots[i]))
    && (forall i, j :: 0 <= i < j < |t.slots| && t.slots[i].open && t.slots[j].open ==> Apart(t.slots[i], t.slots[j]))
  }

  predicate SlotOk(c: Slot) {
    if c.client then c.idin.dport == c.sportOutgoing else c.idin.dport <= CSP_PORT_MAX_BIND
  }

  predicate Apart(c: Slot, d: Slot) {
    c.idin.dport != d.idin.dport
    || (!c.client && !d.client && (c.idin.sport != d.idin.sport || c.idin.src != d.idin.src))
  }

  /** An open slot that keeps its distance from the others can be put in the place of a closed one. */
  lemma PutKeepsWf(t: Table, k: nat, c: Slot)
    requires Wf(t) && k < |t.slots| && c.sportOutgoing == t.slots[k].sportOutgoing
    requires c.open ==> SlotOk(c)
    requires c.open ==> forall i :: 0 <= i < |t.slots| && i != k && t.slots[i].open ==> Apart(t.slots[i], c)
    ensures Wf(Table(t.slots[k := c], k))
  {
  }

  /** The port of a slot is no one else's. */
  lemma OwnPort(t: Table, k: nat, c: Slot)
    requires Wf(t) && k < |t.slots| && c.client && c.idin.dport == c.sportOutgoing == t.slots[k].sportOutgoing
    ensures forall i :: 0 <= i < |t.slots| && i != k && t.slots[i].open ==> Apart(t.slots[i], c)
  {
  }

  /** A packet that matches no connection makes one that is apart from all of them. */
  lemma NewPeer(t: Table, id: Id, k: nat, c: Slot)
    requires Wf(t) && k < |t.slots| && !c.client && c.idin == id && id.dport <= CSP_PORT_MAX_BIND
    requires forall i :: 0 <= i < |t.slots| ==> !Matches(t.slots[i], id)
    ensures forall i :: 0 <= i < |t.slots| && i != k && t.slots[i].open ==> Apart(t.slots[i], c)
  {
  }

  lemma CloseKeepsWf(t: Table, i: nat)
    requires Wf(t) && i < |t.slots|
    ensures Wf(Close(t, i))
  {
  }

  lemma ConnectKeepsWf(t: Table, prio: nat, dest: nat, dport: nat, flags: nat)
    requires Wf(t)
    ensures Connect(t, prio, dest, dport, flags).Some? ==> Wf(Connect(t, prio, dest, dport, flags).value)
  {
    var r := Connect(t, prio, dest, dport, flags);
    if r.Some? {
      var k := r.value.last;
      var c := r.value.slots[k];
      assert r.value.slots == t.slots[k := c];
      hide Wf, Apart;
      OwnPort(t, k, c);
      PutKeepsWf(t, k, c);
    }
  }

  lemma IncomingKeepsWf(t: Table, id: Id)
    requires Wf(t) && Find(t.slots, id) == |t.slots| && id.dport <= CSP_PORT_MAX_BIND
    ensures Incoming(t, id).Some? ==> Wf(Incoming(t, id).value)
  {
    var r := Incoming(t, id);
    if r.Some? {
      var k := r.value.last;
      var c := r.value.slots[k];
      assert r.value.slots == t.slots[k := c] && c.idin == id && !c.client;
      hide Wf, Apart, Matches;
      NewPeer(t, id, k, c);
      PutKeepsWf(t, k, c);
    }
  }

  lemma StepKeepsWf(t: Table, s: Step)
    requires Wf(t)
    ensures Wf(Do(t, s))
  {
    hide Wf;
    match s
    case DoConnect(prio, dest, dport, flags) => ConnectKeepsWf(t, prio, dest, dport, flags);
    case DoRoute(id) =>
      if Find(t.slots, id) == |t.slots| && id.dport <= CSP_PORT_MAX_BIND {
        IncomingKeepsWf(t, id);
      }
    case DoClose(i) =>
      if i < |t.slots| {
        CloseKeepsWf(t, i);
      }
  }

  ghost predicate IsRun(run: seq<Table>, steps: seq<Step>) {
    && |run| == |steps| + 1 && run[0] == Init()
    && forall i :: 0 <= i < |steps| ==> run[i].last < |run[i].slots| && run[i + 1] == Do(run[i], steps[i])
  }

  lemma {:induction false} RunWf(run: seq<Table>, steps: seq<Step>, i: nat)
    requires IsRun(run, steps) && i < |run|
    ensures Wf(run[i])
    decreases i
  {
    if i > 0 {
      RunWf(run, steps, i - 1);
      StepKeepsWf(run[i - 1], steps[i - 1]);
    }
  }

  lemma MatchUnique(t: Table, id: Id, i: nat, j: nat)
    requires Wf(t) && i < |t.slots| && j < |t.slots| && Matches(t.slots[i], id) && Matches(t.slots[j], id)
    ensures i == j
  {
  }

  /** Unique demultiplexing: after any connects, packets and closes, at most one open connection matches a packet, so
      the connection csp_conn_find_existing gives is the only one that does, in whatever order it scans. */
  lemma UniqueDemultiplexing(run: seq<Table>, steps: seq<Step>, n: nat, id: Id)
    requires IsRun(run, steps) && n < |run|
    ensures var slots := run[n].slots;
            forall i, j | 0 <= i < |slots| && 0 <= j < |slots| ::
              Matches(slots[i], id) && Matches(slots[j], id) ==> i == j
    ensures forall i :: 0 <= i < |run[n].slots| ==> (Matches(run[n].slots[i], id) <==> Find(run[n].slots, id) == i)
  {
    RunWf(run, steps, n);
    var t := run[n];
    forall i, j | 0 <= i < |t.slots| && 0 <= j < |t.slots| && Matches(t.slots[i], id) && Matches(t.slots[j], id)
      ensures i == j
    {
      MatchUnique(t, id, i, j);
    }
  }

  // ---------------------------------------------------------------- two tables

  /** A connection stays as it is until it is closed. */
  lemma {:induction false} StaysUntilClosed(run: seq<Table>, steps: seq<Step>, i: nat, j: nat, k: nat)
    requires IsRun(run, steps) && i <= j < |run| && k < |run[i].slots| && run[i].slots[k].open
    requires forall n :: i <= n < j ==> steps[n] != DoClose(k)
    ensures k < |run[j].slots| && run[j].slots[k] == run[i].slots[k]
    decreases j
  {
    if i < j {
      StaysUntilClosed(run, steps, i, j - 1, k);
      OnlyClosedChange(run[j - 1], steps[j - 1], k);
    }
  }

  lemma OnlyClosedChange(t: Table, s: Step, k: nat)
    requires t.last < |t.slots| && k < |t.slots| && t.slots[k].open && s != DoClose(k)
    ensures k < |Do(t, s).slots| && Do(t, s).slots[k] == t.slots[k]
  {
  }

  /** What csp_connect makes: the packets of the connection go to the peer's port, from the port of the slot. */
  lemma ConnectMakes(t: Table, prio: nat, dest: nat, dport: nat, flags: nat)
    requires Wf(t) && Connect(t, prio, dest, dport, flags).Some?
    ensures var u := Connect(t, prio, dest, dport, flags).value;
            && u.last < |u.slots| && u.slots[u.last].open && u.slots[u.last].client
            && u.slots[u.last].idout == Id(prio, flags, 0, dest, dport, CSP_PORT_MAX_BIND + 1 + u.last)
            && u.slots[u.last].idin.dport == CSP_PORT_MAX_BIND + 1 + u.last
  {
  }

  /** A packet sent on a connection, with the address of the node it leaves from. */
  function Sent(c: Slot, addr: nat): Id { c.idout.(src := addr) }

  lemma OnlyMatch(run: seq<Table>, steps: seq<Step>, n: nat, k: nat, id: Id)
    requires IsRun(run, steps) && n < |run| && k < |run[n].slots| && Matches(run[n].slots[k], id)
    ensures Find(run[n].slots, id) == k
  {
    UniqueDemultiplexing(run, steps, n, id);
  }

  /** A conversation: one node connects, and a packet of that connection, sent from any address, makes a connection at
      the other node. From then on, until one of the two is closed and whatever else either table goes through, every
      packet of the second connection is addressed to the first node and matches the first connection there and no
      other, every packet of the first matches the second and no other, and both keep priority and flags. */
  lemma Conversation(run: seq<Table>, steps: seq<Step>, i: nat, i1: nat, prio: nat, dest: nat, dport: nat, flags: nat,
                     addr: nat, run': seq<Table>, steps': seq<Step>, j: nat, j1: nat, from: nat)
    requires IsRun(run, steps) && i < i1 < |run| && steps[i] == DoConnect(prio, dest, dport, flags)
    requires run[i].last < |run[i].slots| && Connect(run[i], prio, dest, dport, flags).Some?
    requires forall n :: i + 1 <= n < i1 ==> steps[n] != DoClose(run[i + 1].last)
    requires run[i + 1].last < |run[i + 1].slots|
    requires IsRun(run', steps') && j < j1 < |run'| && dport <= CSP_PORT_MAX_BIND
    requires var p := Sent(run[i + 1].slots[run[i + 1].last], addr);
             && steps'[j] == DoRoute(p) && Find(run'[j].slots, p) == |run'[j].slots|
             && run'[j].last < |run'[j].slots| && Incoming(run'[j], p).Some?
    requires forall n :: j + 1 <= n < j1 ==> steps'[n] != DoClose(run'[j + 1].last)
    ensures var k, m := run[i + 1].last, run'[j + 1].last;
            && k < |run[i1].slots| && m < |run'[j1].slots|
            && var p, q := Sent(run[i1].slots[k], addr), Sent(run'[j1].slots[m], from);
               && p == Id(prio, flags, addr, dest, dport, p.sport) && q == Id(prio, flags, from, addr, p.sport, dport)
               && Find(run[i1].slots, q) == k && Find(run'[j1].slots, p) == m
  {
    RunWf(run, steps, i);
    assert run[i + 1] == Do(run[i], steps[i]) && run'[j + 1] == Do(run'[j], steps'[j]);
    var k, m := run[i + 1].last, run'[j + 1].last;
    ConnectMakes(run[i], prio, dest, dport, flags);
    var p := Sent(run[i + 1].slots[k], addr);
    IncomingMakes(run'[j], p);
    StaysUntilClosed(run, steps, i + 1, i1, k);
    StaysUntilClosed(run', steps', j + 1, j1, m);
    OnlyMatch(run, steps, i1, k, Sent(run'[j1].slots[m], from));
    OnlyMatch(run', steps', j1, m, p);
  }

  /** What a packet without a connection makes: a connection whose packets go back where it came from. */
  lemma IncomingMakes(t: Table, id: Id)
    requires t.last < |t.slots| && Incoming(t, id).Some?
    ensures var u := Incoming(t, id).value;
            && u.last < |u.slots| && u.slots[u.last].open && !u.slots[u.last].client && u.slots[u.last].idin == id
            && u.slots[u.last].idout == Id(id.pri, id.flags, id.dst, id.src, id.sport, id.dport)
  {
  }

  lemma NextIndex(i: nat, n: nat)
    requires i < n
    ensures (i + 1) % n == if i + 1 == n then 0 else i + 1
  {
  }

  /** How many places after `i` the scan comes to `k`. */
  function Distance(i: nat, k: nat, n: nat): int { if k > i then k - i else k - i + n }

  lemma {:induction false} ScannedOpen(slots: seq<Slot>, i: nat, n: nat, k: nat)
    requires i < |slots| && k < |slots| && NextClosed(slots, i, n).None? && Distance(i, k, |slots|) <= n
    ensures slots[k].open
    decreases n
  {
    NextIndex(i, |slots|);
    var next := if i + 1 == |slots| then 0 else i + 1;
    if next != k {
      ScannedOpen(slots, next, n - 1, k);
    }
  }

  lemma {:induction false} NearestScanned(slots: seq<Slot>, i: nat, n: nat, k: nat)
    requires i < |slots| && k < |slots| && NextClosed(slots, i, n).Some?
    requires Distance(i, k, |slots|) < Distance(i, NextClosed(slots, i, n).value, |slots|)
    ensures slots[k].open
    decreases n
  {
    NextIndex(i, |slots|);
    var next := if i + 1 == |slots| then 0 else i + 1;
    if next != k {
      NearestScanned(slots, next, n - 1, k);
    }
  }

  /** A new connection takes the first closed slot after the one given last, and leaves the others as they are. */
  lemma TakesNearest(t: Table, idin: Id, idout: Id, client: bool)
    requires t.last < |t.slots| && New(t, idin, idout, client).Some?
    ensures var u := New(t, idin, idout, client).value;
            && !t.slots[u.last].open && u.slots[u.last].open && u.slots[u.last].idin == idin
            && u.slots[u.last].idout == idout && u.slots[u.last].client == client
            && (forall k :: 0 <= k < |t.slots| && k != u.last ==> u.slots[k] == t.slots[k])
            && (forall k: nat :: k < |t.slots| && Distance(t.last, k, |t.slots|) < Distance(t.last, u.last, |t.slots|)
                                 ==> t.slots[k].open)
  {
    var u := New(t, idin, idout, client).value;
    forall k: nat | k < |t.slots| && Distance(t.last, k, |t.slots|) < Distance(t.last, u.last, |t.slots|)
      ensures t.slots[k].open
    {
      NearestScanned(t.slots, t.last, |t.slots|, k);
    }
  }

  /** A connection is refused exactly if every slot is open: the search from the last one given misses none. */
  lemma RefusedExactlyIfFull(t: Table, idin: Id, idout: Id, client: bool)
    requires t.last < |t.slots|
    ensures New(t, idin, idout, client).None? <==> forall k :: 0 <= k < |t.slots| ==> t.slots[k].open
  {
    if New(t, idin, idout, client).None? {
      forall k | 0 <= k < |t.slots| ensures t.slots[k].open {
        ScannedOpen(t.slots, t.last, |t.slots|, k);
      }
    }
  }

  // ---------------------------------------------------------------- the code

  /** The connection table in memory. */
  class Connections {
    const arr_conn: array<Slot>
    var last_given: nat

    ghost predicate Valid()
      reads this, arr_conn
    {
      arr_conn.Length == CSP_CONN_MAX && last_given < CSP_CONN_MAX
    }

    ghost function Now(): Table
      reads this, arr_conn
    {
      Table(arr_conn[..], last_given)
    }

    /** csp_conn_init. */
    constructor ()
      ensures Valid() && fresh(arr_conn) && Now() == Init()
    {
      arr_conn := new Slot[CSP_CONN_MAX](
        i requires 0 <= i => Slot(false, false, CSP_PORT_MAX_BIND + 1 + i, ZERO, ZERO));
      last_given := 0;
    }

    /** csp_conn_find_existing. */
    method FindExisting(id: Id) returns (i: nat)
      requires Valid()
      ensures i == Find(arr_conn[..], id)
    {
      i := 0;
      ghost var all := arr_conn[..];
      while i < CSP_CONN_MAX
        invariant i <= CSP_CONN_MAX && Find(all, id) == i + Find(all[i..], id)
      {
        var conn := arr_conn[i];
        if conn.open && conn.idin.dport == id.dport
           && (conn.client || (conn.idin.sport == id.sport && conn.idin.src == id.src)) {
          return;
        }
        assert all[i..][1..] == all[i + 1..];
        i := i + 1;
      }
    }

    /** csp_conn_allocate and csp_conn_new: a closed slot, searched for from the last one given. */
    method Allocate(idin: Id, idout: Id, client: bool) returns (ok: bool)
      requires Valid()
      modifies this, arr_conn
      ensures Valid()
      ensures ok <==> New(old(Now()), idin, idout, client).Some?
      ensures Now() == if ok then New(old(Now()), idin, idout, client).value else old(Now())
    {
      ghost var t := Now();
      var i: nat, j: nat := last_given, 0;
      while j < CSP_CONN_MAX
        invariant j <= CSP_CONN_MAX && i < CSP_CONN_MAX && Now() == t && Valid()
        invariant NextClosed(t.slots, t.last, CSP_CONN_MAX) == NextClosed(t.slots, i, CSP_CONN_MAX - j)
      {
        i := (i + 1) % CSP_CONN_MAX;
        if !arr_conn[i].open {
          arr_conn[i] := Slot(true, client, arr_conn[i].sportOutgoing, idin, idout);
          last_given := i;
          assert arr_conn[..] == t.slots[i := arr_conn[i]];
          return true;
        }
        j := j + 1;
      }
      return false;
    }

    /** csp_connect. */
    method ConnectTo(prio: nat, dest: nat, dport: nat, flags: nat) returns (ok: bool)
      requires Valid()
      modifies this, arr_conn
      ensures Valid() && (ok <==> Connect(old(Now()), prio, dest, dport, flags).Some?)
      ensures Now() == if ok then Connect(old(Now()), prio, dest, dport, flags).value else old(Now())
    {
      ok := Allocate(Id(prio, flags, dest, 0, 0, dport), Id(prio, flags, 0, dest, dport, 0), true);
      if ok {
        var conn := arr_conn[last_given];
        conn := conn.(idout := conn.idout.(sport := conn.sportOutgoing));
        conn := conn.(idin := conn.idin.(dport := conn.sportOutgoing));
        arr_conn[last_given] := conn;
      }
    }

    /** The end of csp_conn_close; closing a closed connection does nothing. */
    method CloseSlot(i: nat)
      requires Valid() && i < CSP_CONN_MAX
      modifies arr_conn
      ensures Valid() && Now() == Close(old(Now()), i)
    {
      if arr_conn[i].open {
        arr_conn[i] := arr_conn[i].(open := false);
      }
      assert arr_conn[..] == Close(old(Now()), i).slots;
    }
  }
}
