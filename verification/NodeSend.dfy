/** Where csp_send_direct sends a packet: on which interfaces it leaves, and under which identifier. */
module NodeSend {
  import opened Base
  import opened ConnTable
  import opened Node
  import opened NodeBuffers

  // ---------------------------------------------------------------- one interface

  /** Clones are taken from the free buffers, and only their own identifiers are written. */
  lemma CloneTakes(n: Node, b: Buf)
    requires Clone(n, b).Some?
    ensures var (m, d) := Clone(n, b).value;
            && d in n.pool.free && m.handed == n.handed && |m.ids| == |n.ids| && |m.pool.refs| == |n.pool.refs|
            && (forall x <- m.pool.free :: x in n.pool.free)
            && (forall x: Buf :: x != d ==> ReadId(m, x) == ReadId(n, x))
  {
  }

  /** A packet given to a driver is noted with the identifier it was sent under; one that is not goes back. */
  lemma IfaceHands(n: Node, idout: Id, b: Buf, k: nat, works: bool)
    requires b < |n.ids|
    ensures var m := SendIface(n, idout, b, k, works);
            && m.handed == n.handed + (if works then [Handed(k, b, idout)] else []) && |m.ids| == |n.ids|
            && ReadId(m, b) == idout && (forall x: Buf :: x != b ==> ReadId(m, x) == ReadId(n, x))
            && (works ==> m.pool == n.pool) && (forall x <- m.pool.free :: x in n.pool.free || x == b)
  {
  }

  /** Buffers that are not free keep their identifiers. */
  lemma {:induction false} LocalKeeps(g: Config, c: Chance, n: Node, idout: Id, b: Buf, from: Option<nat>, k: nat,
                                      x: Buf)
    requires SendLocal(g, c, n, idout, b, from, k).Some? && x !in n.pool.free && |n.ids| == CSP_BUFFER_COUNT
    requires forall y <- n.pool.free :: y < CSP_BUFFER_COUNT
    ensures ReadId(SendLocal(g, c, n, idout, b, from, k).value, x) == ReadId(n, x)
    decreases g.ifaces - k
  {
    hide Target, Clone, SendIface, ReadId;
    if k < g.ifaces {
      if Target(g, idout.dst, k, from) {
        CloneTakes(n, b);
        var (m, d) := Clone(n, b).value;
        var out := idout.(src := g.addr(k));
        IfaceHands(m, out, d, k, c.sends(k));
        LocalKeeps(g, c, SendIface(m, out, d, k, c.sends(k)), out, b, from, k + 1, x);
      } else {
        LocalKeeps(g, c, n, idout, b, from, k + 1, x);
      }
    }
  }

  // ---------------------------------------------------------------- the local subnets

  /** The packet goes to an interface: the destination is within its subnet, the packet did not come in there nor on one
      that shares its subnet, and the driver takes it. */
  predicate GoesTo(g: Config, c: Chance, dst: nat, from: Option<nat>, k: nat) {
    && k < g.ifaces && g.within(dst, k) && c.sends(k)
    && (from.Some? ==> from.value != k && !g.within(g.addr(k), from.value))
  }

  /** Packets given to drivers, in the order of the interfaces from `k` on: each leaves on an interface it goes to,
      under the identifier it was sent with and the address of that interface as its source, and none is missing. */
  ghost predicate Leaves(g: Config, c: Chance, idout: Id, from: Option<nat>, k: nat, log: seq<Handed>) {
    && (forall h <- log :: h.iface >= k && GoesTo(g, c, idout.dst, from, h.iface)
                           && h.id == Id(idout.pri, idout.flags, g.addr(h.iface), idout.dst, idout.dport, idout.sport))
    && (forall i, j :: 0 <= i < j < |log| ==> log[i].iface < log[j].iface)
    && (forall j: nat :: j >= k && GoesTo(g, c, idout.dst, from, j) ==> exists h :: h in log && h.iface == j)
  }

  /** The buffers hold what was noted. */
  predicate Held(n: Node, log: seq<Handed>) { forall h <- log :: ReadId(n, h.buf) == h.id }

  lemma LeavesMore(g: Config, c: Chance, idout: Id, from: Option<nat>, k: nat, b: Buf, log: seq<Handed>)
    requires GoesTo(g, c, idout.dst, from, k) && Leaves(g, c, idout.(src := g.addr(k)), from, k + 1, log)
    ensures Leaves(g, c, idout, from, k, [Handed(k, b, idout.(src := g.addr(k)))] + log)
  {
    hide GoesTo;
    var all := [Handed(k, b, idout.(src := g.addr(k)))] + log;
    forall j: nat | j >= k && GoesTo(g, c, idout.dst, from, j) ensures exists h :: h in all && h.iface == j {
      if j == k {
        assert all[0] in all;
      } else {
        var h :| h in log && h.iface == j;
        assert h in all;
      }
    }
  }

  lemma LeavesSkip(g: Config, c: Chance, idout: Id, from: Option<nat>, k: nat, log: seq<Handed>)
    requires !GoesTo(g, c, idout.dst, from, k) && Leaves(g, c, idout, from, k + 1, log)
    ensures Leaves(g, c, idout, from, k, log)
  {
    hide GoesTo;
    forall j: nat | j >= k && GoesTo(g, c, idout.dst, from, j) ensures exists h :: h in log && h.iface == j {
      assert j >= k + 1;
    }
  }

  lemma SameSource(g: Config, c: Chance, idout: Id, src: nat, from: Option<nat>, k: nat, log: seq<Handed>)
    requires Leaves(g, c, idout.(src := src), from, k, log)
    ensures Leaves(g, c, idout, from, k, log)
  {
    hide GoesTo;
  }

  lemma TargetGoes(g: Config, c: Chance, dst: nat, from: Option<nat>, k: nat)
    requires k < g.ifaces
    ensures GoesTo(g, c, dst, from, k) <==> Target(g, dst, k, from) && c.sends(k)
  {
  }

  lemma {:induction false} LocalLeaves(g: Config, c: Chance, n: Node, idout: Id, b: Buf, from: Option<nat>, k: nat,
                                       hand: multiset<Buf>) returns (log: seq<Handed>)
    requires Owned(n, hand) && |n.ids| == CSP_BUFFER_COUNT && SendLocal(g, c, n, idout, b, from, k).Some?
    ensures var m := SendLocal(g, c, n, idout, b, from, k).value;
            m.handed == n.handed + log && Held(m, log) && Leaves(g, c, idout, from, k, log)
    decreases g.ifaces - k
  {
    hide Owned, Target, Clone, SendIface, ReadId, GoesTo, Leaves;
    if k >= g.ifaces {
      log := [];
      NoneLeave(g, c, idout, from, k);
    } else {
      TargetGoes(g, c, idout.dst, from, k);
      if Target(g, idout.dst, k, from) {
        var (m, d) := Clone(n, b).value;
        var out := idout.(src := g.addr(k));
        InRange(n, hand);
        CloneTakes(n, b);
        CloneOwned(n, b, hand);
        IfaceHands(m, out, d, k, c.sends(k));
        SendIfaceOwned(m, out, d, k, c.sends(k), hand);
        var m1 := SendIface(m, out, d, k, c.sends(k));
        var rest := LocalLeaves(g, c, m1, out, b, from, k + 1, hand);
        if c.sends(k) {
          NotFree(m, d, hand);
          InRange(m1, hand);
          LocalKeeps(g, c, m1, out, b, from, k + 1, d);
          log := [Handed(k, d, out)] + rest;
          LeavesMore(g, c, idout, from, k, d, rest);
        } else {
          log := rest;
          SameSource(g, c, idout, g.addr(k), from, k + 1, rest);
          LeavesSkip(g, c, idout, from, k, rest);
        }
      } else {
        log := LocalLeaves(g, c, n, idout, b, from, k + 1, hand);
        LeavesSkip(g, c, idout, from, k, log);
      }
    }
  }

  lemma NoneLeave(g: Config, c: Chance, idout: Id, from: Option<nat>, k: nat)
    requires k >= g.ifaces
    ensures Leaves(g, c, idout, from, k, [])
  {
  }

  lemma InRange(n: Node, hand: multiset<Buf>)
    requires Owned(n, hand)
    ensures forall x <- n.pool.free :: x < CSP_BUFFER_COUNT
  {
    hide Places;
    InPool(n, hand);
  }

  lemma NotFree(n: Node, b: Buf, hand: multiset<Buf>)
    requires Owned(n, hand + multiset{b})
    ensures b !in n.pool.free
  {
    InHand(n, b, hand);
  }

  // ---------------------------------------------------------------- the whole

  /** Where a packet goes: if the destination is on a local subnet, one copy leaves on every interface it goes to and
      on no other, under the identifier it was sent with and that interface's address as its source; otherwise the
      packet itself leaves on the interface of its route, its identifier unchanged, if there is one and its driver
      takes it. The buffers the drivers hold carry these identifiers. */
  lemma SentExactly(g: Config, c: Chance, n: Node, idout: Id, b: Buf, from: Option<nat>, hand: multiset<Buf>)
    returns (log: seq<Handed>)
    requires Owned(n, hand + multiset{b}) && Shaped(n) && SendDirect(g, c, n, idout, b, from).Some?
    ensures var m := SendDirect(g, c, n, idout, b, from).value; m.handed == n.handed + log && Held(m, log)
    ensures AnyTarget(g, idout.dst, from) ==> Leaves(g, c, idout, from, 0, log)
    ensures !AnyTarget(g, idout.dst, from) ==>
              var r := g.route(idout.dst);
              log == if r.Some? && c.sends(r.value) then [Handed(r.value, b, idout)] else []
  {
    hide Owned, AnyTarget, SendLocal, ReadId, Leaves;
    if AnyTarget(g, idout.dst, from) {
      log := LocalLeaves(g, c, n, idout, b, from, 0, hand + multiset{b});
      FreeKeepsIds(SendLocal(g, c, n, idout, b, from, 0).value, b);
    } else {
      var r := g.route(idout.dst);
      log := if r.Some? && c.sends(r.value) then [Handed(r.value, b, idout)] else [];
      InHand(n, b, hand);
      FreeKeepsIds(n, b);
      if r.Some? {
        IfaceHands(n, idout, b, r.value, c.sends(r.value));
      }
    }
  }

  lemma FreeKeepsIds(n: Node, b: Buf)
    ensures Free(n, b).handed == n.handed && forall x: Buf :: ReadId(Free(n, b), x) == ReadId(n, x)
  {
  }

  // ---------------------------------------------------------------- in every run

  /** What the drivers are given for a packet sent under an identifier. */
  ghost predicate GivenFor(g: Config, c: Chance, m: Node, idout: Id, b: Buf, from: Option<nat>, log: seq<Handed>) {
    && Held(m, log) && (AnyTarget(g, idout.dst, from) ==> Leaves(g, c, idout, from, 0, log))
    && (!AnyTarget(g, idout.dst, from) ==>
          var r := g.route(idout.dst);
          log == if r.Some? && c.sends(r.value) then [Handed(r.value, b, idout)] else [])
  }

  /** In every run, what an application sends on an open connection leaves under that connection's identifier. */
  lemma AppSendLeaves(g: Config, sockets: nat, run: seq<Node>, events: seq<Event>, k: nat) returns (log: seq<Handed>)
    requires NodeBuffers.IsRun(g, sockets, run, events) && k < |events| && events[k].AppSend?
    requires events[k].i < |run[k].table.slots| && run[k].table.slots[events[k].i].open
    ensures run[k + 1].handed == run[k].handed + log
    ensures GivenFor(g, events[k].c, run[k + 1], run[k].table.slots[events[k].i].idout, events[k].b, None, log)
  {
    hide Owned, SendDirect, Held, Leaves, AnyTarget;
    var n, e := run[k], events[k];
    RunGood(g, sockets, run, events, k);
    assert NodeBuffers.Do(g, n, e) == Some(run[k + 1]);
    FromApp(n, e.b, multiset{});
    log := SentExactly(g, e.c, TakeApp(n, e.b), n.table.slots[e.i].idout, e.b, None, multiset{});
  }

  /** In every run, a packet that is not for this node is sent on under the identifier it carries, back neither to the
      interface it came in on nor to one that shares its subnet. */
  lemma ForwardLeaves(g: Config, sockets: nat, run: seq<Node>, events: seq<Event>, k: nat) returns (log: seq<Handed>)
    requires NodeBuffers.IsRun(g, sockets, run, events) && k < |events| && events[k].Route? && !events[k].c.duplicate
    requires run[k].fifo != [] && run[k].fifo[0].buf.Some?
    requires !g.toMe(run[k].fifo[0].iface, ReadId(run[k], run[k].fifo[0].buf.value))
    ensures run[k + 1].handed == run[k].handed + log
    ensures var b := run[k].fifo[0].buf.value;
            GivenFor(g, events[k].c, run[k + 1], ReadId(run[k], b), b, Some(run[k].fifo[0].iface), log)
  {
    hide Owned, SendDirect, Held, Leaves, AnyTarget;
    var n, c := run[k], events[k].c;
    var b, m := n.fifo[0].buf.value, n.(fifo := n.fifo[1..]);
    RunGood(g, sockets, run, events, k);
    assert NodeBuffers.Do(g, n, events[k]) == Some(run[k + 1]);
    FromFifo(n, multiset{});
    log := SentExactly(g, c, m, ReadId(n, b), b, Some(n.fifo[0].iface), multiset{});
  }
}
