/** The linked list of partly received CAN packets, as pointers: what csp_can_pbuf_new, csp_can_pbuf_free and
    csp_can_pbuf_cleanup leave reachable. */
module CanList {

  /** The pointer to the first of some buffers, NULL being -1. */
  function First(s: seq<nat>): int { if s == [] then -1 else s[0] }

  predicate Distinct(s: seq<nat>) { forall i, j :: 0 <= i < j < |s| ==> s[i] != s[j] }

  /** Following `next` from a pointer meets exactly these buffers, in this order, and then NULL. */
  predicate Chain(next: seq<int>, p: int, s: seq<nat>)
    decreases s
  {
    p == First(s) && (s != [] ==> s[0] < |next| && Chain(next, next[s[0]], s[1..]))
  }

  /** What the relinking loop leaves reachable: the buffer behind one taken out is linked in its place without being
      looked at again. */
  function Swept(s: seq<nat>, gone: set<nat>): seq<nat>
    decreases s
  {
    if s == [] then []
    else if s[0] !in gone then [s[0]] + Swept(s[1..], gone)
    else if |s| == 1 then []
    else [s[1]] + Swept(s[2..], gone)
  }

  /** What it should leave. */
  function Kept(s: seq<nat>, gone: set<nat>): seq<nat>
    decreases s
  {
    if s == [] then [] else if s[0] in gone then Kept(s[1..], gone) else [s[0]] + Kept(s[1..], gone)
  }

  /** The buffers to go. */
  function Taken(s: seq<nat>, gone: set<nat>): seq<nat>
    decreases s
  {
    if s == [] then [] else if s[0] in gone then [s[0]] + Taken(s[1..], gone) else Taken(s[1..], gone)
  }

  lemma TakenNext(s: seq<nat>, gone: set<nat>, k: nat)
    requires k < |s|
    ensures Taken(s[k..], gone) == (if s[k] in gone then [s[k]] else []) + Taken(s[k + 1..], gone)
  {
    assert s[k..][1..] == s[k + 1..];
  }

  lemma NoneTaken(gone: set<nat>)
    ensures Taken([], gone) == []
  {
  }

  /** Two neighbours that are both to go. */
  predicate Neighbours(s: seq<nat>, gone: set<nat>) {
    exists k :: 0 <= k < |s| - 1 && s[k] in gone && s[k + 1] in gone
  }

  // ---------------------------------------------------------------- when the loop is right

  lemma {:induction false} KeptIn(s: seq<nat>, gone: set<nat>, x: nat)
    ensures x in Kept(s, gone) <==> x in s && x !in gone
    decreases s
  {
    if s != [] {
      KeptIn(s[1..], gone, x);
    }
  }

  lemma {:induction false} SweptIsKept(s: seq<nat>, gone: set<nat>)
    requires !Neighbours(s, gone)
    ensures Swept(s, gone) == Kept(s, gone)
    decreases s
  {
    if s != [] {
      NoneLater(s, gone, 1);
      if s[0] !in gone {
        SweptIsKept(s[1..], gone);
      } else if |s| > 1 {
        assert s[0] in gone ==> s[0 + 1] !in gone;
        NoneLater(s, gone, 2);
        SweptIsKept(s[2..], gone);
        assert s[1..][0] == s[1] && s[1..][1..] == s[2..];
      }
    }
  }

  lemma NoneLater(s: seq<nat>, gone: set<nat>, n: nat)
    requires !Neighbours(s, gone) && n <= |s|
    ensures !Neighbours(s[n..], gone)
  {
    forall k | 0 <= k < |s[n..]| - 1 ensures !(s[n..][k] in gone && s[n..][k + 1] in gone) {
      assert !(s[n + k] in gone && s[n + k + 1] in gone);
    }
  }

  /** Where two neighbours are to go, a buffer that was given back stays in the list. */
  lemma {:induction false} SweptKeepsGone(s: seq<nat>, gone: set<nat>)
    requires Neighbours(s, gone)
    ensures exists x :: x in Swept(s, gone) && x in gone
    decreases s
  {
    var k :| 0 <= k < |s| - 1 && s[k] in gone && s[k + 1] in gone;
    if s[0] !in gone {
      assert s[1..][k - 1] in gone && s[1..][k - 1 + 1] in gone;
      SweptKeepsGone(s[1..], gone);
      var x :| x in Swept(s[1..], gone) && x in gone;
      assert x in Swept(s, gone);
    } else if s[1] in gone {
      assert Swept(s, gone)[0] == s[1];
    } else {
      assert s[2..][k - 2] in gone && s[2..][k - 2 + 1] in gone;
      SweptKeepsGone(s[2..], gone);
      var x :| x in Swept(s[2..], gone) && x in gone;
      assert x in Swept(s, gone);
    }
  }

  /** The loop takes out what it should exactly if no two neighbours are to go. */
  lemma SweptExactly(s: seq<nat>, gone: set<nat>)
    ensures Swept(s, gone) == Kept(s, gone) <==> !Neighbours(s, gone)
  {
    if Neighbours(s, gone) {
      SweptKeepsGone(s, gone);
      var x :| x in Swept(s, gone) && x in gone;
      KeptIn(s, gone, x);
    } else {
      SweptIsKept(s, gone);
    }
  }

  /** One buffer alone is always taken out: csp_can_pbuf_free. */
  lemma FreeTakesOut(s: seq<nat>, x: nat, i: nat)
    requires Distinct(s) && i < |s| && s[i] == x
    ensures Swept(s, {x}) == s[..i] + s[i + 1..]
  {
    assert !Neighbours(s, {x});
    SweptIsKept(s, {x});
    KeptOne(s, x, i);
  }

  lemma {:induction false} KeptOne(s: seq<nat>, x: nat, i: nat)
    requires Distinct(s) && i < |s| && s[i] == x
    ensures Kept(s, {x}) == s[..i] + s[i + 1..]
    decreases s
  {
    if i == 0 {
      KeptAll(s[1..], {x});
    } else {
      assert Distinct(s[1..]) && s[0] != x;
      KeptOne(s[1..], x, i - 1);
      assert [s[0]] + s[1..][..i - 1] == s[..i] && s[1..][i..] == s[i + 1..];
    }
  }

  lemma {:induction false} KeptAll(s: seq<nat>, gone: set<nat>)
    requires forall x <- s :: x !in gone
    ensures Kept(s, gone) == s
    decreases s
  {
    if s != [] {
      KeptAll(s[1..], gone);
    }
  }

  // ---------------------------------------------------------------- the pointers after the loop

  lemma {:induction false} ChainAt(next: seq<int>, p: int, s: seq<nat>, k: nat)
    requires Chain(next, p, s) && k < |s|
    ensures s[k] < |next| && next[s[k]] == First(s[k + 1..])
    decreases k
  {
    if k > 0 {
      ChainAt(next, next[s[0]], s[1..], k - 1);
      assert s[1..][k..] == s[k + 1..];
    }
  }

  /** Where a pointer to the rest of the list ends up: at the buffer behind, if the first is taken out. */
  function Skip(s: seq<nat>, gone: set<nat>): int {
    if s != [] && s[0] in gone then First(s[1..]) else First(s)
  }

  /** The next pointers of the buffers once the loop has looked at the first `k`. */
  predicate Pointed(next: seq<int>, s: seq<nat>, gone: set<nat>, k: nat) {
    forall j :: 0 <= j < |s| ==>
      s[j] < |next| && next[s[j]] == if j + 1 < k then Skip(s[j + 1..], gone) else First(s[j + 1..])
  }

  lemma PointedStart(next: seq<int>, p: int, s: seq<nat>, gone: set<nat>)
    requires Chain(next, p, s)
    ensures Pointed(next, s, gone, 0)
  {
    forall j | 0 <= j < |s| ensures s[j] < |next| && next[s[j]] == First(s[j + 1..]) {
      ChainAt(next, p, s, j);
    }
  }

  lemma PointedNext(next: seq<int>, s: seq<nat>, gone: set<nat>, k: nat)
    requires Pointed(next, s, gone, k) && Distinct(s) && k < |s|
    ensures s[k] < |next| && next[s[k]] == First(s[k + 1..])
    ensures s[k] !in gone || k == 0 ==> Pointed(next, s, gone, k + 1)
    ensures s[k] in gone && k > 0 ==> s[k - 1] < |next| && Pointed(next[s[k - 1] := next[s[k]]], s, gone, k + 1)
  {
    if k > 0 {
      assert s[k - 1] < |next| && s[k - 1 + 1..][1..] == s[k + 1..] && s[k..][0] == s[k];
    }
  }

  lemma {:induction false} SweptChain(next: seq<int>, s: seq<nat>, gone: set<nat>, k: nat)
    requires k <= |s| && Pointed(next, s, gone, |s|)
    ensures Chain(next, Skip(s[k..], gone), Swept(s[k..], gone))
    decreases |s| - k
  {
    var t := s[k..];
    if k < |s| {
      assert t[0] == s[k] && t[1..] == s[k + 1..];
      if t[0] !in gone {
        SweptChain(next, s, gone, k + 1);
        assert ([t[0]] + Swept(t[1..], gone))[1..] == Swept(t[1..], gone);
      } else if |t| > 1 {
        assert t[1] == s[k + 1] && t[2..] == s[k + 2..];
        SweptChain(next, s, gone, k + 2);
        assert ([t[1]] + Swept(t[2..], gone))[1..] == Swept(t[2..], gone);
      }
    }
  }

  /** The list of an interface: `pbufs`, and the next pointer of every buffer of the pool. */
  class List {
    var pbufs: int
    const next: array<int>

    ghost predicate Holds(s: seq<nat>)
      reads this, next
    {
      Chain(next[..], pbufs, s) && Distinct(s)
    }

    constructor (n: nat)
      ensures Holds([]) && fresh(next) && next.Length == n
    {
      pbufs := -1;
      next := new int[n];
    }

    /** The end of csp_can_pbuf_new: a buffer from the pool becomes the first. */
    method Insert(packet: nat, ghost s: seq<nat>)
      requires Holds(s) && packet < next.Length && packet !in s
      modifies this, next
      ensures Holds([packet] + s)
    {
      ghost var was := next[..];
      next[packet] := pbufs;
      pbufs := packet;
      SameChain(was, next[..], next[packet], s, packet);
      assert ([packet] + s)[1..] == s;
    }

    /** The loop of csp_can_pbuf_free and csp_can_pbuf_cleanup: every buffer to go is given back, once, and the one
        before it, taken out or not, is linked to the one behind. */
    method Sweep(gone: set<nat>, ghost s: seq<nat>) returns (freed: seq<nat>)
      requires Holds(s)
      modifies this, next
      ensures Chain(next[..], pbufs, Swept(s, gone))
      ensures freed == Taken(s, gone)
    {
      freed := [];
      var packet, prev := pbufs, -1;
      ghost var k := 0;
      assert s[0..] == s;
      PointedStart(next[..], pbufs, s, gone);
      hide Pointed, Chain, Swept, Taken;
      while packet != -1
        invariant 0 <= k <= |s| && packet == First(s[k..]) && prev == (if k == 0 then -1 else s[k - 1])
        invariant Pointed(next[..], s, gone, k)
        invariant pbufs == if k == 0 then First(s) else Skip(s, gone)
        invariant Taken(s, gone) == freed + Taken(s[k..], gone)
        decreases |s| - k
      {
        assert packet == s[k] && s[k..][1..] == s[k + 1..];
        PointedNext(next[..], s, gone, k);
        TakenNext(s, gone, k);
        ghost var was := next[..];
        if packet in gone {
          if prev != -1 {
            next[prev] := next[packet];
            assert next[..] == was[s[k - 1] := was[s[k]]];
          } else {
            pbufs := next[packet];
          }
          freed := freed + [packet];
        }
        prev := packet;
        packet := next[packet];
        k := k + 1;
      }
      assert k == |s|;
      SweptChain(next[..], s, gone, 0);
      NoneTaken(gone);
    }

    /** csp_can_pbuf_free: the buffer is taken out, and the list is whole. */
    method Free(buffer: nat, ghost s: seq<nat>, ghost i: nat)
      requires Holds(s) && i < |s| && s[i] == buffer
      modifies this, next
      ensures Holds(s[..i] + s[i + 1..])
    {
      FreeTakesOut(s, buffer, i);
      var freed := Sweep({buffer}, s);
    }
  }

  lemma {:induction false} SameChain(next: seq<int>, next1: seq<int>, p: int, s: seq<nat>, x: nat)
    requires Chain(next, p, s) && |next1| == |next| && x !in s
    requires forall i :: 0 <= i < |next| && i != x ==> next1[i] == next[i]
    ensures Chain(next1, p, s)
    decreases s
  {
    if s != [] {
      SameChain(next, next1, next[s[0]], s[1..], x);
    }
  }
}
