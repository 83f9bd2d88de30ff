/** The routing table: longest-prefix match by bit masks. */
module Rtable {
  import opened Base

  /** What identifies an entry: an address and the number of its leading bits that count. */
  datatype Key = Key(address: bv16, netmask: nat)

  /** Where an entry sends packets: an interface and the address of the next hop on it. */
  datatype Dest = Dest(iface: nat, via: bv16)

  datatype Route = Route(key: Key, dest: Dest)

  /** csp_id_get_host_bits: 5 in version 1, 14 in version 2. */
  predicate HostBits(h: nat) { h == 5 || h == 14 }

  // ---------------------------------------------------------------- masks and quotients

  /** The 16-bit mask of the bits that count, with `k` host bits. */
  function NetBits(k: nat): bv16
    requires k <= 14
  {
    !((1 << k) - 1)
  }

  function Power(k: nat): (p: bv16)
    requires k <= 14
    ensures p != 0
  {
    1 << k
  }

  function Under(a: bv16, mask: bv16): bv16 { a & mask }

  /** How csp_rtable_find_route compares two addresses. */
  predicate SameNet(a: bv16, b: bv16, k: nat)
    requires k <= 14
  {
    Under(a, NetBits(k)) == Under(b, NetBits(k))
  }

  /** What is meant: the addresses have the same quotient by 2^k. */
  predicate SamePrefix(a: bv16, b: bv16, k: nat)
    requires k <= 14
  {
    a / Power(k) == b / Power(k)
  }

  /** Comparing under a mask is comparing quotients by a number. */
  predicate Agrees(a: bv16, b: bv16, mask: bv16, p: bv16)
    requires p != 0
  {
    a & mask == b & mask <==> a / p == b / p
  }

  /** The masks and the powers, one by one. */
  function Mask(k: nat): bv16
    requires k <= 14
  {
    [0xFFFF, 0xFFFE, 0xFFFC, 0xFFF8, 0xFFF0, 0xFFE0, 0xFFC0, 0xFF80, 0xFF00, 0xFE00, 0xFC00, 0xF800, 0xF000, 0xE000,
     0xC000][k]
  }

  function TwoTo(k: nat): (p: bv16)
    requires k <= 14
    ensures p != 0
  {
    [0x1, 0x2, 0x4, 0x8, 0x10, 0x20, 0x40, 0x80, 0x100, 0x200, 0x400, 0x800, 0x1000, 0x2000, 0x4000][k]
  }

  lemma ListedAgrees(a: bv16, b: bv16, k: nat)
    requires k <= 14
    ensures Agrees(a, b, Mask(k), TwoTo(k))
  {
    if k == 0 {
      assert Agrees(a, b, 0xFFFF, 0x1);
    } else if k == 1 {
      assert Agrees(a, b, 0xFFFE, 0x2);
    } else if k == 2 {
      assert Agrees(a, b, 0xFFFC, 0x4);
    } else if k == 3 {
      assert Agrees(a, b, 0xFFF8, 0x8);
    } else if k == 4 {
      assert Agrees(a, b, 0xFFF0, 0x10);
    } else if k == 5 {
      assert Agrees(a, b, 0xFFE0, 0x20);
    } else if k == 6 {
      assert Agrees(a, b, 0xFFC0, 0x40);
    } else if k == 7 {
      assert Agrees(a, b, 0xFF80, 0x80);
    } else if k == 8 {
      assert Agrees(a, b, 0xFF00, 0x100);
    } else if k == 9 {
      assert Agrees(a, b, 0xFE00, 0x200);
    } else if k == 10 {
      assert Agrees(a, b, 0xFC00, 0x400);
    } else if k == 11 {
      assert Agrees(a, b, 0xF800, 0x800);
    } else if k == 12 {
      assert Agrees(a, b, 0xF000, 0x1000);
    } else if k == 13 {
      assert Agrees(a, b, 0xE000, 0x2000);
    } else if k == 14 {
      assert Agrees(a, b, 0xC000, 0x4000);
    }
  }

  lemma Listed(k: nat)
    requires k <= 14
    ensures NetBits(k) == Mask(k) && Power(k) == TwoTo(k)
  {
    if k == 0 {
    } else if k == 1 {
    } else if k == 2 {
    } else if k == 3 {
    } else if k == 4 {
    } else if k == 5 {
    } else if k == 6 {
    } else if k == 7 {
    } else if k == 8 {
    } else if k == 9 {
    } else if k == 10 {
    } else if k == 11 {
    } else if k == 12 {
    } else if k == 13 {
    } else if k == 14 {
    }
  }

  lemma MaskAgrees(a: bv16, b: bv16, k: nat)
    requires k <= 14
    ensures Agrees(a, b, NetBits(k), Power(k))
  {
    hide Agrees, NetBits, Power, Mask, TwoTo;
    Listed(k);
    ListedAgrees(a, b, k);
  }

  /** The mask arithmetic of the code compares what is meant. */
  lemma MaskIsQuotient(a: bv16, b: bv16, k: nat)
    requires k <= 14
    ensures SameNet(a, b, k) <==> SamePrefix(a, b, k)
  {
    hide NetBits, Power;
    MaskAgrees(a, b, k);
  }

  // ---------------------------------------------------------------- the table

  /** A build constant: any number of places. */
  const CSP_RTABLE_SIZE: nat

  /** csp_rtable_find_exact: the entry's place, or the length of the table. */
  function FindExact(table: seq<Route>, key: Key): (i: nat)
    ensures i <= |table| && (i < |table| ==> table[i].key == key)
    ensures forall j :: 0 <= j < i ==> table[j].key != key
    decreases table
  {
    if table == [] || table[0].key == key then 0 else 1 + FindExact(table[1..], key)
  }

  /** csp_rtable_set_internal, while there is room: an entry is changed where it is, or added at the end. */
  function SetRoute(table: seq<Route>, r: Route): seq<Route> {
    var i := FindExact(table, r.key);
    if i < |table| then table[i := r] else table + [r]
  }

  /** A call of csp_rtable_set. */
  datatype Call = Call(address: bv16, netmask: int, iface: Option<nat>, via: bv16)

  /** The entry a call sets: a mask out of range means a host route; without an interface the call is refused. */
  function Entry(h: nat, c: Call): Option<Route> {
    var netmask: nat := if c.netmask < 0 || c.netmask > h then h else c.netmask;
    if c.iface.None? then None else Some(Route(Key(c.address, netmask), Dest(c.iface.value, c.via)))
  }

  function SetAll(h: nat, calls: seq<Call>): seq<Route>
    decreases calls
  {
    if calls == [] then []
    else
      var table, e := SetAll(h, calls[..|calls| - 1]), Entry(h, calls[|calls| - 1]);
      if e.None? then table else SetRoute(table, e.value)
  }

  predicate Matches(h: nat, key: Key, addr: bv16)
    requires key.netmask <= h <= 14
  {
    SameNet(key.address, addr, h - key.netmask)
  }

  predicate MasksFit(h: nat, table: seq<Route>) { forall r <- table :: r.key.netmask <= h }

  /** The entry at `i` is the best of those that match: the longest mask, and the last in the table among those. */
  predicate Best(h: nat, table: seq<Route>, addr: bv16, i: nat)
    requires h <= 14 && MasksFit(h, table)
  {
    && i < |table| && Matches(h, table[i].key, addr)
    && forall j :: 0 <= j < |table| && Matches(h, table[j].key, addr) ==>
         table[j].key.netmask < table[i].key.netmask || (table[j].key.netmask == table[i].key.netmask && j <= i)
  }

  /** `best` is the best among the first `n` entries, -1 if none of them matches. */
  predicate BestOf(h: nat, table: seq<Route>, addr: bv16, n: nat, best: int)
    requires h <= 14 && n <= |table| && MasksFit(h, table) && -1 <= best < n
  {
    && (best >= 0 ==> Matches(h, table[best].key, addr))
    && forall j :: 0 <= j < n && Matches(h, table[j].key, addr) ==>
         best >= 0 && (table[j].key.netmask < table[best].key.netmask
                       || (table[j].key.netmask == table[best].key.netmask && j <= best))
  }

  /** One turn of the search: a match with a mask at least as long takes over. */
  lemma BestStep(h: nat, table: seq<Route>, addr: bv16, n: nat, best: int)
    requires h <= 14 && n < |table| && MasksFit(h, table) && -1 <= best < n && BestOf(h, table, addr, n, best)
    ensures var mask := if best == -1 then 0 else table[best].key.netmask;
            BestOf(h, table, addr, n + 1,
                   if Matches(h, table[n].key, addr) && table[n].key.netmask >= mask then n else best)
  {
  }

  // ---------------------------------------------------------------- the reference

  /** A map from addresses with masks to destinations, and its keys in the order they were first set. */
  datatype Store = Store(dests: map<Key, Dest>, order: seq<Key>)

  function Record(s: Store, r: Route): Store {
    Store(s.dests[r.key := r.dest], if r.key in s.dests then s.order else s.order + [r.key])
  }

  function RecordAll(h: nat, calls: seq<Call>): Store
    decreases calls
  {
    if calls == [] then Store(map[], [])
    else
      var s, e := RecordAll(h, calls[..|calls| - 1]), Entry(h, calls[|calls| - 1]);
      if e.None? then s else Record(s, e.value)
  }

  predicate Covers(h: nat, key: Key, addr: bv16) {
    key.netmask <= h <= 14 && SamePrefix(key.address, addr, h - key.netmask)
  }

  /** Longest-prefix match: among the keys that cover an address the one with the longest mask, and of those the one
      first set last. */
  predicate LongestPrefix(h: nat, s: Store, addr: bv16, i: nat) {
    && i < |s.order| && Covers(h, s.order[i], addr)
    && forall j :: 0 <= j < |s.order| && Covers(h, s.order[j], addr) ==>
         s.order[j].netmask < s.order[i].netmask || (s.order[j].netmask == s.order[i].netmask && j <= i)
  }

  // ---------------------------------------------------------------- the two extremes

  /** A mask out of range makes a host route: it covers the one address it was set for. */
  lemma HostRoute(h: nat, c: Call, addr: bv16)
    requires HostBits(h) && c.iface.Some? && (c.netmask < 0 || c.netmask > h)
    ensures Covers(h, Entry(h, c).value.key, addr) <==> addr == c.address
  {
    hide SamePrefix, SameNet;
    MaskIsQuotient(c.address, addr, 0);
    AllBits(c.address, addr);
  }

  lemma AllBits(a: bv16, b: bv16)
    ensures SameNet(a, b, 0) <==> a == b
  {
    hide NetBits, Under;
    NoHostBits();
    Masked(a, b, NetBits(0));
  }

  lemma NoHostBits()
    ensures NetBits(0) == 0xFFFF
  {
  }

  lemma Masked(a: bv16, b: bv16, m: bv16)
    requires m == 0xFFFF
    ensures Under(a, m) == Under(b, m) <==> a == b
  {
  }

  /** A mask of no bits makes a default route: it covers every address of the node's own range. */
  lemma DefaultRoute(h: nat, c: Call, addr: bv16)
    requires HostBits(h) && c.iface.Some? && c.netmask == 0
    requires var n := if h == 5 then 32 else 0x4000; c.address < n && addr < n
    ensures Covers(h, Entry(h, c).value.key, addr)
  {
  }

  // ---------------------------------------------------------------- how many places are needed

  /** The networks that some calls set a route for. */
  function Networks(h: nat, calls: seq<Call>): set<Key> {
    set c | c in calls && Entry(h, c).Some? :: Entry(h, c).value.key
  }

  /** What csp_rtable_set needs: a new network finds a free place. */
  predicate HasPlace(h: nat, calls: seq<Call>, c: Call) {
    Entry(h, c).Some? && Entry(h, c).value.key !in Networks(h, calls) ==> |Networks(h, calls)| < CSP_RTABLE_SIZE
  }

  lemma NetworksNext(h: nat, calls: seq<Call>, c: Call)
    ensures Networks(h, calls + [c]) ==
            Networks(h, calls) + if Entry(h, c).Some? then {Entry(h, c).value.key} else {}
  {
    hide Entry;
    assert forall x :: x in calls + [c] <==> x in calls || x == c;
  }

  /** The table has an entry for every network, and no more. */
  lemma {:induction false} OneEntryEach(h: nat, calls: seq<Call>)
    ensures |SetAll(h, calls)| == |Networks(h, calls)|
    ensures forall k: Key :: k in Networks(h, calls) <==>
              exists i :: 0 <= i < |SetAll(h, calls)| && SetAll(h, calls)[i].key == k
    decreases |calls|
  {
    hide Entry;
    if calls != [] {
      var before, c := calls[..|calls| - 1], calls[|calls| - 1];
      assert calls == before + [c];
      OneEntryEach(h, before);
      NetworksNext(h, before, c);
      if Entry(h, c).Some? {
        var t, r := SetAll(h, before), Entry(h, c).value;
        OneMore(t, r, Networks(h, before));
      }
    }
  }

  lemma OneMore(t: seq<Route>, r: Route, nets: set<Key>)
    requires |t| == |nets| && forall k: Key :: k in nets <==> exists i :: 0 <= i < |t| && t[i].key == k
    ensures |SetRoute(t, r)| == |nets + {r.key}|
    ensures forall k: Key :: k in nets + {r.key} <==>
              exists i :: 0 <= i < |SetRoute(t, r)| && SetRoute(t, r)[i].key == k
  {
    var n, u := FindExact(t, r.key), SetRoute(t, r);
    if n < |t| {
      assert t[n].key == r.key && nets + {r.key} == nets;
    } else {
      assert r.key !in nets;
    }
    assert u[n].key == r.key;
    forall k: Key ensures k in nets + {r.key} <==> exists i :: 0 <= i < |u| && u[i].key == k {
      if k in nets {
        var i :| 0 <= i < |t| && t[i].key == k;
        assert u[i].key == k;
      }
    }
  }

  /** Every call of a list finds its place if and only if the calls name no more networks than the table has places. */
  lemma {:induction false} FitsExactly(h: nat, calls: seq<Call>)
    ensures (forall i :: 0 <= i < |calls| ==> HasPlace(h, calls[..i], calls[i])) <==>
            |Networks(h, calls)| <= CSP_RTABLE_SIZE
    decreases |calls|
  {
    hide HasPlace, Networks;
    if calls != [] {
      var n := |calls| - 1;
      var before, c := calls[..n], calls[n];
      assert calls == before + [c];
      NetworksNext(h, before, c);
      FitsExactly(h, before);
      assert forall i :: 0 <= i < n ==> calls[..i] == before[..i] && calls[i] == before[i];
      PlaceExactly(h, before, c);
    } else {
      NoNetworks(h);
    }
  }

  lemma PlaceExactly(h: nat, calls: seq<Call>, c: Call)
    ensures |Networks(h, calls + [c])| <= CSP_RTABLE_SIZE <==>
            |Networks(h, calls)| <= CSP_RTABLE_SIZE && HasPlace(h, calls, c)
  {
    hide Networks, Entry;
    NetworksNext(h, calls, c);
    var nets := Networks(h, calls);
    if Entry(h, c).Some? {
      var k := Entry(h, c).value.key;
      assert k in nets ==> nets + {k} == nets;
      assert k !in nets ==> |nets + {k}| == |nets| + 1;
    } else {
      assert nets + {} == nets;
    }
  }

  lemma NoNetworks(h: nat)
    ensures Networks(h, []) == {}
  {
  }

  /** The table holds the map, in order. */
  ghost predicate Refines(table: seq<Route>, s: Store) {
    && |table| == |s.order|
    && (forall i :: 0 <= i < |table| ==> s.order[i] in s.dests && table[i] == Route(s.order[i], s.dests[s.order[i]]))
    && (forall i, j :: 0 <= i < j < |table| ==> s.order[i] != s.order[j])
    && (forall k <- s.dests :: k in s.order)
  }

  lemma NewRefines(table: seq<Route>, s: Store, r: Route)
    requires Refines(table, s) && forall j :: 0 <= j < |table| ==> table[j].key != r.key
    ensures Refines(table + [r], Record(s, r))
  {
  }

  lemma ChangedRefines(table: seq<Route>, s: Store, r: Route, n: nat)
    requires Refines(table, s) && n < |table| && table[n].key == r.key
    ensures Refines(table[n := r], Record(s, r))
  {
  }

  lemma SetRefines(table: seq<Route>, s: Store, r: Route)
    requires Refines(table, s)
    ensures Refines(SetRoute(table, r), Record(s, r))
  {
    hide Refines, Record;
    var n := FindExact(table, r.key);
    if n == |table| {
      NewRefines(table, s, r);
    } else {
      ChangedRefines(table, s, r, n);
    }
  }

  lemma EmptyRefines()
    ensures Refines([], Store(map[], []))
  {
  }

  lemma {:induction false} RunRefines(h: nat, calls: seq<Call>)
    requires h <= 14
    ensures Refines(SetAll(h, calls), RecordAll(h, calls)) && MasksFit(h, SetAll(h, calls))
    decreases calls
  {
    hide Refines, Record;
    if calls == [] {
      EmptyRefines();
    } else {
      var before, e := calls[..|calls| - 1], Entry(h, calls[|calls| - 1]);
      RunRefines(h, before);
      if e.Some? {
        SetRefines(SetAll(h, before), RecordAll(h, before), e.value);
      }
    }
  }

  lemma BestIsLongestPrefix(h: nat, table: seq<Route>, s: Store, addr: bv16, i: nat)
    requires h <= 14 && Refines(table, s) && MasksFit(h, table)
    ensures Best(h, table, addr, i) <==> LongestPrefix(h, s, addr, i)
    ensures i < |table| ==> table[i].key == s.order[i] && s.order[i] in s.dests && table[i].dest == s.dests[s.order[i]]
  {
    hide SameNet, SamePrefix;
    forall j | 0 <= j < |table| ensures Matches(h, table[j].key, addr) <==> Covers(h, s.order[j], addr) {
      MaskIsQuotient(s.order[j].address, addr, h - s.order[j].netmask);
    }
  }

  /** At most one entry is the longest match. */
  lemma LongestPrefixUnique(h: nat, s: Store, addr: bv16, i: nat, j: nat)
    requires LongestPrefix(h, s, addr, i) && LongestPrefix(h, s, addr, j)
    ensures i == j
  {
  }

  // ---------------------------------------------------------------- the code

  /** The routing table, for addresses of `h` bits. */
  class Table {
    const h: nat
    const rtable: array<Route>
    var inptr: nat
    /** The calls of csp_rtable_set so far. */
    ghost var calls: seq<Call>

    ghost predicate Valid()
      reads this, rtable
    {
      && HostBits(h) && inptr <= rtable.Length == CSP_RTABLE_SIZE
      && rtable[..inptr] == SetAll(h, calls)
    }

    constructor (h: nat)
      requires HostBits(h)
      ensures Valid() && fresh(rtable) && calls == [] && this.h == h
    {
      this.h := h;
      rtable := new Route[CSP_RTABLE_SIZE];
      inptr, calls := 0, [];
    }

    /** csp_rtable_find_exact. */
    method Exact(key: Key) returns (i: nat)
      requires inptr <= rtable.Length
      ensures i == FindExact(rtable[..inptr], key)
    {
      i := 0;
      ghost var t := rtable[..inptr];
      while i < inptr
        invariant i <= inptr && FindExact(t, key) == i + FindExact(t[i..], key)
      {
        if rtable[i].key == key {
          return;
        }
        assert t[i..][1..] == t[i + 1..];
        i := i + 1;
      }
    }

    /** csp_rtable_set; a new network needs a free place. */
    method Set(c: Call) returns (ok: bool)
      requires Valid() && HasPlace(h, calls, c)
      modifies this, rtable
      ensures Valid() && calls == old(calls) + [c]
      ensures ok <==> c.iface.Some?
    {
      assert (calls + [c])[..|calls|] == calls;
      OneEntryEach(h, calls);
      hide Networks;
      calls := calls + [c];
      var netmask := c.netmask;
      if netmask < 0 || netmask > h {
        netmask := h;
      }
      if c.iface.None? {
        return false;
      }
      ghost var t := rtable[..inptr];
      var r := Route(Key(c.address, netmask), Dest(c.iface.value, c.via));
      var i := Exact(r.key);
      if i == inptr {
        assert r.key !in Networks(h, old(calls));
        inptr := inptr + 1;
      }
      rtable[i] := r;
      assert rtable[..inptr] == SetRoute(t, r);
      return true;
    }

    /** csp_rtable_find_route is longest-prefix match on the map the calls of csp_rtable_set built: no entry exactly
        if no key covers the address, and otherwise the destination of the longest. */
    method FindRoute(addr: bv16) returns (r: Option<Route>)
      requires Valid()
      ensures var s := RecordAll(h, calls);
              if r.None? then forall k <- s.dests :: !Covers(h, k, addr)
              else exists i: nat :: LongestPrefix(h, s, addr, i) && r.value.key == s.order[i]
                                    && r.value.key in s.dests && r.value.dest == s.dests[r.value.key]
    {
      hide SameNet, SetAll, RecordAll, LongestPrefix, Covers, NetBits, Refines, SamePrefix;
      RunRefines(h, calls);
      ghost var t, s := rtable[..inptr], RecordAll(h, calls);
      var best_result, best_result_mask, i := -1, 0, 0;
      while i < inptr
        invariant i <= inptr && -1 <= best_result < i
        invariant best_result_mask == if best_result == -1 then 0 else t[best_result].key.netmask
        invariant BestOf(h, t, addr, i, best_result)
      {
        assert rtable[i] == t[i];
        BestStep(h, t, addr, i, best_result);
        if SameNet(rtable[i].key.address, addr, h - rtable[i].key.netmask) {
          if rtable[i].key.netmask >= best_result_mask {
            best_result := i;
            best_result_mask := rtable[i].key.netmask;
          }
        }
        i := i + 1;
      }
      if best_result > -1 {
        assert Best(h, t, addr, best_result);
        BestIsLongestPrefix(h, t, s, addr, best_result);
        return Some(rtable[best_result]);
      }
      NoneMatch(h, t, s, addr);
      return None;
    }
  }

  lemma NoneMatch(h: nat, table: seq<Route>, s: Store, addr: bv16)
    requires h <= 14 && Refines(table, s) && MasksFit(h, table)
    requires forall j :: 0 <= j < |table| ==> !Matches(h, table[j].key, addr)
    ensures forall k <- s.dests :: !Covers(h, k, addr)
  {
    hide SameNet, SamePrefix;
    forall k | k in s.dests ensures !Covers(h, k, addr) {
      var i :| 0 <= i < |s.order| && s.order[i] == k;
      assert table[i].key == k;
      if k.netmask <= h {
        MaskIsQuotient(k.address, addr, h - k.netmask);
      }
    }
  }
}
