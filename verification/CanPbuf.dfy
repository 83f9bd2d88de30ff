/** The list of partly received packets of a CAN interface, and how frames of different packets share it. */
module CanPbuf {
  import opened Base
  import opened CspId

  /** A CAN frame: the 29-bit identifier and up to eight data bytes. */
  datatype Frame = Frame(id: bv32, data: seq<bv8>)

  /** What a packet buffer holds while it is being received: the fields the two protocols use, and the bytes written
      so far (the data in CFP 1, the frame with its header in CFP 2), whose number is rx_count in CFP 1 and frame_length
      in CFP 2; `counter` is the fragment counter that CFP 2 keeps in rx_count. */
  datatype Part = Part(id: Id, length: nat, counter: nat, remain: nat, bytes: seq<bv8>)

  datatype Pbuf = Pbuf(cfpid: bv32, part: Part)

  /** What receiving a frame does to the buffer the frame is bound to. */
  datatype Reply = Keep(part: Part) | Drop | Deliver(packet: Packet)

  /** A packet handed to csp_qfifo_write, and the identifier it was received under. */
  datatype Sent = Sent(cfpid: bv32, packet: Packet)

  /** One of the two fragmentation protocols: the identifier under its connection mask, whether a frame begins a
      packet, what a frame does to its buffer, and what a buffer newly taken from the pool happens to hold. */
  datatype Protocol = Protocol(key: bv32 -> bv32, begins: Frame -> bool, take: (Part, Frame) -> Reply, unset: Part)

  /** Two sets of bits put together. */
  function With(x: bv32, y: bv32): bv32 { x | y }

  // ---------------------------------------------------------------- the code's list

  /** csp_can_pbuf_find: the first buffer bound to the identifier, or the length of the list. */
  function Find(g: Protocol, pbufs: seq<Pbuf>, id: bv32): (i: nat)
    ensures i <= |pbufs|
    ensures i < |pbufs| ==> g.key(pbufs[i].cfpid) == g.key(id)
    ensures forall j :: 0 <= j < i ==> g.key(pbufs[j].cfpid) != g.key(id)
    decreases pbufs
  {
    if pbufs == [] || g.key(pbufs[0].cfpid) == g.key(id) then 0 else 1 + Find(g, pbufs[1..], id)
  }

  /** csp_can_pbuf_free: the buffer leaves the list. */
  function Free(pbufs: seq<Pbuf>, i: nat): seq<Pbuf>
    requires i < |pbufs|
  {
    pbufs[..i] + pbufs[i + 1..]
  }

  datatype Out = Out(pbufs: seq<Pbuf>, sent: seq<Sent>)

  function Apply(pbufs: seq<Pbuf>, i: nat, r: Reply): Out
    requires i < |pbufs|
  {
    match r
    case Keep(part) => Out(pbufs[i := pbufs[i].(part := part)], [])
    case Drop => Out(Free(pbufs, i), [])
    case Deliver(packet) => Out(Free(pbufs, i), [Sent(pbufs[i].cfpid, packet)])
  }

  /** One received frame: bound to a buffer, or to a new one if it begins a packet and the pool has a buffer. */
  function Rx(g: Protocol, mem: bool, pbufs: seq<Pbuf>, f: Frame): Out {
    var i := Find(g, pbufs, f.id);
    if i < |pbufs| then Apply(pbufs, i, g.take(pbufs[i].part, f))
    else if g.begins(f) && mem then Apply([Pbuf(f.id, g.unset)] + pbufs, 0, g.take(g.unset, f))
    else Out(pbufs, [])
  }

  /** All frames seen on the bus, with buffers available. */
  function RxAll(g: Protocol, pbufs: seq<Pbuf>, fs: seq<Frame>): Out
    decreases fs
  {
    if fs == [] then Out(pbufs, [])
    else
      var o := Rx(g, true, pbufs, fs[0]);
      var r := RxAll(g, o.pbufs, fs[1..]);
      Out(r.pbufs, o.sent + r.sent)
  }

  // ---------------------------------------------------------------- one identifier alone

  datatype Single = Single(part: Option<Part>, sent: seq<Packet>)

  /** What a frame does where only the frames of one identifier are seen. */
  function Track(g: Protocol, cur: Option<Part>, f: Frame): Single {
    if cur.None? && !g.begins(f) then Single(None, [])
    else
      match g.take(if cur.Some? then cur.value else g.unset, f)
      case Keep(part) => Single(Some(part), [])
      case Drop => Single(None, [])
      case Deliver(packet) => Single(None, [packet])
  }

  function TrackAll(g: Protocol, cur: Option<Part>, fs: seq<Frame>): Single
    decreases fs
  {
    if fs == [] then Single(cur, [])
    else
      var o := Track(g, cur, fs[0]);
      var r := TrackAll(g, o.part, fs[1..]);
      Single(r.part, o.sent + r.sent)
  }

  // ---------------------------------------------------------------- projections

  predicate Distinct(g: Protocol, pbufs: seq<Pbuf>) {
    forall i, j :: 0 <= i < j < |pbufs| ==> g.key(pbufs[i].cfpid) != g.key(pbufs[j].cfpid)
  }

  /** The partial packet under a key. */
  function Lookup(g: Protocol, pbufs: seq<Pbuf>, k: bv32): Option<Part>
    decreases pbufs
  {
    if pbufs == [] then None
    else if g.key(pbufs[0].cfpid) == k then Some(pbufs[0].part)
    else Lookup(g, pbufs[1..], k)
  }

  /** The frames of a key, in the order seen. */
  function FramesOf(g: Protocol, fs: seq<Frame>, k: bv32): seq<Frame>
    decreases fs
  {
    if fs == [] then []
    else if g.key(fs[0].id) == k then [fs[0]] + FramesOf(g, fs[1..], k)
    else FramesOf(g, fs[1..], k)
  }

  /** The packets handed on under a key, in order. */
  function PacketsOf(g: Protocol, sent: seq<Sent>, k: bv32): seq<Packet>
    decreases sent
  {
    if sent == [] then []
    else if g.key(sent[0].cfpid) == k then [sent[0].packet] + PacketsOf(g, sent[1..], k)
    else PacketsOf(g, sent[1..], k)
  }

  lemma {:induction false} LookupAt(g: Protocol, pbufs: seq<Pbuf>, i: nat)
    requires Distinct(g, pbufs) && i < |pbufs|
    ensures Lookup(g, pbufs, g.key(pbufs[i].cfpid)) == Some(pbufs[i].part)
    decreases pbufs
  {
    if i > 0 {
      LookupAt(g, pbufs[1..], i - 1);
    }
  }

  lemma {:induction false} LookupNone(g: Protocol, pbufs: seq<Pbuf>, k: bv32)
    requires forall i :: 0 <= i < |pbufs| ==> g.key(pbufs[i].cfpid) != k
    ensures Lookup(g, pbufs, k) == None
    decreases pbufs
  {
    if pbufs != [] {
      LookupNone(g, pbufs[1..], k);
    }
  }

  lemma {:induction false} LookupAppend(g: Protocol, x: seq<Pbuf>, y: seq<Pbuf>, k: bv32)
    ensures Lookup(g, x + y, k) == if Lookup(g, x, k).Some? then Lookup(g, x, k) else Lookup(g, y, k)
    decreases x
  {
    if x == [] {
      assert x + y == y;
    } else {
      assert (x + y)[1..] == x[1..] + y;
      LookupAppend(g, x[1..], y, k);
    }
  }

  lemma LookupOne(g: Protocol, b: Pbuf, k: bv32)
    ensures Lookup(g, [b], k) == if g.key(b.cfpid) == k then Some(b.part) else None
  {
  }

  lemma LookupAround(g: Protocol, x: seq<Pbuf>, b: Pbuf, y: seq<Pbuf>, k: bv32)
    requires Distinct(g, x + [b] + y)
    ensures Lookup(g, x + [b] + y, k) == if g.key(b.cfpid) == k then Some(b.part) else Lookup(g, x + y, k)
    ensures g.key(b.cfpid) == k ==> Lookup(g, x + y, k) == None
  {
    var l := x + [b] + y;
    LookupAppend(g, x + [b], y, k);
    LookupAppend(g, x, [b], k);
    LookupAppend(g, x, y, k);
    LookupOne(g, b, k);
    if g.key(b.cfpid) == k {
      assert l[|x|] == b;
      assert forall i :: 0 <= i < |x| ==> x[i] == l[i];
      assert forall i :: 0 <= i < |y| ==> y[i] == l[|x| + 1 + i];
      LookupNone(g, x, k);
      LookupNone(g, y, k);
    }
  }

  /** What a reply does to the list, key by key. */
  lemma ApplyLookup(g: Protocol, pbufs: seq<Pbuf>, i: nat, r: Reply, k: bv32)
    requires Distinct(g, pbufs) && i < |pbufs|
    ensures Lookup(g, Apply(pbufs, i, r).pbufs, k)
         == if g.key(pbufs[i].cfpid) != k then Lookup(g, pbufs, k) else if r.Keep? then Some(r.part) else None
  {
    var x, b, y := pbufs[..i], pbufs[i], pbufs[i + 1..];
    assert pbufs == x + [b] + y;
    LookupAround(g, x, b, y, k);
    if r.Keep? {
      var c := b.(part := r.part);
      assert pbufs[i := c] == x + [c] + y;
      ApplyDistinct(g, pbufs, i, r);
      LookupAround(g, x, c, y, k);
    }
  }

  lemma ApplySent(g: Protocol, pbufs: seq<Pbuf>, i: nat, r: Reply, k: bv32)
    requires i < |pbufs|
    ensures PacketsOf(g, Apply(pbufs, i, r).sent, k)
         == if g.key(pbufs[i].cfpid) == k && r.Deliver? then [r.packet] else []
  {
  }

  lemma ApplyDistinct(g: Protocol, pbufs: seq<Pbuf>, i: nat, r: Reply)
    requires Distinct(g, pbufs) && i < |pbufs|
    ensures Distinct(g, Apply(pbufs, i, r).pbufs)
  {
  }

  lemma NewDistinct(g: Protocol, pbufs: seq<Pbuf>, b: Pbuf)
    requires Distinct(g, pbufs) && forall j :: 0 <= j < |pbufs| ==> g.key(pbufs[j].cfpid) != g.key(b.cfpid)
    ensures Distinct(g, [b] + pbufs)
  {
  }

  /** A frame leaves at most one buffer to a key. */
  lemma RxDistinct(g: Protocol, mem: bool, pbufs: seq<Pbuf>, f: Frame)
    requires Distinct(g, pbufs)
    ensures Distinct(g, Rx(g, mem, pbufs, f).pbufs)
  {
    var i := Find(g, pbufs, f.id);
    if i < |pbufs| {
      ApplyDistinct(g, pbufs, i, g.take(pbufs[i].part, f));
    } else {
      var b := Pbuf(f.id, g.unset);
      NewDistinct(g, pbufs, b);
      ApplyDistinct(g, [b] + pbufs, 0, g.take(g.unset, f));
    }
  }

  /** What a frame does in a list is what it does where its key is alone, and it does nothing to other keys. */
  predicate Projects(g: Protocol, pbufs: seq<Pbuf>, f: Frame, k: bv32, o: Out) {
    if g.key(f.id) == k then
      Single(Lookup(g, o.pbufs, k), PacketsOf(g, o.sent, k)) == Track(g, Lookup(g, pbufs, k), f)
    else Lookup(g, o.pbufs, k) == Lookup(g, pbufs, k) && PacketsOf(g, o.sent, k) == []
  }

  lemma BoundProjects(g: Protocol, pbufs: seq<Pbuf>, i: nat, f: Frame, k: bv32)
    requires Distinct(g, pbufs) && i < |pbufs| && g.key(pbufs[i].cfpid) == g.key(f.id)
    ensures Projects(g, pbufs, f, k, Apply(pbufs, i, g.take(pbufs[i].part, f)))
  {
    var r := g.take(pbufs[i].part, f);
    LookupAt(g, pbufs, i);
    ApplyLookup(g, pbufs, i, r, k);
    ApplySent(g, pbufs, i, r, k);
  }

  lemma NewProjects(g: Protocol, pbufs: seq<Pbuf>, f: Frame, k: bv32)
    requires Distinct(g, pbufs) && forall j :: 0 <= j < |pbufs| ==> g.key(pbufs[j].cfpid) != g.key(f.id)
    requires g.begins(f)
    ensures Projects(g, pbufs, f, k, Apply([Pbuf(f.id, g.unset)] + pbufs, 0, g.take(g.unset, f)))
  {
    var b := Pbuf(f.id, g.unset);
    var r := g.take(g.unset, f);
    NewDistinct(g, pbufs, b);
    LookupNone(g, pbufs, g.key(f.id));
    LookupAppend(g, [b], pbufs, k);
    LookupOne(g, b, k);
    ApplyLookup(g, [b] + pbufs, 0, r, k);
    ApplySent(g, [b] + pbufs, 0, r, k);
  }

  lemma RxProjects(g: Protocol, pbufs: seq<Pbuf>, f: Frame, k: bv32)
    requires Distinct(g, pbufs)
    ensures Projects(g, pbufs, f, k, Rx(g, true, pbufs, f))
  {
    var i := Find(g, pbufs, f.id);
    if i < |pbufs| {
      BoundProjects(g, pbufs, i, f, k);
    } else if g.begins(f) {
      NewProjects(g, pbufs, f, k);
    } else {
      LookupNone(g, pbufs, g.key(f.id));
    }
  }

  lemma {:induction false} PacketsAppend(g: Protocol, x: seq<Sent>, y: seq<Sent>, k: bv32)
    ensures PacketsOf(g, x + y, k) == PacketsOf(g, x, k) + PacketsOf(g, y, k)
    decreases x
  {
    if x == [] {
      assert x + y == y;
    } else {
      assert (x + y)[1..] == x[1..] + y;
      PacketsAppend(g, x[1..], y, k);
    }
  }

  /** Interleaving does not matter: under each key, the packets handed on are those of the key's frames alone. */
  lemma {:induction false} Projection(g: Protocol, pbufs: seq<Pbuf>, fs: seq<Frame>, k: bv32)
    requires Distinct(g, pbufs)
    ensures var o := RxAll(g, pbufs, fs);
            Distinct(g, o.pbufs)
            && Single(Lookup(g, o.pbufs, k), PacketsOf(g, o.sent, k))
               == TrackAll(g, Lookup(g, pbufs, k), FramesOf(g, fs, k))
    decreases fs
  {
    if fs != [] {
      RxDistinct(g, true, pbufs, fs[0]);
      RxProjects(g, pbufs, fs[0], k);
      var o := Rx(g, true, pbufs, fs[0]);
      Projection(g, o.pbufs, fs[1..], k);
      PacketsAppend(g, o.sent, RxAll(g, o.pbufs, fs[1..]).sent, k);
      if g.key(fs[0].id) == k {
        assert ([fs[0]] + FramesOf(g, fs[1..], k))[1..] == FramesOf(g, fs[1..], k);
      }
    }
  }

  /** No packet is handed on under a key no frame had and no buffer was held for. */
  lemma {:induction false} NoStrangers(g: Protocol, pbufs: seq<Pbuf>, fs: seq<Frame>, keys: set<bv32>)
    requires forall i :: 0 <= i < |pbufs| ==> g.key(pbufs[i].cfpid) in keys
    requires forall i :: 0 <= i < |fs| ==> g.key(fs[i].id) in keys
    ensures forall s <- RxAll(g, pbufs, fs).sent :: g.key(s.cfpid) in keys
    decreases fs
  {
    if fs != [] {
      NoStrangers(g, Rx(g, true, pbufs, fs[0]).pbufs, fs[1..], keys);
    }
  }

  /** Without a buffer, frames that begin nothing are ignored. */
  lemma {:induction false} Ignored(g: Protocol, fs: seq<Frame>)
    requires forall i :: 0 <= i < |fs| ==> !g.begins(fs[i])
    ensures TrackAll(g, None, fs) == Single(None, [])
    decreases fs
  {
    if fs != [] {
      Ignored(g, fs[1..]);
    }
  }

  // ---------------------------------------------------------------- losses

  /** The frames that arrive. */
  function Arrived(fs: seq<Frame>, keep: seq<bool>): seq<Frame>
    requires |fs| == |keep|
    decreases fs
  {
    if fs == [] then []
    else if keep[0] then [fs[0]] + Arrived(fs[1..], keep[1..])
    else Arrived(fs[1..], keep[1..])
  }

  predicate AllArrived(keep: seq<bool>) { forall i :: 0 <= i < |keep| ==> keep[i] }

  lemma {:induction false} ArrivedWhole(fs: seq<Frame>, keep: seq<bool>)
    requires |fs| == |keep| && AllArrived(keep)
    ensures Arrived(fs, keep) == fs
    decreases fs
  {
    if fs != [] {
      ArrivedWhole(fs[1..], keep[1..]);
    }
  }

  lemma {:induction false} ArrivedFrom(fs: seq<Frame>, keep: seq<bool>, f: Frame)
    requires |fs| == |keep| && f in Arrived(fs, keep)
    ensures f in fs
    decreases fs
  {
    if fs != [] && !(keep[0] && f == fs[0]) {
      ArrivedFrom(fs[1..], keep[1..], f);
    }
  }
}
