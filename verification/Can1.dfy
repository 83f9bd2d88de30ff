/** CAN fragmentation protocol 1: csp_can1_tx and csp_can1_rx. */
module Can1 {
  import opened Base
  import opened CspId
  import opened CanPbuf

  // ---------------------------------------------------------------- the identifier

  /** CFP_ID_CONN_MASK: source, destination and packet identification. */
  function Key(id: bv32): bv32 { id & 0x1FF803FF }

  predicate IsMore(id: bv32) { (id >> 18) & 1 == 1 }

  function RemainByte(id: bv32): bv8 { ((id >> 10) & 0xFF) as bv8 }

  function Remain(id: bv32): nat { Value(RemainByte(id)) }

  /** The CFP_MAKE macros: five bits each of source and destination, type, eight bits of `remain`, ten of `ident`. */
  function Fields(src: bv16, dest: bv8, ident: bv32): bv32 {
    (((src & 0x1F) as bv32) << 24) | (((dest & 0x1F) as bv32) << 19) | (ident & 0x3FF)
  }

  function TypeBit(more: bool): bv32 { if more then 0x40000 else 0 }

  function RemainField(x: bv8): bv32 { (x as bv32) << 10 }

  /** Type and `remain`, which the connection mask leaves out. */
  function Bits(more: bool, x: bv8): bv32 { TypeBit(more) | RemainField(x) }

  function CanId(src: bv16, dest: bv8, ident: bv32, more: bool, remain: nat): bv32 {
    With(Fields(src, dest, ident), Bits(more, Octet(remain % 256)))
  }

  predicate InPlace(w: bv32) { w & 0x1FF803FF == w }

  predicate Between(b: bv32) { b & 0x7FC00 == b }

  lemma FieldsInPlace(src: bv16, dest: bv8, ident: bv32)
    ensures InPlace(Fields(src, dest, ident))
  {
  }

  lemma BitsBetween(more: bool, x: bv8)
    ensures Between(Bits(more, x))
  {
  }

  lemma KeyOf(w: bv32, b: bv32)
    requires InPlace(w) && Between(b)
    ensures Key(With(w, b)) == w
  {
  }

  lemma TypeOf(w: bv32, more: bool, x: bv8)
    requires InPlace(w)
    ensures IsMore(With(w, Bits(more, x))) <==> more
  {
  }

  lemma RemainOf(w: bv32, more: bool, x: bv8)
    requires InPlace(w)
    ensures RemainByte(With(w, Bits(more, x))) == x
  {
  }

  /** What the receiver reads out of an identifier is what the sender put in, `remain` modulo 256. */
  lemma FieldsSurvive(src: bv16, dest: bv8, ident: bv32, more: bool, remain: nat)
    ensures var id := CanId(src, dest, ident, more, remain);
            Key(id) == Fields(src, dest, ident) && (IsMore(id) <==> more) && Remain(id) == remain % 256
  {
    hide Key, Fields, IsMore, RemainByte, Bits, InPlace, Between, With, Octet, Value;
    var w, x := Fields(src, dest, ident), Octet(remain % 256);
    FieldsInPlace(src, dest, ident);
    BitsBetween(more, x);
    KeyOf(w, Bits(more, x));
    TypeOf(w, more, x);
    RemainOf(w, more, x);
  }

  // ---------------------------------------------------------------- transmit

  /** htobe16 and be16toh. */
  function ToBe16(n: nat): (s: seq<bv8>)
    requires n < 0x10000
    ensures |s| == 2
  {
    [Octet(n / 256), Octet(n % 256)]
  }

  function FromBe16(a: bv8, b: bv8): nat { Value(a) * 256 + Value(b) }

  lemma LengthSurvives(n: nat)
    requires n < 0x10000
    ensures FromBe16(ToBe16(n)[0], ToBe16(n)[1]) == n
  {
    hide Octet, Value;
  }

  /** A packet to send: the link-layer destination and the identification csp_can1_tx takes from its counter. */
  datatype Job = Job(packet: Packet, dest: bv8, ident: bv32)

  function FrameId(j: Job, more: bool, remain: nat): bv32 {
    CanId(j.packet.id.src, j.dest, j.ident, more, remain)
  }

  function BeginFrame(j: Job): Frame
    requires |j.packet.data| < 0x10000
  {
    var p := j.packet;
    Frame(FrameId(j, false, (|p.data| + 5) / 8),
          Header(V1, p.id) + ToBe16(|p.data|) + p.data[..Min(2, |p.data|)])
  }

  /** How many frames carry what is left from an offset. */
  function Left(j: Job, tx: nat): nat
    requires tx <= |j.packet.data|
  {
    (|j.packet.data| - tx + 7) / 8
  }

  function MoreFrame(j: Job, tx: nat): Frame
    requires tx < |j.packet.data|
  {
    var n := Min(8, |j.packet.data| - tx);
    Frame(FrameId(j, true, Left(j, tx + n)), j.packet.data[tx..tx + n])
  }

  /** The frames from an offset on. */
  function Tail(j: Job, tx: nat): seq<Frame>
    requires tx <= |j.packet.data|
    decreases |j.packet.data| - tx
  {
    if tx == |j.packet.data| then [] else [MoreFrame(j, tx)] + Tail(j, tx + Min(8, |j.packet.data| - tx))
  }

  /** All frames of a packet. */
  function Frames(j: Job): seq<Frame>
    requires |j.packet.data| < 0x10000
  {
    [BeginFrame(j)] + Tail(j, Min(2, |j.packet.data|))
  }

  // ---------------------------------------------------------------- receive

  function TakeMore(part: Part, id: bv32, data: seq<bv8>): Reply {
    if Remain(id) != part.remain - 1 then Drop
    else if |part.bytes| + |data| > part.length then Drop
    else
      var q := part.(remain := part.remain - 1, bytes := part.bytes + data);
      if |q.bytes| != q.length then Keep(q) else Deliver(Packet(q.id, q.bytes))
  }

  /** csp_can1_rx once a buffer is bound. */
  function Take(mtu: nat, part: Part, f: Frame): Reply {
    if IsMore(f.id) then TakeMore(part, f.id, f.data)
    else if |f.data| < 6 then Drop
    else
      var length := FromBe16(f.data[4], f.data[5]);
      if length > mtu then Drop
      else
        var q := part.(id := Unpack1(FromBytes(f.data[..4])), length := length, bytes := [],
                       remain := Remain(f.id) + 1);
        TakeMore(q, f.id, f.data[6..])
  }

  function Cfp1(mtu: nat, unset: Part): Protocol {
    Protocol(Key, (f: Frame) => !IsMore(f.id), (part: Part, f: Frame) => Take(mtu, part, f), unset)
  }

  // ---------------------------------------------------------------- one packet

  /** The packets CFP 1 can carry to a receiver with this MTU. */
  predicate Carries(mtu: nat, p: Packet) { |p.data| <= mtu && |p.data| <= 2042 }

  /** A buffer that holds the packet up to an offset. */
  predicate Holds(j: Job, tx: nat, part: Part)
    requires tx <= |j.packet.data|
  {
    && part.id == j.packet.id && part.length == |j.packet.data| && part.bytes == j.packet.data[..tx]
    && part.remain == Left(j, tx) % 256
  }

  lemma BeginTaken(mtu: nat, j: Job, part: Part)
    requires InRange(V1, j.packet.id) && |j.packet.data| < 0x10000
    ensures var p, q := j.packet, BeginFrame(j);
            !IsMore(q.id) && Key(q.id) == Fields(p.id.src, j.dest, j.ident)
            && (|p.data| > mtu ==> Take(mtu, part, q) == Drop)
            && (|p.data| <= 2 && |p.data| <= mtu ==> Take(mtu, part, q) == Deliver(p))
            && (2 < |p.data| <= mtu ==> Take(mtu, part, q).Keep? && Holds(j, 2, Take(mtu, part, q).part))
  {
    hide Key, Fields, IsMore, Remain, CanId, Unpack1, Header, FromBytes, FromBe16, ToBe16;
    var p, q := j.packet, BeginFrame(j);
    FieldsSurvive(p.id.src, j.dest, j.ident, false, (|p.data| + 5) / 8);
    HeaderInverts(V1, p.id);
    LengthSurvives(|p.data|);
    var h, l, d := Header(V1, p.id), ToBe16(|p.data|), p.data[..Min(2, |p.data|)];
    assert q.data == h + l + d;
    assert q.data[..4] == h && q.data[4] == l[0] && q.data[5] == l[1] && q.data[6..] == d;
    assert [] + d == d;
  }

  lemma MoreTaken(mtu: nat, j: Job, tx: nat, part: Part)
    requires tx < |j.packet.data| && Holds(j, tx, part)
    ensures var f, next := MoreFrame(j, tx), tx + Min(8, |j.packet.data| - tx);
            IsMore(f.id) && Key(f.id) == Fields(j.packet.id.src, j.dest, j.ident)
            && (part.remain == 0 ==> Take(mtu, part, f) == Drop)
            && (part.remain > 0 && next < |j.packet.data| ==>
                  Take(mtu, part, f).Keep? && Holds(j, next, Take(mtu, part, f).part))
            && (part.remain > 0 && next == |j.packet.data| ==> Take(mtu, part, f) == Deliver(j.packet))
  {
    hide Key, Fields, IsMore, Remain, CanId;
    var n := Min(8, |j.packet.data| - tx);
    assert Left(j, tx) == Left(j, tx + n) + 1;
    FieldsSurvive(j.packet.id.src, j.dest, j.ident, true, Left(j, tx + n));
    assert j.packet.data[..tx] + j.packet.data[tx..tx + n] == j.packet.data[..tx + n];
    assert j.packet.data[..|j.packet.data|] == j.packet.data;
  }

  /** A frame that is not the next one is refused. */
  lemma MoreRefused(mtu: nat, j: Job, tx: nat, part: Part)
    requires tx < |j.packet.data| && Left(j, tx) < part.remain && Left(j, tx) <= 256
    ensures IsMore(MoreFrame(j, tx).id) && Take(mtu, part, MoreFrame(j, tx)) == Drop
  {
    hide Key, Fields, IsMore, Remain, CanId;
    var n := Min(8, |j.packet.data| - tx);
    assert Left(j, tx) == Left(j, tx + n) + 1;
    FieldsSurvive(j.packet.id.src, j.dest, j.ident, true, Left(j, tx + n));
  }

  lemma {:induction false} TailFrames(j: Job, tx: nat)
    requires tx <= |j.packet.data|
    ensures forall f <- Tail(j, tx) :: IsMore(f.id) && Key(f.id) == Fields(j.packet.id.src, j.dest, j.ident)
    decreases |j.packet.data| - tx
  {
    if tx < |j.packet.data| {
      hide Key, Fields, IsMore, Remain, CanId;
      var n := Min(8, |j.packet.data| - tx);
      FieldsSurvive(j.packet.id.src, j.dest, j.ident, true, Left(j, tx + n));
      TailFrames(j, tx + n);
    }
  }

  lemma {:induction false} TailDelivers(mtu: nat, unset: Part, j: Job, tx: nat, part: Part)
    requires tx < |j.packet.data| && Holds(j, tx, part) && Left(j, tx) < 256
    ensures TrackAll(Cfp1(mtu, unset), Some(part), Tail(j, tx)) == Single(None, [j.packet])
    decreases |j.packet.data| - tx
  {
    hide Key, Fields, IsMore, Take, CanId;
    var n := Min(8, |j.packet.data| - tx);
    MoreTaken(mtu, j, tx, part);
    var f := MoreFrame(j, tx);
    assert Tail(j, tx)[0] == f && Tail(j, tx)[1..] == Tail(j, tx + n);
    if tx + n < |j.packet.data| {
      TailDelivers(mtu, unset, j, tx + n, Take(mtu, part, f).part);
    } else {
      assert Tail(j, tx + n) == [];
    }
  }

  /** A whole packet is delivered, whatever was left of an earlier one under its key. */
  lemma FramesDeliver(mtu: nat, unset: Part, j: Job, cur: Option<Part>)
    requires InRange(V1, j.packet.id) && Carries(mtu, j.packet)
    ensures TrackAll(Cfp1(mtu, unset), cur, Frames(j)) == Single(None, [j.packet])
  {
    hide Key, Fields, IsMore, Take, CanId;
    var part := if cur.Some? then cur.value else unset;
    BeginTaken(mtu, j, part);
    var tx := Min(2, |j.packet.data|);
    assert Frames(j)[0] == BeginFrame(j) && Frames(j)[1..] == Tail(j, tx);
    if tx < |j.packet.data| {
      TailDelivers(mtu, unset, j, tx, Take(mtu, part, BeginFrame(j)).part);
    } else {
      assert Tail(j, tx) == [];
    }
  }

  // ---------------------------------------------------------------- too long a packet

  lemma MoreIgnored(mtu: nat, unset: Part, j: Job, tx: nat)
    requires tx <= |j.packet.data|
    ensures TrackAll(Cfp1(mtu, unset), None, Tail(j, tx)) == Single(None, [])
  {
    hide Key, Fields, IsMore, Take, CanId;
    TailFrames(j, tx);
    Ignored(Cfp1(mtu, unset), Tail(j, tx));
  }

  /** With 256 frames or more to come the eight-bit count wraps and the receiver gives up before the end. */
  lemma {:induction false} WrapLoses(mtu: nat, unset: Part, j: Job, tx: nat, part: Part)
    requires tx < |j.packet.data| && Holds(j, tx, part) && Left(j, tx) >= 256
    ensures TrackAll(Cfp1(mtu, unset), Some(part), Tail(j, tx)) == Single(None, [])
    decreases |j.packet.data| - tx
  {
    hide Key, Fields, IsMore, Take, CanId;
    var n := Min(8, |j.packet.data| - tx);
    MoreTaken(mtu, j, tx, part);
    var f := MoreFrame(j, tx);
    assert Tail(j, tx)[0] == f && Tail(j, tx)[1..] == Tail(j, tx + n);
    assert Left(j, tx) == Left(j, tx + n) + 1;
    if part.remain == 0 {
      MoreIgnored(mtu, unset, j, tx + n);
    } else {
      WrapLoses(mtu, unset, j, tx + n, Take(mtu, part, f).part);
    }
  }

  /** On an idle bus CFP 1 delivers a packet exactly if its length is within the MTU and within 2042 bytes. */
  lemma DeliveredExactlyIfCarried(mtu: nat, unset: Part, j: Job)
    requires InRange(V1, j.packet.id) && |j.packet.data| < 0x10000
    ensures TrackAll(Cfp1(mtu, unset), None, Frames(j)).sent == if Carries(mtu, j.packet) then [j.packet] else []
  {
    if Carries(mtu, j.packet) {
      FramesDeliver(mtu, unset, j, None);
    } else {
      hide Key, Fields, IsMore, Take, CanId;
      BeginTaken(mtu, j, unset);
      var tx := Min(2, |j.packet.data|);
      assert Frames(j)[0] == BeginFrame(j) && Frames(j)[1..] == Tail(j, tx);
      if |j.packet.data| > mtu {
        MoreIgnored(mtu, unset, j, tx);
      } else {
        WrapLoses(mtu, unset, j, 2, Take(mtu, unset, BeginFrame(j)).part);
      }
    }
  }

  // ---------------------------------------------------------------- losses

  lemma ArrivedIgnored(mtu: nat, unset: Part, j: Job, tx: nat, keep: seq<bool>)
    requires tx <= |j.packet.data| && |keep| == |Tail(j, tx)|
    ensures TrackAll(Cfp1(mtu, unset), None, Arrived(Tail(j, tx), keep)) == Single(None, [])
  {
    hide Key, Fields, IsMore, Take, CanId;
    TailFrames(j, tx);
    var fs := Arrived(Tail(j, tx), keep);
    forall i | 0 <= i < |fs| ensures IsMore(fs[i].id) {
      ArrivedFrom(Tail(j, tx), keep, fs[i]);
    }
    Ignored(Cfp1(mtu, unset), fs);
  }

  /** After a gap nothing is delivered: the first frame to arrive is refused and the others are ignored. */
  lemma {:induction false} GapLoses(mtu: nat, unset: Part, j: Job, tx: nat, part: Part, keep: seq<bool>)
    requires tx <= |j.packet.data| && Left(j, tx) < part.remain && Left(j, tx) < 256 && |keep| == |Tail(j, tx)|
    ensures TrackAll(Cfp1(mtu, unset), Some(part), Arrived(Tail(j, tx), keep)).sent == []
    decreases |j.packet.data| - tx
  {
    hide Key, Fields, IsMore, Take, CanId;
    if tx < |j.packet.data| {
      var n := Min(8, |j.packet.data| - tx);
      var f, rest := MoreFrame(j, tx), Arrived(Tail(j, tx + n), keep[1..]);
      assert Tail(j, tx)[0] == f && Tail(j, tx)[1..] == Tail(j, tx + n);
      if keep[0] {
        assert Arrived(Tail(j, tx), keep)[0] == f && Arrived(Tail(j, tx), keep)[1..] == rest;
        MoreRefused(mtu, j, tx, part);
        ArrivedIgnored(mtu, unset, j, tx + n, keep[1..]);
      } else {
        GapLoses(mtu, unset, j, tx + n, part, keep[1..]);
      }
    }
  }

  lemma {:induction false} TailAllOrNothing(mtu: nat, unset: Part, j: Job, tx: nat, part: Part, keep: seq<bool>)
    requires tx < |j.packet.data| && Holds(j, tx, part) && Left(j, tx) < 256 && |keep| == |Tail(j, tx)|
    ensures TrackAll(Cfp1(mtu, unset), Some(part), Arrived(Tail(j, tx), keep)).sent
         == if AllArrived(keep) then [j.packet] else []
    decreases |j.packet.data| - tx
  {
    hide Key, Fields, IsMore, Take, CanId;
    var n := Min(8, |j.packet.data| - tx);
    var f, rest := MoreFrame(j, tx), Arrived(Tail(j, tx + n), keep[1..]);
    assert Tail(j, tx)[0] == f && Tail(j, tx)[1..] == Tail(j, tx + n);
    assert AllArrived(keep) <==> keep[0] && AllArrived(keep[1..]);
    assert Left(j, tx) == Left(j, tx + n) + 1;
    if keep[0] {
      MoreTaken(mtu, j, tx, part);
      assert Arrived(Tail(j, tx), keep)[0] == f && Arrived(Tail(j, tx), keep)[1..] == rest;
      if tx + n < |j.packet.data| {
        TailAllOrNothing(mtu, unset, j, tx + n, Take(mtu, part, f).part, keep[1..]);
      } else {
        assert rest == [] && keep[1..] == [];
      }
    } else {
      GapLoses(mtu, unset, j, tx + n, part, keep[1..]);
    }
  }

  /** All or nothing: of a packet none of whose frames was seen before, whatever frames arrive in order, it is
      delivered if and only if all did, and nothing else is. */
  lemma AllOrNothing(mtu: nat, unset: Part, j: Job, keep: seq<bool>)
    requires InRange(V1, j.packet.id) && Carries(mtu, j.packet) && |keep| == |Frames(j)|
    ensures TrackAll(Cfp1(mtu, unset), None, Arrived(Frames(j), keep)).sent
         == if AllArrived(keep) then [j.packet] else []
  {
    hide Key, Fields, IsMore, Take, CanId;
    var tx := Min(2, |j.packet.data|);
    var f, rest := BeginFrame(j), Arrived(Tail(j, tx), keep[1..]);
    assert Frames(j)[0] == f && Frames(j)[1..] == Tail(j, tx);
    assert AllArrived(keep) <==> keep[0] && AllArrived(keep[1..]);
    if keep[0] {
      BeginTaken(mtu, j, unset);
      assert Arrived(Frames(j), keep)[0] == f && Arrived(Frames(j), keep)[1..] == rest;
      if tx < |j.packet.data| {
        TailAllOrNothing(mtu, unset, j, tx, Take(mtu, unset, f).part, keep[1..]);
      } else {
        assert rest == [] && keep[1..] == [];
      }
    } else {
      ArrivedIgnored(mtu, unset, j, tx, keep[1..]);
    }
  }

  // ---------------------------------------------------------------- many packets

  /** Packets under way at once, by the identifier the connection mask leaves. */
  predicate Jobs(mtu: nat, jobs: map<bv32, Job>) {
    forall k <- jobs ::
      var p := jobs[k].packet;
      InRange(V1, p.id) && Carries(mtu, p) && Fields(p.id.src, jobs[k].dest, jobs[k].ident) == k
  }

  /** CFP 1 round trip: in any interleaving of the frames of packets with different masked identifiers, and whatever
      the receiver was left with before, every packet is delivered once, with its header and data. */
  lemma RoundTrip(mtu: nat, unset: Part, pbufs: seq<Pbuf>, jobs: map<bv32, Job>, fs: seq<Frame>)
    requires Distinct(Cfp1(mtu, unset), pbufs) && Jobs(mtu, jobs)
    requires forall k <- jobs :: FramesOf(Cfp1(mtu, unset), fs, k) == Frames(jobs[k])
    ensures forall k <- jobs ::
              PacketsOf(Cfp1(mtu, unset), RxAll(Cfp1(mtu, unset), pbufs, fs).sent, k) == [jobs[k].packet]
  {
    hide Key, Fields, IsMore, Take, CanId, Frames;
    var g := Cfp1(mtu, unset);
    forall k | k in jobs ensures PacketsOf(g, RxAll(g, pbufs, fs).sent, k) == [jobs[k].packet] {
      Projection(g, pbufs, fs, k);
      FramesDeliver(mtu, unset, jobs[k], Lookup(g, pbufs, k));
    }
  }

  /** The same with losses, from an idle receiver: the packets delivered are those of which every frame arrived. */
  lemma LossyInterleaving(mtu: nat, unset: Part, jobs: map<bv32, Job>, keep: map<bv32, seq<bool>>, fs: seq<Frame>)
    requires Jobs(mtu, jobs) && keep.Keys == jobs.Keys
    requires forall f <- fs :: Key(f.id) in jobs
    requires forall k <- jobs ::
               |keep[k]| == |Frames(jobs[k])|
               && FramesOf(Cfp1(mtu, unset), fs, k) == Arrived(Frames(jobs[k]), keep[k])
    ensures forall k <- jobs ::
              PacketsOf(Cfp1(mtu, unset), RxAll(Cfp1(mtu, unset), [], fs).sent, k)
              == if AllArrived(keep[k]) then [jobs[k].packet] else []
    ensures forall s <- RxAll(Cfp1(mtu, unset), [], fs).sent :: Key(s.cfpid) in jobs
  {
    hide Key, Fields, IsMore, Take, CanId, Frames;
    var g := Cfp1(mtu, unset);
    forall k | k in jobs
      ensures PacketsOf(g, RxAll(g, [], fs).sent, k) == if AllArrived(keep[k]) then [jobs[k].packet] else []
    {
      Projection(g, [], fs, k);
      AllOrNothing(mtu, unset, jobs[k], keep[k]);
    }
    NoStrangers(g, [], fs, jobs.Keys);
  }

  // ---------------------------------------------------------------- the code

  /** csp_can1_tx past its loopback test: the frames put on the bus. The driver takes `room` frames before it
      refuses one. */
  method Tx(j: Job, room: nat) returns (bus: seq<Frame>, ok: bool)
    requires |j.packet.data| < 0x10000
    ensures ok <==> |Frames(j)| <= room
    ensures bus == Frames(j)[..Min(room, |Frames(j)|)]
  {
    hide FrameId, ToBe16;
    bus, ok := [], false;
    var p := j.packet;
    var data_bytes := if |p.data| <= 2 then |p.data| else 2;
    var first := Frame(FrameId(j, false, (|p.data| + 6 - 1) / 8),
                       Header(V1, p.id) + ToBe16(|p.data|) + p.data[..data_bytes]);
    var tx_count := data_bytes;
    if room == 0 {
      return;
    }
    bus := [first];
    while tx_count < |p.data|
      invariant tx_count <= |p.data| && |bus| <= room
      invariant Frames(j) == bus + Tail(j, tx_count)
    {
      data_bytes := if |p.data| - tx_count >= 8 then 8 else |p.data| - tx_count;
      var f := Frame(FrameId(j, true, (|p.data| - tx_count - data_bytes + 8 - 1) / 8),
                     p.data[tx_count..tx_count + data_bytes]);
      assert f == MoreFrame(j, tx_count);
      if |bus| == room {
        return;
      }
      bus := bus + [f];
      tx_count := tx_count + data_bytes;
    }
    ok := true;
  }
}
