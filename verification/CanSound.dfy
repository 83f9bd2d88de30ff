/** What a CAN interface hands on, whatever comes in on the bus: every packet is made of frames that belong together. */
module CanSound {
  import opened Base
  import opened CspId
  import opened CanPbuf
  import Can1
  import Can2

  // ---------------------------------------------------------------- either protocol

  /** What a reply says of the frames it answers: a buffer kept holds them, a packet handed on is made of them. */
  ghost predicate Says(held: (seq<Frame>, Part) -> bool, made: (seq<Frame>, Packet) -> bool, gs: seq<Frame>, r: Reply) {
    match r
    case Keep(part) => held(gs, part)
    case Drop => true
    case Deliver(packet) => made(gs, packet)
  }

  /** A frame that begins a packet makes a beginning; another one goes behind the frames its buffer holds. */
  ghost predicate Sound(g: Protocol, held: (seq<Frame>, Part) -> bool, made: (seq<Frame>, Packet) -> bool) {
    && (forall part: Part, f: Frame :: g.begins(f) ==> Says(held, made, [f], g.take(part, f)))
    && (forall gs: seq<Frame>, part: Part, f: Frame :: held(gs, part) && !g.begins(f) ==>
          Says(held, made, gs + [f], g.take(part, f)))
  }

  ghost predicate InARow(gs: seq<Frame>, fs: seq<Frame>) { exists i, k :: 0 <= i <= k <= |fs| && gs == fs[i..k] }

  lemma Behind(gs: seq<Frame>, x: seq<Frame>, y: seq<Frame>, fs: seq<Frame>)
    requires InARow(gs, y) && x + y == fs
    ensures InARow(gs, fs)
  {
    var i, k :| 0 <= i <= k <= |y| && gs == y[i..k];
    assert gs == fs[|x| + i..|x| + k];
  }

  lemma AtFront(gs: seq<Frame>, x: seq<Frame>)
    ensures InARow(gs, gs + x)
  {
    assert gs == (gs + x)[0..|gs|];
  }

  /** The frames of one identifier, `past` those a buffer holds: every packet is made of some of them in a row. */
  lemma {:induction false} Windows(g: Protocol, held: (seq<Frame>, Part) -> bool, made: (seq<Frame>, Packet) -> bool,
                                   past: seq<Frame>, cur: Option<Part>, fs: seq<Frame>, p: Packet)
    returns (gs: seq<Frame>)
    requires Sound(g, held, made) && p in TrackAll(g, cur, fs).sent && (cur.Some? ==> held(past, cur.value))
    ensures InARow(gs, past + fs) && made(gs, p)
    decreases fs
  {
    hide Sound, InARow;
    var f, rest, o := fs[0], fs[1..], Track(g, cur, fs[0]);
    var now, x := if g.begins(f) then [f] else past + [f], if g.begins(f) then past else [];
    assert x + (now + rest) == past + fs && past + [f] + rest == past + fs;
    if cur.Some? || g.begins(f) {
      TakenSays(g, held, made, past, if cur.Some? then cur.value else g.unset, f);
    }
    if p in o.sent {
      gs := now;
      AtFront(gs, rest);
      Behind(gs, x, now + rest, past + fs);
    } else if o.part.Some? {
      gs := Windows(g, held, made, now, o.part, rest, p);
      Behind(gs, x, now + rest, past + fs);
    } else {
      gs := Windows(g, held, made, [], None, rest, p);
      assert [] + rest == rest;
      Behind(gs, past + [f], rest, past + fs);
    }
  }

  lemma TakenSays(g: Protocol, held: (seq<Frame>, Part) -> bool, made: (seq<Frame>, Packet) -> bool, past: seq<Frame>,
                  part: Part, f: Frame)
    requires Sound(g, held, made) && (g.begins(f) || held(past, part))
    ensures Says(held, made, if g.begins(f) then [f] else past + [f], g.take(part, f))
  {
  }

  lemma {:induction false} SentUnder(g: Protocol, sent: seq<Sent>, s: Sent)
    requires s in sent
    ensures s.packet in PacketsOf(g, sent, g.key(s.cfpid))
    decreases sent
  {
    if s != sent[0] {
      SentUnder(g, sent[1..], s);
    }
  }

  /** From any bus: every packet handed on is made of frames in a row of its own identifier. */
  lemma BusSound(g: Protocol, held: (seq<Frame>, Part) -> bool, made: (seq<Frame>, Packet) -> bool, fs: seq<Frame>,
                 s: Sent) returns (gs: seq<Frame>)
    requires Sound(g, held, made) && s in RxAll(g, [], fs).sent
    ensures InARow(gs, FramesOf(g, fs, g.key(s.cfpid))) && made(gs, s.packet)
  {
    hide Sound;
    var k := g.key(s.cfpid);
    Projection(g, [], fs, k);
    SentUnder(g, RxAll(g, [], fs).sent, s);
    gs := Windows(g, held, made, [], None, FramesOf(g, fs, k), s.packet);
    assert [] + FramesOf(g, fs, k) == FramesOf(g, fs, k);
  }

  /** The bytes of frames in a row, without the first few. */
  function Bytes(gs: seq<Frame>, skip: nat): seq<bv8>
    decreases gs
  {
    if gs == [] then []
    else if |gs| == 1 then gs[0].data[Min(skip, |gs[0].data|)..]
    else Bytes(gs[..|gs| - 1], skip) + gs[|gs| - 1].data
  }

  lemma BytesNext(gs: seq<Frame>, f: Frame, skip: nat)
    requires gs != []
    ensures Bytes(gs + [f], skip) == Bytes(gs, skip) + f.data
  {
    assert (gs + [f])[..|gs|] == gs;
  }

  // ---------------------------------------------------------------- CFP 1

  /** The length a first frame announces. */
  function Announced(f: Frame): nat
    requires |f.data| >= 6
  {
    Can1.FromBe16(f.data[4], f.data[5])
  }

  /** Frames that begin a packet within the MTU: one that begins it, with a header and a length, then others whose
      `remain` counts down, and not yet too many bytes. */
  predicate Begun1(mtu: nat, gs: seq<Frame>) {
    && gs != [] && !Can1.IsMore(gs[0].id) && |gs[0].data| >= 6 && Announced(gs[0]) <= mtu
    && (forall i :: 1 <= i < |gs| ==> Can1.IsMore(gs[i].id) && Can1.Remain(gs[i].id) == Can1.Remain(gs[0].id) - i)
    && |Bytes(gs, 6)| <= Announced(gs[0])
  }

  function Head1(f: Frame): Id
    requires |f.data| >= 4
  {
    Unpack1(FromBytes(f.data[..4]))
  }

  predicate Held1(mtu: nat, gs: seq<Frame>, part: Part) {
    && Begun1(mtu, gs) && part.id == Head1(gs[0]) && part.length == Announced(gs[0]) && part.bytes == Bytes(gs, 6)
    && part.remain == Can1.Remain(gs[0].id) + 1 - |gs|
  }

  /** A packet made of frames: their bytes are all that was announced, and the header is that of the first. */
  predicate Made1(mtu: nat, gs: seq<Frame>, p: Packet) {
    Begun1(mtu, gs) && |p.data| == Announced(gs[0]) && p == Packet(Head1(gs[0]), Bytes(gs, 6))
  }

  function Holds1(mtu: nat): (seq<Frame>, Part) -> bool { (gs, part) => Held1(mtu, gs, part) }

  function Makes1(mtu: nat): (seq<Frame>, Packet) -> bool { (gs, p) => Made1(mtu, gs, p) }

  lemma Begins1(mtu: nat, part: Part, f: Frame)
    requires !Can1.IsMore(f.id)
    ensures Says(Holds1(mtu), Makes1(mtu), [f], Can1.Take(mtu, part, f))
  {
    hide Can1.IsMore, Can1.Remain, Unpack1, FromBytes, Can1.FromBe16;
    if |f.data| >= 6 {
      assert Bytes([f], 6) == f.data[6..] && [] + f.data[6..] == f.data[6..];
    }
  }

  lemma Continues1(mtu: nat, gs: seq<Frame>, part: Part, f: Frame)
    requires Held1(mtu, gs, part) && Can1.IsMore(f.id)
    ensures Says(Holds1(mtu), Makes1(mtu), gs + [f], Can1.Take(mtu, part, f))
  {
    hide Can1.IsMore, Can1.Remain, Head1, Can1.FromBe16, Bytes;
    BytesNext(gs, f, 6);
  }

  lemma Sound1(mtu: nat, unset: Part)
    ensures Sound(Can1.Cfp1(mtu, unset), Holds1(mtu), Makes1(mtu))
  {
    hide Can1.IsMore, Can1.Take, Held1, Made1, Says;
    var g := Can1.Cfp1(mtu, unset);
    forall part: Part, f: Frame | g.begins(f) ensures Says(Holds1(mtu), Makes1(mtu), [f], g.take(part, f)) {
      Begins1(mtu, part, f);
    }
    forall gs: seq<Frame>, part: Part, f: Frame | Holds1(mtu)(gs, part) && !g.begins(f)
      ensures Says(Holds1(mtu), Makes1(mtu), gs + [f], g.take(part, f))
    {
      Continues1(mtu, gs, part, f);
    }
  }

  /** CFP 1, whatever comes in: every packet handed on is made of frames in a row of its masked identifier, the first
      with its header and length, the others counting down, with exactly the bytes announced, within the MTU. */
  lemma HandedOn1(mtu: nat, unset: Part, fs: seq<Frame>, s: Sent) returns (gs: seq<Frame>)
    requires s in RxAll(Can1.Cfp1(mtu, unset), [], fs).sent
    ensures InARow(gs, FramesOf(Can1.Cfp1(mtu, unset), fs, Can1.Key(s.cfpid))) && Made1(mtu, gs, s.packet)
  {
    hide Sound, Made1, Can1.Key, InARow;
    Sound1(mtu, unset);
    gs := BusSound(Can1.Cfp1(mtu, unset), Holds1(mtu), Makes1(mtu), fs, s);
  }

  // ---------------------------------------------------------------- CFP 2

  /** The frame as it is put together again: two bytes out of the identifier, then the data. */
  function Whole2(gs: seq<Frame>): seq<bv8>
    requires gs != []
  {
    Can2.FirstTwo(gs[0].id) + Bytes(gs, 0)
  }

  /** Frames that begin a packet within the MTU: one that begins it, with the rest of the header, then others numbered
      one by one modulo eight, none of them the end so far. */
  predicate Begun2(mtu: nat, gs: seq<Frame>) {
    && gs != [] && Can2.IsBegin(gs[0].id) && |gs[0].data| >= 4 && |Whole2(gs)| <= mtu
    && (forall i :: 1 <= i < |gs| ==> !Can2.IsBegin(gs[i].id) && Can2.Counter(gs[i].id) == i % 8)
    && (forall i :: 0 <= i < |gs| - 1 ==> !Can2.IsEnd(gs[i].id))
  }

  predicate Held2(mtu: nat, gs: seq<Frame>, part: Part) {
    && Begun2(mtu, gs) && !Can2.IsEnd(gs[|gs| - 1].id) && part.bytes == Whole2(gs) && part.counter == |gs| % 8
  }

  /** A packet made of frames: the last is the end, and the packet is what they carry, a broadcast destination
      rewritten. */
  predicate Made2(mtu: nat, addr: bv16, gs: seq<Frame>, p: Packet) {
    && Begun2(mtu, gs) && Can2.IsEnd(gs[|gs| - 1].id)
    && Strip(V2, Whole2(gs)).Some? && p == Can2.Received(addr, Strip(V2, Whole2(gs)).value)
  }

  function Holds2(mtu: nat): (seq<Frame>, Part) -> bool { (gs, part) => Held2(mtu, gs, part) }

  function Makes2(mtu: nat, addr: bv16): (seq<Frame>, Packet) -> bool { (gs, p) => Made2(mtu, addr, gs, p) }

  /** The end of the receiver. */
  lemma Appends2(mtu: nat, addr: bv16, gs: seq<Frame>, part: Part, id: bv32, data: seq<bv8>)
    requires gs != [] && part.bytes + data == Whole2(gs) && part.counter == |gs| % 8 && gs[|gs| - 1].id == id
    requires |Whole2(gs)| <= mtu ==> Begun2(mtu, gs)
    requires |part.bytes| >= 6
    ensures Says(Holds2(mtu), Makes2(mtu, addr), gs, Can2.Append(mtu, addr, part, id, data))
  {
    hide Can2.IsEnd, Begun2, Whole2, Can2.Received, Unpack2, DownTo48, FromBytes6;
  }

  lemma Begins2(mtu: nat, addr: bv16, part: Part, f: Frame)
    requires Can2.IsBegin(f.id)
    ensures Says(Holds2(mtu), Makes2(mtu, addr), [f], Can2.Take(mtu, addr, part, f))
  {
    hide Can2.IsBegin, Can2.IsEnd, Can2.Counter, Can2.Append, Can2.FirstTwo, Says;
    if |f.data| >= 4 {
      var q := part.(bytes := Can2.FirstTwo(f.id) + f.data[..4], length := 0, counter := 1);
      assert Bytes([f], 0) == f.data && f.data == f.data[..4] + f.data[4..];
      assert q.bytes + f.data[4..] == Whole2([f]);
      Appends2(mtu, addr, [f], q, f.id, f.data[4..]);
    } else {
      DropSays(Holds2(mtu), Makes2(mtu, addr), [f]);
    }
  }

  lemma DropSays(held: (seq<Frame>, Part) -> bool, made: (seq<Frame>, Packet) -> bool, gs: seq<Frame>)
    ensures Says(held, made, gs, Drop)
  {
  }

  lemma {:induction false} AtLeastFour(gs: seq<Frame>)
    requires gs != [] && |gs[0].data| >= 4
    ensures |Bytes(gs, 0)| >= 4
    decreases gs
  {
    if |gs| > 1 {
      AtLeastFour(gs[..|gs| - 1]);
    }
  }

  lemma Continues2(mtu: nat, addr: bv16, gs: seq<Frame>, part: Part, f: Frame)
    requires Held2(mtu, gs, part) && !Can2.IsBegin(f.id)
    ensures Says(Holds2(mtu), Makes2(mtu, addr), gs + [f], Can2.Take(mtu, addr, part, f))
  {
    hide Can2.IsBegin, Can2.IsEnd, Can2.Counter, Can2.Append, Can2.FirstTwo, Says, Bytes;
    if part.counter == Can2.Counter(f.id) {
      BytesNext(gs, f, 0);
      AtLeastFour(gs);
      Can2.CounterNext(|gs|);
      assert part.bytes + f.data == Whole2(gs + [f]);
      Appends2(mtu, addr, gs + [f], part.(counter := (part.counter + 1) % 8), f.id, f.data);
    } else {
      DropSays(Holds2(mtu), Makes2(mtu, addr), gs + [f]);
    }
  }

  lemma Sound2(mtu: nat, addr: bv16, unset: Part)
    ensures Sound(Can2.Cfp2(mtu, addr, unset), Holds2(mtu), Makes2(mtu, addr))
  {
    hide Can2.IsBegin, Can2.Take, Held2, Made2, Says;
    var g := Can2.Cfp2(mtu, addr, unset);
    forall part: Part, f: Frame | g.begins(f) ensures Says(Holds2(mtu), Makes2(mtu, addr), [f], g.take(part, f)) {
      Begins2(mtu, addr, part, f);
    }
    forall gs: seq<Frame>, part: Part, f: Frame | Holds2(mtu)(gs, part) && !g.begins(f)
      ensures Says(Holds2(mtu), Makes2(mtu, addr), gs + [f], g.take(part, f))
    {
      Continues2(mtu, addr, gs, part, f);
    }
  }

  /** CFP 2, whatever comes in: every packet handed on is made of frames in a row of its masked identifier, the first
      with the header, the others numbered one by one modulo eight, the last and no other the end, within the MTU. */
  lemma HandedOn2(mtu: nat, addr: bv16, unset: Part, fs: seq<Frame>, s: Sent) returns (gs: seq<Frame>)
    requires s in RxAll(Can2.Cfp2(mtu, addr, unset), [], fs).sent
    ensures InARow(gs, FramesOf(Can2.Cfp2(mtu, addr, unset), fs, Can2.Key(s.cfpid))) && Made2(mtu, addr, gs, s.packet)
  {
    hide Sound, Made2, Can2.Key, InARow;
    Sound2(mtu, addr, unset);
    gs := BusSound(Can2.Cfp2(mtu, addr, unset), Holds2(mtu), Makes2(mtu, addr), fs, s);
  }
}
