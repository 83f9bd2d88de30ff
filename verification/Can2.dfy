/** CAN fragmentation protocol 2: csp_can2_tx and csp_can2_rx. */
module Can2 {
  import opened Base
  import opened CspId
  import opened CanPbuf

  // ---------------------------------------------------------------- the identifier

  /** CFP2_ID_CONN_MASK: priority, destination, sender and sender count. */
  function Key(id: bv32): bv32 { id & 0x1FFFEFE0 }

  predicate IsBegin(id: bv32) { id & 2 != 0 }

  predicate IsEnd(id: bv32) { id & 1 != 0 }

  function CounterBits(id: bv32): bv8 { ((id >> 2) & 7) as bv8 }

  function Counter(id: bv32): nat { Value(CounterBits(id)) }

  /** The mandatory fields: priority, destination, the low five bits of the sender, two bits of sender count. */
  function Fields(pri: bv8, dst: bv16, addr: bv16, count: bv32): bv32 {
    (((pri & 3) as bv32) << 27) | (((dst & 0x3FFF) as bv32) << 13) | (((addr & 0x1F) as bv32) << 7) | ((count & 3) << 5)
  }

  function BeginBit(b: bool): bv32 { if b then 2 else 0 }

  function EndBit(b: bool): bv32 { if b then 1 else 0 }

  function LastThree(x: bv8): bv8 { x & 7 }

  function CounterField(x: bv8): bv32 { (LastThree(x) as bv32) << 2 }

  function Bits(begin: bool, end: bool, x: bv8): bv32 { BeginBit(begin) | EndBit(end) | CounterField(x) }

  function CanId(fields: bv32, begin: bool, end: bool, fragment: nat): bv32 {
    With(fields, Bits(begin, end, Octet(fragment % 8)))
  }

  predicate InPlace(w: bv32) { w & 0x1FFFEFE0 == w }

  predicate LowBits(b: bv32) { b & 0x1F == b }

  lemma FieldsInPlace(pri: bv8, dst: bv16, addr: bv16, count: bv32)
    ensures InPlace(Fields(pri, dst, addr, count))
  {
  }

  lemma BitsInPlace(begin: bool, end: bool, x: bv8)
    ensures LowBits(Bits(begin, end, x))
  {
  }

  lemma KeyOf(w: bv32, b: bv32)
    requires InPlace(w) && LowBits(b)
    ensures Key(With(w, b)) == w
  {
  }

  lemma BeginOf(w: bv32, begin: bool, end: bool, x: bv8)
    requires InPlace(w)
    ensures IsBegin(With(w, Bits(begin, end, x))) <==> begin
  {
  }

  lemma EndOf(w: bv32, begin: bool, end: bool, x: bv8)
    requires InPlace(w)
    ensures IsEnd(With(w, Bits(begin, end, x))) <==> end
  {
  }

  lemma CounterOf(w: bv32, begin: bool, end: bool, x: bv8)
    requires InPlace(w)
    ensures CounterBits(With(w, Bits(begin, end, x))) == LastThree(x)
  {
  }

  lemma SmallByte(x: bv8)
    requires Value(x) < 8
    ensures LastThree(x) == x
  {
  }

  lemma BitsRead(w: bv32, begin: bool, end: bool, x: bv8)
    requires InPlace(w)
    ensures var id := With(w, Bits(begin, end, x));
            Key(id) == w && (IsBegin(id) <==> begin) && (IsEnd(id) <==> end) && CounterBits(id) == LastThree(x)
  {
    hide Key, IsBegin, IsEnd, CounterBits, Bits, InPlace, LowBits, LastThree, With;
    BitsInPlace(begin, end, x);
    KeyOf(w, Bits(begin, end, x));
    BeginOf(w, begin, end, x);
    EndOf(w, begin, end, x);
    CounterOf(w, begin, end, x);
  }

  /** What the receiver reads out of an identifier is what the sender put in, the fragment number modulo 8. */
  lemma FieldsSurvive(w: bv32, begin: bool, end: bool, fragment: nat)
    requires InPlace(w)
    ensures var id := CanId(w, begin, end, fragment);
            Key(id) == w && (IsBegin(id) <==> begin) && (IsEnd(id) <==> end) && Counter(id) == fragment % 8
  {
    hide Key, IsBegin, IsEnd, CounterBits, Bits, InPlace, LastThree, With, Octet, Value;
    BitsRead(w, begin, end, Octet(fragment % 8));
    SmallByte(Octet(fragment % 8));
  }

  // ---------------------------------------------------------------- the header

  /** The two header bytes that travel in the identifier. */
  function FirstTwo(id: bv32): (s: seq<bv8>)
    ensures |s| == 2
  {
    [Byte(id, 21), Byte(id, 13)]
  }

  /** The header extension, the first four data bytes of the first frame. */
  function Extension(src: bv16, dport: bv8, sport: bv8, flags: bv8): bv32 {
    (((src & 0x3FFF) as bv32) << 18) | (((dport & 0x3F) as bv32) << 12) | (((sport & 0x3F) as bv32) << 6)
    | ((flags & 0x3F) as bv32)
  }

  lemma FirstTwoBytes(id: Id, addr: bv16, count: bv32, b: bv32)
    requires InRange(V2, id)
    requires LowBits(b)
    ensures Byte(With(Fields(id.pri, id.dst, addr, count), b), 21) == Byte64(Up(Pack2(id)), 56)
    ensures Byte(With(Fields(id.pri, id.dst, addr, count), b), 13) == Byte64(Up(Pack2(id)), 48)
  {
  }

  lemma ExtensionBytes(id: Id)
    requires InRange(V2, id)
    ensures var e := Extension(id.src, id.dport, id.sport, id.flags);
            Byte(e, 24) == Byte64(Up(Pack2(id)), 40) && Byte(e, 16) == Byte64(Up(Pack2(id)), 32)
            && Byte(e, 8) == Byte64(Up(Pack2(id)), 24) && Byte(e, 0) == Byte64(Up(Pack2(id)), 16)
  {
  }

  lemma JoinBytes(x: bv32, e: bv32, w: bv64)
    requires Byte(x, 21) == Byte64(w, 56) && Byte(x, 13) == Byte64(w, 48)
    requires Byte(e, 24) == Byte64(w, 40) && Byte(e, 16) == Byte64(w, 32)
    requires Byte(e, 8) == Byte64(w, 24) && Byte(e, 0) == Byte64(w, 16)
    ensures FirstTwo(x) + ToBytes(e) == ToBytes6(w)
  {
  }

  lemma HeaderJoined(id: Id, addr: bv16, count: bv32, b: bv32)
    requires InRange(V2, id) && LowBits(b)
    ensures FirstTwo(With(Fields(id.pri, id.dst, addr, count), b))
          + ToBytes(Extension(id.src, id.dport, id.sport, id.flags))
         == Header(V2, id)
  {
    hide Fields, Extension, Byte64, Byte, Pack2, InRange, LowBits, FirstTwo, ToBytes, ToBytes6, With, Up;
    FirstTwoBytes(id, addr, count, b);
    ExtensionBytes(id);
    JoinBytes(With(Fields(id.pri, id.dst, addr, count), b), Extension(id.src, id.dport, id.sport, id.flags),
              Up(Pack2(id)));
  }

  /** Identifier and extension together carry the packed header. */
  lemma HeaderCarried(id: Id, addr: bv16, count: bv32, end: bool, fragment: nat)
    requires InRange(V2, id)
    ensures FirstTwo(CanId(Fields(id.pri, id.dst, addr, count), true, end, fragment))
          + ToBytes(Extension(id.src, id.dport, id.sport, id.flags))
         == Header(V2, id)
  {
    hide Fields, Extension, Bits, Header, FirstTwo, ToBytes, InRange, LowBits, With, Octet, Value;
    BitsInPlace(true, end, Octet(fragment % 8));
    HeaderJoined(id, addr, count, Bits(true, end, Octet(fragment % 8)));
  }

  // ---------------------------------------------------------------- transmit

  /** A packet to send, the sending interface's address and its packet counter. */
  datatype Job = Job(packet: Packet, addr: bv16, count: bv32)

  function JobKey(j: Job): bv32 { Fields(j.packet.id.pri, j.packet.id.dst, j.addr, j.count) }

  function BeginFrame(j: Job): Frame {
    var p := j.packet;
    Frame(CanId(JobKey(j), true, |p.data| <= 4, 0),
          ToBytes(Extension(p.id.src, p.id.dport, p.id.sport, p.id.flags)) + p.data[..Min(4, |p.data|)])
  }

  /** Where the fragment from an offset ends. */
  function Next(j: Job, tx: nat): (n: nat)
    requires tx < |j.packet.data|
    ensures tx < n <= |j.packet.data|
  {
    tx + Min(8, |j.packet.data| - tx)
  }

  function Fragment(j: Job, tx: nat, m: nat): Frame
    requires tx < |j.packet.data|
  {
    Frame(CanId(JobKey(j), false, Next(j, tx) == |j.packet.data|, m), j.packet.data[tx..Next(j, tx)])
  }

  /** The frames from an offset on, numbered from `m`. */
  function Tail(j: Job, tx: nat, m: nat): seq<Frame>
    requires tx <= |j.packet.data|
    decreases |j.packet.data| - tx
  {
    if tx == |j.packet.data| then [] else [Fragment(j, tx, m)] + Tail(j, Next(j, tx), m + 1)
  }

  function Frames(j: Job): seq<Frame> { [BeginFrame(j)] + Tail(j, Min(4, |j.packet.data|), 1) }

  // ---------------------------------------------------------------- receive

  /** A packet to the link-layer broadcast address is taken as one to the local node. */
  function Received(addr: bv16, p: Packet): Packet {
    if p.id.dst == 0x3FFF then p.(id := p.id.(dst := addr)) else p
  }

  /** The end of csp_can2_rx. A bound buffer always holds the six header bytes, so the strip succeeds; its result is
      not looked at. */
  function Append(mtu: nat, addr: bv16, part: Part, id: bv32, data: seq<bv8>): Reply {
    if |part.bytes| + |data| > mtu then Drop
    else
      var q := part.(bytes := part.bytes + data);
      if !IsEnd(id) then Keep(q)
      else
        var p := Strip(V2, q.bytes);
        Deliver(Received(addr, if p.Some? then p.value else Packet(part.id, [])))
  }

  /** csp_can2_rx once a buffer is bound. */
  function Take(mtu: nat, addr: bv16, part: Part, f: Frame): Reply {
    if IsBegin(f.id) then
      if |f.data| < 4 then Drop
      else Append(mtu, addr, part.(bytes := FirstTwo(f.id) + f.data[..4], length := 0, counter := 1), f.id, f.data[4..])
    else if part.counter != Counter(f.id) then Drop
    else Append(mtu, addr, part.(counter := (part.counter + 1) % 8), f.id, f.data)
  }

  function Cfp2(mtu: nat, addr: bv16, unset: Part): Protocol {
    Protocol(Key, (f: Frame) => IsBegin(f.id), (part: Part, f: Frame) => Take(mtu, addr, part, f), unset)
  }

  // ---------------------------------------------------------------- frames one by one

  /** A buffer that holds the header and some data, and expects fragment `n`. */
  predicate Holds(j: Job, got: seq<bv8>, n: nat, part: Part) {
    part.bytes == Header(V2, j.packet.id) + got && part.counter == n % 8
  }

  function Delivery(addr: bv16, j: Job, got: seq<bv8>): Reply { Deliver(Received(addr, Packet(j.packet.id, got))) }

  /** The end of the receiver, with the header already in the buffer. */
  lemma Appended(mtu: nat, addr: bv16, j: Job, got: seq<bv8>, n: nat, part: Part, id: bv32, more: seq<bv8>)
    requires InRange(V2, j.packet.id) && Holds(j, got, n, part)
    ensures 6 + |got + more| > mtu ==> Append(mtu, addr, part, id, more) == Drop
    ensures 6 + |got + more| <= mtu && !IsEnd(id) ==>
              Append(mtu, addr, part, id, more).Keep? && Holds(j, got + more, n, Append(mtu, addr, part, id, more).part)
    ensures 6 + |got + more| <= mtu && IsEnd(id) ==>
              Append(mtu, addr, part, id, more) == Delivery(addr, j, got + more)
  {
    hide IsEnd, Strip, Header, Received;
    HeaderRoundTrip(V2, Packet(j.packet.id, got + more));
    assert part.bytes + more == Header(V2, j.packet.id) + (got + more);
  }

  lemma BeginTaken(mtu: nat, addr: bv16, j: Job, part: Part)
    requires InRange(V2, j.packet.id)
    ensures var p, f, t := j.packet, BeginFrame(j), Min(4, |j.packet.data|);
            IsBegin(f.id) && Key(f.id) == JobKey(j)
            && (6 + t > mtu ==> Take(mtu, addr, part, f) == Drop)
            && (6 + t <= mtu && t < |p.data| ==>
                  Take(mtu, addr, part, f).Keep? && Holds(j, p.data[..t], 1, Take(mtu, addr, part, f).part))
            && (6 + t <= mtu && t == |p.data| ==> Take(mtu, addr, part, f) == Delivery(addr, j, p.data))
  {
    hide Key, Fields, IsBegin, IsEnd, Counter, CanId, FirstTwo, Extension, Append, Header, Received;
    var p, f, t := j.packet, BeginFrame(j), Min(4, |j.packet.data|);
    var e := ToBytes(Extension(p.id.src, p.id.dport, p.id.sport, p.id.flags));
    FieldsInPlace(p.id.pri, p.id.dst, j.addr, j.count);
    FieldsSurvive(JobKey(j), true, |p.data| <= 4, 0);
    HeaderCarried(p.id, j.addr, j.count, |p.data| <= 4, 0);
    assert f.data == e + p.data[..t];
    assert f.data[..4] == e && f.data[4..] == p.data[..t];
    var q := part.(bytes := FirstTwo(f.id) + f.data[..4], length := 0, counter := 1);
    assert q.bytes == Header(V2, p.id) + [];
    Appended(mtu, addr, j, [], 1, q, f.id, p.data[..t]);
    assert [] + p.data[..t] == p.data[..t];
    if t == |p.data| {
      assert p.data[..t] == p.data;
    }
  }

  lemma CounterNext(n: nat)
    ensures (n % 8 + 1) % 8 == (n + 1) % 8
  {
  }

  lemma FragmentTaken(mtu: nat, addr: bv16, j: Job, tx: nat, m: nat, got: seq<bv8>, n: nat, part: Part)
    requires InRange(V2, j.packet.id) && tx < |j.packet.data| && Holds(j, got, n, part)
    ensures var f, next := Fragment(j, tx, m), got + j.packet.data[tx..Next(j, tx)];
            !IsBegin(f.id) && Key(f.id) == JobKey(j)
            && (m % 8 != n % 8 || 6 + |next| > mtu ==> Take(mtu, addr, part, f) == Drop)
            && (m % 8 == n % 8 && 6 + |next| <= mtu && Next(j, tx) < |j.packet.data| ==>
                  Take(mtu, addr, part, f).Keep? && Holds(j, next, m + 1, Take(mtu, addr, part, f).part))
            && (m % 8 == n % 8 && 6 + |next| <= mtu && Next(j, tx) == |j.packet.data| ==>
                  Take(mtu, addr, part, f) == Delivery(addr, j, next))
  {
    hide Key, Fields, IsBegin, IsEnd, Counter, CanId, Append, Header, Received;
    var p, f := j.packet, Fragment(j, tx, m);
    FieldsInPlace(p.id.pri, p.id.dst, j.addr, j.count);
    FieldsSurvive(JobKey(j), false, Next(j, tx) == |p.data|, m);
    CounterNext(m);
    if m % 8 == n % 8 {
      Appended(mtu, addr, j, got, m + 1, part.(counter := (part.counter + 1) % 8), f.id, f.data);
    }
  }

  lemma {:induction false} TailFrames(j: Job, tx: nat, m: nat)
    requires tx <= |j.packet.data|
    ensures forall f <- Tail(j, tx, m) :: !IsBegin(f.id) && Key(f.id) == JobKey(j)
    decreases |j.packet.data| - tx
  {
    if tx < |j.packet.data| {
      hide Key, Fields, IsBegin, IsEnd, Counter, CanId;
      FieldsInPlace(j.packet.id.pri, j.packet.id.dst, j.addr, j.count);
      FieldsSurvive(JobKey(j), false, Next(j, tx) == |j.packet.data|, m);
      TailFrames(j, Next(j, tx), m + 1);
    }
  }

  lemma ArrivedIgnored(mtu: nat, addr: bv16, unset: Part, j: Job, tx: nat, m: nat, keep: seq<bool>)
    requires tx <= |j.packet.data| && |keep| == |Tail(j, tx, m)|
    ensures TrackAll(Cfp2(mtu, addr, unset), None, Arrived(Tail(j, tx, m), keep)) == Single(None, [])
  {
    hide Key, Fields, IsBegin, Take, CanId;
    TailFrames(j, tx, m);
    var fs := Arrived(Tail(j, tx, m), keep);
    forall i | 0 <= i < |fs| ensures !IsBegin(fs[i].id) {
      ArrivedFrom(Tail(j, tx, m), keep, fs[i]);
    }
    Ignored(Cfp2(mtu, addr, unset), fs);
  }

  // ---------------------------------------------------------------- losses

  /** The data of the fragments that arrive. */
  function Kept(j: Job, tx: nat, m: nat, keep: seq<bool>): seq<bv8>
    requires tx <= |j.packet.data| && |keep| == |Tail(j, tx, m)|
    decreases |j.packet.data| - tx
  {
    if tx == |j.packet.data| then []
    else
      (if keep[0] then j.packet.data[tx..Next(j, tx)] else []) + Kept(j, Next(j, tx), m + 1, keep[1..])
  }

  /** A loss pattern the three-bit counter does not notice: the last fragment arrives, and the runs of lost fragments
      have lengths that are multiples of eight. `gap` fragments were lost just before. */
  predicate Unnoticed(keep: seq<bool>, gap: nat)
    decreases keep
  {
    if keep == [] then gap == 0
    else if keep[0] then gap % 8 == 0 && Unnoticed(keep[1..], 0)
    else Unnoticed(keep[1..], gap + 1)
  }

  lemma GapModulo(m: nat, gap: nat)
    requires gap <= m
    ensures m % 8 == (m - gap) % 8 <==> gap % 8 == 0
  {
  }

  lemma {:induction false} TailLossy(mtu: nat, addr: bv16, unset: Part, j: Job, tx: nat, m: nat, gap: nat,
                                     got: seq<bv8>, part: Part, keep: seq<bool>)
    requires InRange(V2, j.packet.id) && |j.packet.data| + 6 <= mtu
    requires |got| <= tx < |j.packet.data| && gap <= m && |keep| == |Tail(j, tx, m)|
    requires Holds(j, got, m - gap, part)
    ensures TrackAll(Cfp2(mtu, addr, unset), Some(part), Arrived(Tail(j, tx, m), keep)).sent
         == if Unnoticed(keep, gap) then [Received(addr, Packet(j.packet.id, got + Kept(j, tx, m, keep)))] else []
    decreases |j.packet.data| - tx
  {
    hide Key, Fields, IsBegin, Take, CanId, Header, Received, Next, Holds, Fragment;
    var f, next := Fragment(j, tx, m), Next(j, tx);
    var tail, kept := Tail(j, next, m + 1), Kept(j, next, m + 1, keep[1..]);
    var rest := Arrived(tail, keep[1..]);
    assert Tail(j, tx, m)[0] == f && Tail(j, tx, m)[1..] == tail;
    var more := j.packet.data[tx..next];
    if keep[0] {
      FragmentTaken(mtu, addr, j, tx, m, got, m - gap, part);
      GapModulo(m, gap);
      assert Arrived(Tail(j, tx, m), keep)[0] == f && Arrived(Tail(j, tx, m), keep)[1..] == rest;
      if gap % 8 != 0 {
        ArrivedIgnored(mtu, addr, unset, j, next, m + 1, keep[1..]);
      } else {
        assert got + (more + kept) == (got + more) + kept;
        if next < |j.packet.data| {
          TailLossy(mtu, addr, unset, j, next, m + 1, 0, got + more, Take(mtu, addr, part, f).part, keep[1..]);
        } else {
          assert rest == [] && keep[1..] == [] && (got + more) + kept == got + more;
        }
      }
    } else {
      assert [] + kept == kept;
      if next < |j.packet.data| {
        TailLossy(mtu, addr, unset, j, next, m + 1, gap + 1, got, part, keep[1..]);
      } else {
        assert rest == [] && keep[1..] == [];
      }
    }
  }

  /** What is delivered of a packet some of whose fragments arrive after its first frame. */
  lemma BeginLossy(mtu: nat, addr: bv16, unset: Part, j: Job, cur: Option<Part>, keep: seq<bool>)
    requires InRange(V2, j.packet.id) && |j.packet.data| + 6 <= mtu
    requires |keep| == |Frames(j)| && keep[0]
    ensures var t := Min(4, |j.packet.data|);
            TrackAll(Cfp2(mtu, addr, unset), cur, Arrived(Frames(j), keep)).sent
            == if Unnoticed(keep[1..], 0)
               then [Received(addr, Packet(j.packet.id, j.packet.data[..t] + Kept(j, t, 1, keep[1..])))] else []
  {
    hide Key, Fields, IsBegin, Take, CanId, Header, Received;
    var t := Min(4, |j.packet.data|);
    var f, tail := BeginFrame(j), Tail(j, t, 1);
    var part := if cur.Some? then cur.value else unset;
    assert Frames(j)[0] == f && Frames(j)[1..] == tail;
    var rest := Arrived(tail, keep[1..]);
    assert Arrived(Frames(j), keep)[0] == f && Arrived(Frames(j), keep)[1..] == rest;
    BeginTaken(mtu, addr, j, part);
    if t < |j.packet.data| {
      TailLossy(mtu, addr, unset, j, t, 1, 0, j.packet.data[..t], Take(mtu, addr, part, f).part, keep[1..]);
    } else {
      assert rest == [] && keep[1..] == [] && j.packet.data[..t] + [] == j.packet.data;
    }
  }

  /** Losses, exactly: of a packet none of whose frames was seen before, something is delivered if and only if the
      first frame arrived and the other losses go unnoticed; it is the packet without the data that was lost. */
  lemma LossExactly(mtu: nat, addr: bv16, unset: Part, j: Job, keep: seq<bool>)
    requires InRange(V2, j.packet.id) && |j.packet.data| + 6 <= mtu && |keep| == |Frames(j)|
    ensures var t := Min(4, |j.packet.data|);
            TrackAll(Cfp2(mtu, addr, unset), None, Arrived(Frames(j), keep)).sent
            == if keep[0] && Unnoticed(keep[1..], 0)
               then [Received(addr, Packet(j.packet.id, j.packet.data[..t] + Kept(j, t, 1, keep[1..])))] else []
  {
    if keep[0] {
      BeginLossy(mtu, addr, unset, j, None, keep);
    } else {
      hide Key, Fields, IsBegin, Take, CanId, Header, Received;
      assert Frames(j)[1..] == Tail(j, Min(4, |j.packet.data|), 1);
      ArrivedIgnored(mtu, addr, unset, j, Min(4, |j.packet.data|), 1, keep[1..]);
    }
  }

  /** No eight frames in a row are lost; `gap` were lost just before. */
  predicate ShortGaps(keep: seq<bool>, gap: nat)
    decreases keep
  {
    gap < 8 && (keep != [] ==> ShortGaps(keep[1..], if keep[0] then 0 else gap + 1))
  }

  lemma {:induction false} ShortGapsNoticed(keep: seq<bool>, gap: nat)
    requires ShortGaps(keep, gap)
    ensures Unnoticed(keep, gap) <==> gap == 0 && AllArrived(keep)
    decreases keep
  {
    if keep != [] {
      assert AllArrived(keep) <==> keep[0] && AllArrived(keep[1..]);
      ShortGapsNoticed(keep[1..], if keep[0] then 0 else gap + 1);
    }
  }

  lemma {:induction false} AllKept(j: Job, tx: nat, m: nat, keep: seq<bool>)
    requires tx <= |j.packet.data| && |keep| == |Tail(j, tx, m)| && AllArrived(keep)
    ensures Kept(j, tx, m, keep) == j.packet.data[tx..]
    decreases |j.packet.data| - tx
  {
    if tx < |j.packet.data| {
      AllKept(j, Next(j, tx), m + 1, keep[1..]);
    }
  }

  lemma AllArrivedSplits(keep: seq<bool>)
    requires keep != []
    ensures AllArrived(keep) <==> keep[0] && AllArrived(keep[1..])
  {
  }

  /** All or nothing as long as fewer than eight fragments in a row are lost. */
  lemma AllOrNothing(mtu: nat, addr: bv16, unset: Part, j: Job, keep: seq<bool>)
    requires InRange(V2, j.packet.id) && |j.packet.data| + 6 <= mtu
    requires |keep| == |Frames(j)| && ShortGaps(keep[1..], 0)
    ensures TrackAll(Cfp2(mtu, addr, unset), None, Arrived(Frames(j), keep)).sent
         == if AllArrived(keep) then [Received(addr, j.packet)] else []
  {
    hide Key, Fields, IsBegin, Take, CanId, Header, Received, Unnoticed, ShortGaps, AllArrived, TrackAll, Arrived;
    var t := Min(4, |j.packet.data|);
    LossExactly(mtu, addr, unset, j, keep);
    ShortGapsNoticed(keep[1..], 0);
    AllArrivedSplits(keep);
    if AllArrived(keep) {
      AllKept(j, t, 1, keep[1..]);
      assert j.packet.data[..t] + j.packet.data[t..] == j.packet.data;
    }
  }

  lemma {:induction false} TailLength(j: Job, tx: nat, m: nat)
    requires tx <= |j.packet.data|
    ensures |Tail(j, tx, m)| == (|j.packet.data| - tx + 7) / 8
    decreases |j.packet.data| - tx
  {
    hide CanId;
    if tx < |j.packet.data| {
      TailLength(j, Next(j, tx), m + 1);
    }
  }

  /** The first `n` fragments of a tail are lost and the others arrive. */
  predicate LostFirst(keep: seq<bool>, n: nat) {
    n < |keep| && forall i :: 0 <= i < |keep| ==> keep[i] == (i >= n)
  }

  lemma {:induction false} LostRun(j: Job, tx: nat, m: nat, n: nat, keep: seq<bool>, gap: nat)
    requires tx + 8 * n < |j.packet.data| && |keep| == |Tail(j, tx, m)| && LostFirst(keep, n)
    ensures Kept(j, tx, m, keep) == j.packet.data[tx + 8 * n..]
    ensures Unnoticed(keep, gap) <==> (gap + n) % 8 == 0
    decreases n
  {
    hide CanId;
    if n == 0 {
      AllKept(j, tx, m, keep);
      NoneLost(keep[1..]);
    } else {
      LostRun(j, tx + 8, m + 1, n - 1, keep[1..], gap + 1);
    }
  }

  /** Eight fragments in a row can be lost without a trace: every packet of more than 68 bytes can be delivered with
      64 bytes of its data cut out. */
  lemma EightLostSplices(mtu: nat, addr: bv16, unset: Part, j: Job) returns (keep: seq<bool>)
    requires InRange(V2, j.packet.id) && |j.packet.data| + 6 <= mtu && |j.packet.data| > 68
    ensures |keep| == |Frames(j)|
    ensures TrackAll(Cfp2(mtu, addr, unset), None, Arrived(Frames(j), keep)).sent
         == [Received(addr, Packet(j.packet.id, j.packet.data[..4] + j.packet.data[68..]))]
  {
    hide Key, Fields, IsBegin, Take, CanId, Header, Received;
    TailLength(j, 4, 1);
    assert Frames(j)[1..] == Tail(j, 4, 1);
    keep := seq(|Frames(j)|, i => i == 0 || i > 8);
    LostRun(j, 4, 1, 8, keep[1..], 0);
    LossExactly(mtu, addr, unset, j, keep);
  }

  // ---------------------------------------------------------------- whole packets

  /** A whole packet is delivered, whatever was left of an earlier one under its key. */
  lemma FramesDeliver(mtu: nat, addr: bv16, unset: Part, j: Job, cur: Option<Part>)
    requires InRange(V2, j.packet.id) && |j.packet.data| + 6 <= mtu
    ensures TrackAll(Cfp2(mtu, addr, unset), cur, Frames(j)).sent == [Received(addr, j.packet)]
  {
    hide Key, Fields, IsBegin, Take, CanId, Header, Received;
    var keep := seq(|Frames(j)|, _ => true);
    var t := Min(4, |j.packet.data|);
    assert Frames(j)[1..] == Tail(j, t, 1);
    ArrivedWhole(Frames(j), keep);
    BeginLossy(mtu, addr, unset, j, cur, keep);
    AllKept(j, t, 1, keep[1..]);
    NoneLost(keep[1..]);
    assert j.packet.data[..t] + j.packet.data[t..] == j.packet.data;
  }

  lemma {:induction false} NoneLost(keep: seq<bool>)
    requires AllArrived(keep)
    ensures Unnoticed(keep, 0)
    decreases keep
  {
    if keep != [] {
      NoneLost(keep[1..]);
    }
  }

  lemma MoreIgnored(mtu: nat, addr: bv16, unset: Part, j: Job, tx: nat, m: nat)
    requires tx <= |j.packet.data|
    ensures TrackAll(Cfp2(mtu, addr, unset), None, Tail(j, tx, m)) == Single(None, [])
  {
    hide Key, Fields, IsBegin, Take, CanId;
    TailFrames(j, tx, m);
    Ignored(Cfp2(mtu, addr, unset), Tail(j, tx, m));
  }

  /** The receiver gives up at the fragment that would take header and data over the MTU. */
  lemma {:induction false} LongTailLost(mtu: nat, addr: bv16, unset: Part, j: Job, tx: nat, m: nat, part: Part)
    requires InRange(V2, j.packet.id) && |j.packet.data| + 6 > mtu
    requires tx < |j.packet.data| && Holds(j, j.packet.data[..tx], m, part)
    ensures TrackAll(Cfp2(mtu, addr, unset), Some(part), Tail(j, tx, m)).sent == []
    decreases |j.packet.data| - tx
  {
    hide Key, Fields, IsBegin, Take, CanId, Header, Received;
    var f, next := Fragment(j, tx, m), Next(j, tx);
    assert Tail(j, tx, m)[0] == f && Tail(j, tx, m)[1..] == Tail(j, next, m + 1);
    FragmentTaken(mtu, addr, j, tx, m, j.packet.data[..tx], m, part);
    assert j.packet.data[..tx] + j.packet.data[tx..next] == j.packet.data[..next];
    if 6 + next > mtu {
      MoreIgnored(mtu, addr, unset, j, next, m + 1);
    } else {
      LongTailLost(mtu, addr, unset, j, next, m + 1, Take(mtu, addr, part, f).part);
    }
  }

  /** On an idle bus CFP 2 delivers a packet exactly if its data and six header bytes are within the MTU. */
  lemma DeliveredExactlyIfCarried(mtu: nat, addr: bv16, unset: Part, j: Job)
    requires InRange(V2, j.packet.id)
    ensures TrackAll(Cfp2(mtu, addr, unset), None, Frames(j)).sent
         == if |j.packet.data| + 6 <= mtu then [Received(addr, j.packet)] else []
  {
    if |j.packet.data| + 6 <= mtu {
      FramesDeliver(mtu, addr, unset, j, None);
    } else {
      hide Key, Fields, IsBegin, Take, CanId, Header, Received;
      var f, t := BeginFrame(j), Min(4, |j.packet.data|);
      assert Frames(j)[0] == f && Frames(j)[1..] == Tail(j, t, 1);
      BeginTaken(mtu, addr, j, unset);
      if 6 + t > mtu {
        MoreIgnored(mtu, addr, unset, j, t, 1);
      } else {
        LongTailLost(mtu, addr, unset, j, t, 1, Take(mtu, addr, unset, f).part);
      }
    }
  }

  /** Packets under way at once, by the identifier the connection mask leaves. */
  predicate Jobs(mtu: nat, jobs: map<bv32, Job>) {
    forall k <- jobs :: InRange(V2, jobs[k].packet.id) && |jobs[k].packet.data| + 6 <= mtu && JobKey(jobs[k]) == k
  }

  /** CFP 2 round trip: in any interleaving of the frames of packets with different masked identifiers, and whatever
      the receiver was left with before, every packet is delivered once, with its header and data; only a broadcast
      destination is rewritten. */
  lemma RoundTrip(mtu: nat, addr: bv16, unset: Part, pbufs: seq<Pbuf>, jobs: map<bv32, Job>, fs: seq<Frame>)
    requires Distinct(Cfp2(mtu, addr, unset), pbufs) && Jobs(mtu, jobs)
    requires forall k <- jobs :: FramesOf(Cfp2(mtu, addr, unset), fs, k) == Frames(jobs[k])
    ensures forall k <- jobs ::
              PacketsOf(Cfp2(mtu, addr, unset), RxAll(Cfp2(mtu, addr, unset), pbufs, fs).sent, k)
              == [Received(addr, jobs[k].packet)]
    ensures forall k <- jobs :: jobs[k].packet.id.dst != 0x3FFF ==> Received(addr, jobs[k].packet) == jobs[k].packet
    ensures forall k <- jobs :: jobs[k].packet.id.dst == 0x3FFF ==>
              var p, q := jobs[k].packet, Received(addr, jobs[k].packet);
              q == Packet(Id(p.id.pri, p.id.flags, p.id.src, addr, p.id.dport, p.id.sport), p.data)
  {
    hide Key, Fields, IsBegin, Take, CanId, Frames;
    var g := Cfp2(mtu, addr, unset);
    forall k | k in jobs ensures PacketsOf(g, RxAll(g, pbufs, fs).sent, k) == [Received(addr, jobs[k].packet)] {
      Projection(g, pbufs, fs, k);
      FramesDeliver(mtu, addr, unset, jobs[k], Lookup(g, pbufs, k));
    }
  }

  // ---------------------------------------------------------------- the code

  /** csp_can2_tx past its loopback test: the frames put on the bus. The driver takes `room` frames before it
      refuses one. */
  method Tx(j: Job, room: nat) returns (bus: seq<Frame>, ok: bool)
    ensures ok <==> |Frames(j)| <= room
    ensures bus == Frames(j)[..Min(room, |Frames(j)|)]
  {
    hide CanId, Extension, JobKey;
    bus, ok := [], false;
    var p := j.packet;
    var data_bytes := if |p.data| >= 4 then 4 else |p.data|;
    var tx_count := data_bytes;
    var first := Frame(CanId(JobKey(j), true, tx_count == |p.data|, 0),
                       ToBytes(Extension(p.id.src, p.id.dport, p.id.sport, p.id.flags)) + p.data[..data_bytes]);
    if room == 0 {
      return;
    }
    bus := [first];
    var fragment_count := 1;
    while tx_count < |p.data|
      invariant tx_count <= |p.data| && |bus| <= room
      invariant Frames(j) == bus + Tail(j, tx_count, fragment_count)
    {
      data_bytes := if |p.data| - tx_count >= 8 then 8 else |p.data| - tx_count;
      var f := Frame(CanId(JobKey(j), false, tx_count + data_bytes == |p.data|, fragment_count),
                     p.data[tx_count..tx_count + data_bytes]);
      assert f == Fragment(j, tx_count, fragment_count);
      if |bus| == room {
        return;
      }
      bus := bus + [f];
      fragment_count := fragment_count + 1;
      tx_count := tx_count + data_bytes;
    }
    ok := true;
  }
}
