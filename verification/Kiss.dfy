/** The KISS framing of a serial line: the escaping encoder and the byte-wise decoder. */
module Kiss {
  import opened Base
  import opened CspId
  import opened CrcPacket

  const FEND: bv8 := 0xC0
  const FESC: bv8 := 0xDB
  const TFEND: bv8 := 0xDC
  const TFESC: bv8 := 0xDD
  const TNC_DATA: bv8 := 0x00

  // ---------------------------------------------------------------- encoder

  function Escape(b: bv8): seq<bv8> {
    if b == FEND then [FESC, TFEND] else if b == FESC then [FESC, TFESC] else [b]
  }

  function EscapeAll(frame: seq<bv8>): seq<bv8>
    decreases frame
  {
    if frame == [] then [] else Escape(frame[0]) + EscapeAll(frame[1..])
  }

  /** What goes on the line for one frame. */
  function Line(frame: seq<bv8>): seq<bv8> { [FEND, TNC_DATA] + EscapeAll(frame) + [FEND] }

  /** The frame of a packet; csp_kiss_tx does not look at whether the checksum could be appended. */
  function FrameOf(v: Version, size: nat, p: Packet): seq<bv8> {
    var c := Append(size, p.data);
    Prepend(v, if c.Some? then p.(data := c.value) else p)
  }

  function Encode(v: Version, size: nat, p: Packet): seq<bv8> { Line(FrameOf(v, size, p)) }

  function EncodeAll(v: Version, size: nat, ps: seq<Packet>): seq<bv8>
    decreases ps
  {
    if ps == [] then [] else Encode(v, size, ps[0]) + EncodeAll(v, size, ps[1..])
  }

  // ---------------------------------------------------------------- decoder

  datatype Mode = NotStarted | Started | Escaped | SkipFrame

  /** The receiving half of csp_kiss_interface_data_t: `frame` is what the first rx_length bytes at frame_begin hold,
      `packet` whether rx_packet is set. */
  datatype Decoder = Decoder(mode: Mode, frame: seq<bv8>, first: bool, packet: bool)

  /** What configures the decoder: the header version, max_rx_length, and whether csp_buffer_get finds a buffer. */
  datatype Setting = Setting(v: Version, max: nat, mem: bool)

  /** A frame is only being received into a packet. */
  predicate Valid(s: Decoder) { s.mode.Started? || s.mode.Escaped? ==> s.packet }

  /** A decoder, and the packets handed to csp_qfifo_write so far. */
  datatype Out = Out(s: Decoder, sent: seq<Packet>)

  /** The packet is accepted: the header is stripped and the checksum verified. */
  function Accept(v: Version, frame: seq<bv8>): Option<Packet> {
    var p := Strip(v, frame);
    if p.None? then None else Verify(v, p.value)
  }

  /** A packet that became too long is given up. */
  function Overrun(g: Setting, s: Decoder): Decoder {
    if |s.frame| >= g.max then s.(mode := NotStarted, frame := []) else s
  }

  function Begin(g: Setting, s: Decoder): Decoder {
    if s.packet || g.mem then Decoder(Started, [], true, true) else s.(mode := SkipFrame)
  }

  function End(g: Setting, s: Decoder): Out {
    if s.frame == [] then Out(s, [])
    else
      var p := Accept(g.v, s.frame);
      if p.Some? then Out(s.(mode := NotStarted, packet := false), [p.value])
      else Out(s.(mode := NotStarted), [])
  }

  function Plain(g: Setting, s: Decoder, b: bv8): Out {
    if b == FESC then Out(s.(mode := Escaped), [])
    else if b == FEND then End(g, s)
    else if s.first then Out(s.(first := false), [])
    else Out(s.(frame := s.frame + [b]), [])
  }

  function Unescape(s: Decoder, b: bv8): Decoder {
    if b == TFESC then s.(frame := s.frame + [FESC], mode := Started)
    else if b == TFEND then s.(frame := s.frame + [FEND], mode := Started)
    else s.(mode := Started)
  }

  function Switch(g: Setting, s: Decoder, b: bv8): Out {
    match s.mode
    case NotStarted => Out(if b == FEND then Begin(g, s) else s, [])
    case Started => Plain(g, s, b)
    case Escaped => Out(Unescape(s, b), [])
    case SkipFrame => Out(if b == FEND then s.(mode := NotStarted) else s, [])
  }

  /** One turn of the loop of csp_kiss_rx. */
  function RxByte(g: Setting, s: Decoder, b: bv8): Out { Switch(g, Overrun(g, s), b) }

  /** csp_kiss_rx over a chunk of bytes. */
  function Rx(g: Setting, s: Decoder, buf: seq<bv8>): Out
    decreases buf
  {
    if buf == [] then Out(s, [])
    else
      var o := RxByte(g, s, buf[0]);
      var r := Rx(g, o.s, buf[1..]);
      Out(r.s, o.sent + r.sent)
  }

  /** csp_kiss_rx called chunk after chunk. */
  function RxChunks(g: Setting, s: Decoder, chunks: seq<seq<bv8>>): Out
    decreases chunks
  {
    if chunks == [] then Out(s, [])
    else
      var o := Rx(g, s, chunks[0]);
      var r := RxChunks(g, o.s, chunks[1..]);
      Out(r.s, o.sent + r.sent)
  }

  // ---------------------------------------------------------------- chunks

  lemma {:induction false} RxAppend(g: Setting, s: Decoder, x: seq<bv8>, y: seq<bv8>)
    ensures Rx(g, s, x + y).s == Rx(g, Rx(g, s, x).s, y).s
    ensures Rx(g, s, x + y).sent == Rx(g, s, x).sent + Rx(g, Rx(g, s, x).s, y).sent
    decreases x
  {
    hide RxByte;
    if x == [] {
      assert x + y == y;
    } else {
      assert (x + y)[1..] == x[1..] + y;
      RxAppend(g, RxByte(g, s, x[0]).s, x[1..], y);
    }
  }

  /** One more byte of a buffer. */
  lemma RxSnoc(g: Setting, s: Decoder, buf: seq<bv8>, i: nat, t: Decoder, sent: seq<Packet>, o: Out)
    requires i < |buf| && Rx(g, s, buf[..i]) == Out(t, sent) && RxByte(g, t, buf[i]) == o
    ensures Rx(g, s, buf[..i + 1]) == Out(o.s, sent + o.sent)
  {
    assert buf[..i + 1] == buf[..i] + [buf[i]];
    RxAppend(g, s, buf[..i], [buf[i]]);
    One(g, t, buf[i]);
  }

  /** How the driver cuts the byte stream into calls does not matter. */
  lemma {:induction false} ChunksDoNotMatter(g: Setting, s: Decoder, chunks: seq<seq<bv8>>)
    ensures RxChunks(g, s, chunks) == Rx(g, s, Concat(chunks))
    decreases chunks
  {
    if chunks != [] {
      ChunksDoNotMatter(g, Rx(g, s, chunks[0]).s, chunks[1..]);
      RxAppend(g, s, chunks[0], Concat(chunks[1..]));
    }
  }

  lemma ByteKeepsValid(g: Setting, s: Decoder, b: bv8)
    requires Valid(s)
    ensures Valid(RxByte(g, s, b).s)
  {
  }

  lemma {:induction false} RxKeepsValid(g: Setting, s: Decoder, buf: seq<bv8>)
    requires Valid(s)
    ensures Valid(Rx(g, s, buf).s)
    decreases buf
  {
    if buf != [] {
      ByteKeepsValid(g, s, buf[0]);
      RxKeepsValid(g, RxByte(g, s, buf[0]).s, buf[1..]);
    }
  }

  // ---------------------------------------------------------------- one frame

  /** The decoder is about to take the first data byte of a frame, or the next one. */
  predicate Inside(s: Decoder) { s.mode.Started? && !s.first && s.packet }

  predicate Between(s: Decoder) { s.mode.NotStarted? || (s.mode.Started? && s.frame == [] && s.first && s.packet) }

  lemma Two(g: Setting, s: Decoder, a: bv8, b: bv8)
    ensures Rx(g, s, [a, b]).s == RxByte(g, RxByte(g, s, a).s, b).s
    ensures Rx(g, s, [a, b]).sent == RxByte(g, s, a).sent + RxByte(g, RxByte(g, s, a).s, b).sent
  {
    assert [a, b][1..] == [b];
    One(g, RxByte(g, s, a).s, b);
  }

  lemma One(g: Setting, s: Decoder, a: bv8)
    ensures Rx(g, s, [a]) == RxByte(g, s, a)
  {
  }

  /** Inside a frame with room, an escaped byte is taken as it was. */
  lemma TakeByte(g: Setting, s: Decoder, b: bv8)
    requires Inside(s) && |s.frame| < g.max
    ensures Rx(g, s, Escape(b)) == Out(s.(frame := s.frame + [b]), [])
  {
    if b == FEND {
      Two(g, s, FESC, TFEND);
    } else if b == FESC {
      Two(g, s, FESC, TFESC);
    } else {
      One(g, s, b);
    }
  }

  /** Bytes that hand nothing on, and more after them. */
  lemma RxThen(g: Setting, s: Decoder, x: seq<bv8>, t: Decoder, y: seq<bv8>)
    requires Rx(g, s, x) == Out(t, [])
    ensures Rx(g, s, x + y) == Rx(g, t, y)
  {
    RxAppend(g, s, x, y);
    hide Rx;
    assert [] + Rx(g, t, y).sent == Rx(g, t, y).sent;
  }

  lemma RxNothing(g: Setting, s: Decoder)
    ensures Rx(g, s, []) == Out(s, [])
  {
  }

  /** Inside a frame, escaped bytes are taken as they were as long as there is room before each. */
  lemma {:induction false} TakeBytes(g: Setting, s: Decoder, x: seq<bv8>)
    requires Inside(s) && |s.frame| + |x| <= g.max
    ensures Rx(g, s, EscapeAll(x)) == Out(s.(frame := s.frame + x), [])
    decreases x
  {
    hide Rx, Escape;
    if x == [] {
      RxNothing(g, s);
      assert s.frame + x == s.frame;
    } else {
      var t := s.(frame := s.frame + [x[0]]);
      TakeByte(g, s, x[0]);
      RxThen(g, s, Escape(x[0]), t, EscapeAll(x[1..]));
      TakeBytes(g, t, x[1..]);
      assert t.frame + x[1..] == s.frame + x;
    }
  }

  /** Waiting for a frame, the decoder takes nothing but an end byte. */
  predicate NoEnd(x: seq<bv8>) { FEND !in x }

  lemma {:induction false} EscapedHasNoEnd(x: seq<bv8>)
    ensures NoEnd(EscapeAll(x))
    decreases x
  {
    if x != [] {
      EscapedHasNoEnd(x[1..]);
    }
  }

  lemma {:induction false} WaitsForEnd(g: Setting, s: Decoder, x: seq<bv8>)
    requires s.mode.NotStarted? && NoEnd(x)
    ensures Rx(g, s, x).s.mode.NotStarted? && Rx(g, s, x).sent == []
    decreases x
  {
    if x != [] {
      assert x[0] != FEND;
      assert NoEnd(x[1..]);
      WaitsForEnd(g, RxByte(g, s, x[0]).s, x[1..]);
    }
  }

  /** Between frames the first two bytes of a frame bring the decoder to its first data byte. */
  lemma StartOfFrame(g: Setting, s: Decoder)
    requires Between(s) && Valid(s) && g.mem && g.max > 0
    ensures Rx(g, s, [FEND, TNC_DATA]) == Out(Decoder(Started, [], false, true), [])
  {
    Two(g, s, FEND, TNC_DATA);
  }

  lemma LineSplits(g: Setting, s: Decoder, frame: seq<bv8>)
    ensures Rx(g, s, Line(frame)).s
         == RxByte(g, Rx(g, Rx(g, s, [FEND, TNC_DATA]).s, EscapeAll(frame)).s, FEND).s
    ensures Rx(g, s, Line(frame)).sent
         == Rx(g, s, [FEND, TNC_DATA]).sent + Rx(g, Rx(g, s, [FEND, TNC_DATA]).s, EscapeAll(frame)).sent
          + RxByte(g, Rx(g, Rx(g, s, [FEND, TNC_DATA]).s, EscapeAll(frame)).s, FEND).sent
  {
    RxAppend(g, s, [FEND, TNC_DATA] + EscapeAll(frame), [FEND]);
    RxAppend(g, s, [FEND, TNC_DATA], EscapeAll(frame));
    One(g, Rx(g, Rx(g, s, [FEND, TNC_DATA]).s, EscapeAll(frame)).s, FEND);
  }

  /** Between frames, a frame with room is taken whole. */
  lemma FrameTaken(g: Setting, s: Decoder, frame: seq<bv8>)
    requires Between(s) && Valid(s) && g.mem && 0 < |frame| < g.max
    ensures Between(Rx(g, s, Line(frame)).s)
    ensures Rx(g, s, Line(frame)).sent == if Accept(g.v, frame).Some? then [Accept(g.v, frame).value] else []
  {
    LineSplits(g, s, frame);
    StartOfFrame(g, s);
    TakeBytes(g, Decoder(Started, [], false, true), frame);
    assert [] + frame == frame;
  }

  // ---------------------------------------------------------------- without a buffer

  lemma {:induction false} Skips(g: Setting, s: Decoder, x: seq<bv8>)
    requires s.mode.SkipFrame? && |s.frame| < g.max && NoEnd(x)
    ensures Rx(g, s, x) == Out(s, [])
    decreases x
  {
    if x != [] {
      assert x[0] != FEND && NoEnd(x[1..]);
      Skips(g, s, x[1..]);
    }
  }

  /** A frame that finds no buffer is skipped whole, and the next one is received from its start. */
  lemma SkippedWhole(g: Setting, s: Decoder, frame: seq<bv8>)
    requires s.mode.NotStarted? && !s.packet && !g.mem && |s.frame| < g.max
    ensures Rx(g, s, Line(frame)) == Out(s, [])
  {
    hide Rx, EscapeAll;
    var t := s.(mode := SkipFrame);
    var x := [TNC_DATA] + EscapeAll(frame);
    EscapedHasNoEnd(frame);
    One(g, s, FEND);
    RxThen(g, s, [FEND], t, x + [FEND]);
    Skips(g, t, x);
    RxThen(g, t, x, t, [FEND]);
    One(g, t, FEND);
    assert Line(frame) == [FEND] + (x + [FEND]);
  }

  // ---------------------------------------------------------------- what is handed on

  /** The frame of a packet with its checksum: that of the data, or that of the whole frame. */
  predicate Genuine(v: Version, frame: seq<bv8>, p: Packet) {
    Strip(v, frame).Some? &&
    var q := Strip(v, frame).value;
    && q.id == p.id && |q.data| == |p.data| + 4 && p.data <= q.data
    && (Append(|q.data|, p.data) == Some(q.data) || SumOfFrame(v, q))
  }

  lemma AcceptedExactly(v: Version, frame: seq<bv8>, p: Packet)
    ensures Accept(v, frame) == Some(p) <==> Genuine(v, frame, p)
  {
    hide Strip, Verify, SumOfFrame, Append;
    if Strip(v, frame).Some? {
      VerifiedExactly(v, Strip(v, frame).value, p);
    }
  }

  /** Only the byte that ends a frame hands a packet on: that of the frame received. */
  lemma ByteHandsOn(g: Setting, s: Decoder, b: bv8, p: Packet)
    requires p in RxByte(g, s, b).sent
    ensures b == FEND && s.mode.Started? && 0 < |s.frame| < g.max && Genuine(g.v, s.frame, p)
  {
    hide Accept, Genuine;
    AcceptedExactly(g.v, s.frame, p);
  }

  /** Whatever is received, every packet handed on came in a frame below the receive limit, with its checksum. */
  lemma {:induction false} HandedOnGenuine(g: Setting, s: Decoder, buf: seq<bv8>, p: Packet) returns (frame: seq<bv8>)
    requires p in Rx(g, s, buf).sent
    ensures 0 < |frame| < g.max && Genuine(g.v, frame, p)
    decreases buf
  {
    hide RxByte, Genuine;
    if p in RxByte(g, s, buf[0]).sent {
      ByteHandsOn(g, s, buf[0], p);
      frame := s.frame;
    } else {
      frame := HandedOnGenuine(g, RxByte(g, s, buf[0]).s, buf[1..], p);
    }
  }

  /** A frame whose data was damaged within four consecutive bytes after its checksum was appended is dropped, unless
      the old checksum happens to be that of the damaged frame. */
  lemma DamagedFrameDropped(g: Setting, s: Decoder, p: Packet, head: seq<bv8>, m: seq<bv8>, n: seq<bv8>, tail: seq<bv8>)
    requires Between(s) && Valid(s) && g.mem && Fits(g, p)
    requires p.data == head + m + tail && |m| == |n| <= 4 && m != n
    ensures var q := p.(data := head + n + tail + Checksum(p.data));
            Rx(g, s, Line(Prepend(g.v, q))).sent == [] <==> !SumOfFrame(g.v, q)
  {
    hide Rx, Header, Checksum, Line, SumOfFrame, Verify, Strip;
    var q := p.(data := head + n + tail + Checksum(p.data));
    DamageRejected(g.v, p, head, m, n, tail);
    HeaderRoundTrip(g.v, q);
    FrameTaken(g, s, Prepend(g.v, q));
  }

  // ---------------------------------------------------------------- resynchronisation

  /** Where the first two bytes of a frame leave a decoder. */
  predicate Lost(g: Setting, s: Decoder) { s.mode.NotStarted? || (Inside(s) && |s.frame| <= g.max) }

  /** Bytes that end nothing: inside or waiting, it hands nothing on. */
  lemma {:induction false} InsideOrLost(g: Setting, s: Decoder, x: seq<bv8>)
    requires Valid(s) && Lost(g, s)
    ensures Rx(g, s, EscapeAll(x)).sent == []
    ensures var t := Rx(g, s, EscapeAll(x)).s;
            Valid(t) && (s.mode.NotStarted? ==> t.mode.NotStarted?)
            && (t.mode.NotStarted? || (Inside(t) && (x != [] ==> t.frame != [])))
    decreases x
  {
    hide Rx, EscapeAll;
    if s.mode.NotStarted? {
      EscapedHasNoEnd(x);
      WaitsForEnd(g, s, EscapeAll(x));
      RxKeepsValid(g, s, EscapeAll(x));
    } else if |s.frame| + |x| <= g.max {
      TakeBytes(g, s, x);
    } else {
      var k := g.max - |s.frame|;
      TakeBytes(g, s, x[..k]);
      EscapeSplits(x[..k], x[k..]);
      assert x == x[..k] + x[k..];
      var t := Rx(g, s, EscapeAll(x[..k])).s;
      RxAppend(g, s, EscapeAll(x[..k]), EscapeAll(x[k..]));
      EscapedHasNoEnd(x[k..]);
      EscapeNonEmpty(x[k..]);
      GivesUp(g, t, EscapeAll(x[k..]));
      RxKeepsValid(g, t, EscapeAll(x[k..]));
    }
  }

  lemma {:induction false} EscapeSplits(x: seq<bv8>, y: seq<bv8>)
    ensures EscapeAll(x + y) == EscapeAll(x) + EscapeAll(y)
    decreases x
  {
    if x == [] {
      assert x + y == y;
    } else {
      assert (x + y)[1..] == x[1..] + y;
      EscapeSplits(x[1..], y);
    }
  }

  lemma EscapeNonEmpty(x: seq<bv8>)
    requires x != []
    ensures EscapeAll(x) != []
  {
  }

  /** A full decoder gives the frame up at the next byte. */
  lemma GivesUp(g: Setting, s: Decoder, x: seq<bv8>)
    requires |s.frame| >= g.max && NoEnd(x) && x != []
    ensures Rx(g, s, x).s.mode.NotStarted? && Rx(g, s, x).sent == []
  {
    assert x[0] != FEND;
    assert NoEnd(x[1..]);
    WaitsForEnd(g, RxByte(g, s, x[0]).s, x[1..]);
  }

  lemma FirstTwoBytes(g: Setting, s: Decoder)
    requires Valid(s) && g.mem && g.max > 0
    ensures var o := Rx(g, s, [FEND, TNC_DATA]);
            Valid(o.s) && Lost(g, o.s) && |o.sent| <= 1 && (o.sent != [] ==> o.s.mode.NotStarted?)
  {
    Two(g, s, FEND, TNC_DATA);
  }

  lemma LastByte(g: Setting, s: Decoder)
    requires Valid(s) && g.mem && (s.mode.NotStarted? || (Inside(s) && s.frame != []))
    ensures var o := RxByte(g, s, FEND);
            Between(o.s) && Valid(o.s) && |o.sent| <= 1 && (s.mode.NotStarted? ==> o.sent == [])
  {
  }

  /** From any decoder, one whole frame leaves it between frames, and hands on at most one packet. */
  lemma FrameResyncs(g: Setting, s: Decoder, frame: seq<bv8>)
    requires Valid(s) && g.mem && g.max > 0 && frame != []
    ensures Between(Rx(g, s, Line(frame)).s) && Valid(Rx(g, s, Line(frame)).s)
    ensures |Rx(g, s, Line(frame)).sent| <= 1
  {
    LineSplits(g, s, frame);
    FirstTwoBytes(g, s);
    var a := Rx(g, s, [FEND, TNC_DATA]);
    InsideOrLost(g, a.s, frame);
    LastByte(g, Rx(g, a.s, EscapeAll(frame)).s);
  }

  // ---------------------------------------------------------------- packets

  /** The packets the decoder can take: the header carries the identifier, and the frame is shorter than the
      receive limit. */
  predicate Fits(g: Setting, p: Packet) { InRange(g.v, p.id) && HeaderSize(g.v) + |p.data| + 4 < g.max }

  lemma FrameAccepted(g: Setting, p: Packet)
    requires InRange(g.v, p.id) && |p.data| + 4 <= g.max
    ensures |FrameOf(g.v, g.max, p)| == HeaderSize(g.v) + |p.data| + 4
    ensures Accept(g.v, FrameOf(g.v, g.max, p)) == Some(p)
  {
    hide Checksum, Header;
    AppendVerifies(g.v, g.max, p);
    HeaderRoundTrip(g.v, p.(data := Append(g.max, p.data).value));
  }

  lemma {:induction false} FramesTaken(g: Setting, s: Decoder, ps: seq<Packet>)
    requires Between(s) && Valid(s) && g.mem && forall p <- ps :: Fits(g, p)
    ensures Rx(g, s, EncodeAll(g.v, g.max, ps)).sent == ps
    decreases ps
  {
    hide Line, FrameOf, Accept, RxByte;
    if ps != [] {
      assert ps[0] in ps;
      var f := FrameOf(g.v, g.max, ps[0]);
      FrameAccepted(g, ps[0]);
      FrameTaken(g, s, f);
      RxAppend(g, s, Line(f), EncodeAll(g.v, g.max, ps[1..]));
      RxKeepsValid(g, s, Line(f));
      FramesTaken(g, Rx(g, s, Line(f)).s, ps[1..]);
      assert [ps[0]] + ps[1..] == ps;
    }
  }

  /** The decoder csp_kiss_add_interface sets up. */
  const RESET := Decoder(NotStarted, [], false, false)

  /** KISS round trip: packets that fit, encoded, concatenated and cut into any chunks, decode to themselves. */
  lemma RoundTrip(g: Setting, ps: seq<Packet>, chunks: seq<seq<bv8>>)
    requires g.mem && forall p <- ps :: Fits(g, p)
    requires Concat(chunks) == EncodeAll(g.v, g.max, ps)
    ensures RxChunks(g, RESET, chunks).sent == ps
  {
    ChunksDoNotMatter(g, RESET, chunks);
    FramesTaken(g, RESET, ps);
  }

  /** Between any decoder and the second of a list of packets, at most one packet is handed on. */
  lemma FirstLostAtMost(g: Setting, s: Decoder, ps: seq<Packet>) returns (before: seq<Packet>)
    requires Valid(s) && g.mem && ps != [] && forall p <- ps :: Fits(g, p)
    ensures |before| <= 1 && Rx(g, s, EncodeAll(g.v, g.max, ps)).sent == before + ps[1..]
  {
    var f := FrameOf(g.v, g.max, ps[0]);
    assert ps[0] in ps;
    FrameAccepted(g, ps[0]);
    FrameResyncs(g, s, f);
    RxAppend(g, s, Line(f), EncodeAll(g.v, g.max, ps[1..]));
    FramesTaken(g, Rx(g, s, Line(f)).s, ps[1..]);
    before := Rx(g, s, Line(f)).sent;
  }

  /** KISS resynchronisation: after any bytes, from any decoder, a stream of encoded packets cut into any chunks
      loses at most its first; at most one other packet is handed on before the second. */
  lemma Resynchronises(g: Setting, s: Decoder, noise: seq<bv8>, ps: seq<Packet>, chunks: seq<seq<bv8>>)
    returns (before: seq<Packet>)
    requires Valid(s) && g.mem && ps != [] && forall p <- ps :: Fits(g, p)
    requires Concat(chunks) == noise + EncodeAll(g.v, g.max, ps)
    ensures |before| <= 1
    ensures RxChunks(g, s, chunks).sent == Rx(g, s, noise).sent + before + ps[1..]
  {
    ChunksDoNotMatter(g, s, chunks);
    RxAppend(g, s, noise, EncodeAll(g.v, g.max, ps));
    RxKeepsValid(g, s, noise);
    before := FirstLostAtMost(g, Rx(g, s, noise).s, ps);
  }

  /** As many bytes as there is room for, and more, leave the decoder full or waiting. */
  lemma Overfull(g: Setting, s: Decoder, x: seq<bv8>)
    requires Inside(s) && |s.frame| <= g.max <= |s.frame| + |x|
    ensures var o := Rx(g, s, EscapeAll(x)); o.sent == [] && (o.s.mode.NotStarted? || |o.s.frame| >= g.max)
  {
    var k := g.max - |s.frame|;
    var y, z := x[..k], x[k..];
    assert x == y + z;
    EscapeSplits(y, z);
    TakeBytes(g, s, y);
    RxAppend(g, s, EscapeAll(y), EscapeAll(z));
    if z != [] {
      EscapedHasNoEnd(z);
      EscapeNonEmpty(z);
      GivesUp(g, s.(frame := s.frame + y), EscapeAll(z));
    }
  }

  /** A frame as long as the receive limit, or longer, is given up. */
  lemma LongFrameLost(g: Setting, s: Decoder, frame: seq<bv8>)
    requires Between(s) && Valid(s) && g.mem && |frame| >= g.max > 0
    ensures Rx(g, s, Line(frame)).sent == []
  {
    LineSplits(g, s, frame);
    StartOfFrame(g, s);
    Overfull(g, Decoder(Started, [], false, true), frame);
  }

  /** The receive limit is tighter than the transmit limit: a packet the encoder has room to checksum is delivered
      exactly if header, data and checksum together stay below the limit. */
  lemma DeliveredExactlyIfFits(g: Setting, p: Packet)
    requires g.mem && InRange(g.v, p.id) && |p.data| + 4 <= g.max
    ensures Rx(g, RESET, Encode(g.v, g.max, p)).sent == (if Fits(g, p) then [p] else [])
  {
    FrameAccepted(g, p);
    if Fits(g, p) {
      FrameTaken(g, RESET, FrameOf(g.v, g.max, p));
    } else {
      LongFrameLost(g, RESET, FrameOf(g.v, g.max, p));
    }
  }

  // ---------------------------------------------------------------- the code

  lemma EscapeTurn(frame: seq<bv8>, i: nat, line: seq<bv8>)
    requires i < |frame|
    ensures line + EscapeAll(frame[i..]) == line + Escape(frame[i]) + EscapeAll(frame[i + 1..])
  {
  }

  /** csp_kiss_tx: what is written to the line. */
  method Tx(v: Version, size: nat, p: Packet) returns (line: seq<bv8>)
    ensures line == Encode(v, size, p)
  {
    var c := Append(size, p.data);
    var frame := Prepend(v, if c.Some? then p.(data := c.value) else p);
    line := [FEND, TNC_DATA];
    var i := 0;
    while i < |frame|
      invariant 0 <= i <= |frame|
      invariant line + EscapeAll(frame[i..]) == [FEND, TNC_DATA] + EscapeAll(frame)
    {
      var b := frame[i];
      EscapeTurn(frame, i, line);
      if b == FEND {
        line := line + [FESC, TFEND];
      } else if b == FESC {
        line := line + [FESC, TFESC];
      } else {
        line := line + [b];
      }
      i := i + 1;
    }
    assert frame[i..] == [];
    line := line + [FEND];
  }

  /** The receiving half of a KISS interface. */
  class Interface {
    const v: Version
    const max_rx_length: nat
    /** The bytes at frame_begin of the packet being received. */
    const frame_begin: array<bv8>
    var rx_mode: Mode
    var rx_length: nat
    var rx_first: bool
    var rx_packet: bool
    /** The packets handed to csp_qfifo_write. */
    var sent: seq<Packet>

    ghost predicate Ok()
      reads this
    {
      rx_length <= max_rx_length <= frame_begin.Length
      && (rx_mode.Started? || rx_mode.Escaped? ==> rx_packet)
    }

    ghost function State(): Decoder
      requires Ok()
      reads this, frame_begin
    {
      Decoder(rx_mode, frame_begin[..rx_length], rx_first, rx_packet)
    }

    constructor (version: Version, size: nat)
      ensures Ok() && fresh(frame_begin) && v == version && max_rx_length == size
      ensures State() == RESET && sent == []
    {
      v := version;
      max_rx_length := size;
      frame_begin := new bv8[size];
      rx_mode := NotStarted;
      rx_length := 0;
      rx_first := false;
      rx_packet := false;
      sent := [];
    }

    method Store(b: bv8)
      requires Ok() && rx_length < max_rx_length
      modifies this`rx_length, frame_begin
      ensures Ok()
      ensures State() == old(State()).(frame := old(State().frame) + [b])
    {
      frame_begin[rx_length] := b;
      rx_length := rx_length + 1;
      assert frame_begin[..rx_length] == old(frame_begin[..rx_length]) + [b];
    }

    /** One byte of csp_kiss_rx. */
    method Byte(b: bv8, mem: bool)
      requires Ok()
      modifies this, frame_begin
      ensures Ok()
      ensures var o := RxByte(Setting(v, max_rx_length, mem), old(State()), b);
              State() == o.s && sent == old(sent) + o.sent
    {
      if rx_length >= max_rx_length {
        rx_mode := NotStarted;
        rx_length := 0;
      }
      match rx_mode {
        case NotStarted =>
          if b == FEND {
            if !rx_packet {
              rx_packet := mem;
            }
            if !rx_packet {
              rx_mode := SkipFrame;
            } else {
              rx_length := 0;
              rx_mode := Started;
              rx_first := true;
            }
          }
        case Started =>
          if b == FESC {
            rx_mode := Escaped;
          } else if b == FEND {
            if rx_length > 0 {
              var p := Strip(v, frame_begin[..rx_length]);
              rx_mode := NotStarted;
              if p.Some? {
                var q := Verify(v, p.value);
                if q.Some? {
                  sent := sent + [q.value];
                  rx_packet := false;
                }
              }
            }
          } else if rx_first {
            rx_first := false;
          } else {
            Store(b);
          }
        case Escaped =>
          if b == TFESC {
            Store(FESC);
          }
          if b == TFEND {
            Store(FEND);
          }
          rx_mode := Started;
        case SkipFrame =>
          if b == FEND {
            rx_mode := NotStarted;
          }
      }
    }

    /** csp_kiss_rx; `mem` says whether the pool has a buffer to give during the call. */
    method Receive(buf: seq<bv8>, mem: bool)
      requires Ok()
      modifies this, frame_begin
      ensures Ok()
      ensures var o := Rx(Setting(v, max_rx_length, mem), old(State()), buf);
              State() == o.s && sent == old(sent) + o.sent
    {
      var i := 0;
      ghost var g := Setting(v, max_rx_length, mem);
      ghost var start := State();
      while i < |buf|
        invariant 0 <= i <= |buf| && Ok()
        invariant old(sent) <= sent && Rx(g, start, buf[..i]) == Out(State(), sent[|old(sent)|..])
      {
        ghost var t, out := State(), sent[|old(sent)|..];
        Byte(buf[i], mem);
        RxSnoc(g, start, buf, i, t, out, Out(State(), sent[|old(sent)| + |out|..]));
        i := i + 1;
      }
      assert buf[..i] == buf;
    }
  }
}
