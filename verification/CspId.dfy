/** The packed CSP header, version 1 (32 bits) and version 2 (48 bits). */
module CspId {
  import opened Base

  /** csp_id_t, with the widths of its fields. */
  datatype Id = Id(pri: bv8, flags: bv8, src: bv16, dst: bv16, dport: bv8, sport: bv8)

  /** A packet: its identifier and its data (`length` is the number of data bytes). */
  datatype Packet = Packet(id: Id, data: seq<bv8>)

  /** The version both ends are configured with (csp_conf.version: 2, or anything else). */
  datatype Version = V1 | V2

  function HeaderSize(v: Version): nat { if v.V2? then 6 else 4 }

  /** The fields fit the widths of the packed header. */
  predicate InRange(v: Version, id: Id) {
    if v.V2? then id.pri < 4 && id.dst < 0x4000 && id.src < 0x4000 && id.dport < 64 && id.sport < 64 && id.flags < 64
    else id.pri < 4 && id.dst < 32 && id.src < 32 && id.dport < 64 && id.sport < 64
  }

  // ---------------------------------------------------------------- network byte order

  function Byte(w: bv32, shift: bv5): bv8 { ((w >> shift) & 0xFF) as bv8 }

  /** htobe32 and memcpy. */
  function ToBytes(w: bv32): (s: seq<bv8>)
    ensures |s| == 4
  {
    [Byte(w, 24), Byte(w, 16), Byte(w, 8), Byte(w, 0)]
  }

  function Join4(a: bv8, b: bv8, c: bv8, d: bv8): bv32 {
    ((a as bv32) << 24) | ((b as bv32) << 16) | ((c as bv32) << 8) | (d as bv32)
  }

  /** memcpy and be32toh. */
  function FromBytes(s: seq<bv8>): bv32
    requires |s| == 4
  {
    Join4(s[0], s[1], s[2], s[3])
  }

  lemma JoinBytes(w: bv32)
    ensures Join4(Byte(w, 24), Byte(w, 16), Byte(w, 8), Byte(w, 0)) == w
  {
  }

  lemma JoinedBytes(a: bv8, b: bv8, c: bv8, d: bv8)
    ensures ToBytes(Join4(a, b, c, d)) == [a, b, c, d]
  {
  }

  lemma BytesRoundTrip(w: bv32)
    ensures FromBytes(ToBytes(w)) == w
  {
    hide Byte, Join4;
    JoinBytes(w);
  }

  /** The number of a byte, and the byte of a number. */
  function Value(b: bv8): nat { b as nat }

  function Octet(n: nat): (b: bv8)
    requires n < 256
    ensures Value(b) == n
    decreases n
  {
    if n == 0 then 0 else
      NextValue(Octet(n - 1));
      Octet(n - 1) + 1
  }

  lemma NextValue(b: bv8)
    requires Value(b) < 255
    ensures Value(b + 1) == Value(b) + 1
  {
  }

  /** The header moved to the most significant end of 64 bits, and back. */
  function Up(w: bv64): bv64 { w << 16 }

  function DownTo48(w: bv64): bv64 { w >> 16 }

  function Byte64(w: bv64, shift: bv6): bv8 { ((w >> shift) & 0xFF) as bv8 }

  /** htobe64, of which the first six bytes are copied. */
  function ToBytes6(w: bv64): (s: seq<bv8>)
    ensures |s| == 6
  {
    [Byte64(w, 56), Byte64(w, 48), Byte64(w, 40), Byte64(w, 32), Byte64(w, 24), Byte64(w, 16)]
  }

  function Join6(a: bv8, b: bv8, c: bv8, d: bv8, e: bv8, f: bv8): bv64 {
    ((a as bv64) << 56) | ((b as bv64) << 48) | ((c as bv64) << 40) | ((d as bv64) << 32) | ((e as bv64) << 24)
    | ((f as bv64) << 16)
  }

  /** Six bytes copied into a zero word, and be64toh. */
  function FromBytes6(s: seq<bv8>): bv64
    requires |s| == 6
  {
    Join6(s[0], s[1], s[2], s[3], s[4], s[5])
  }

  lemma JoinBytes6(w: bv64)
    requires Padded(w)
    ensures Join6(Byte64(w, 56), Byte64(w, 48), Byte64(w, 40), Byte64(w, 32), Byte64(w, 24), Byte64(w, 16)) == w
  {
  }

  // ---------------------------------------------------------------- packing

  function Pack1(id: Id): bv32 {
    ((id.pri as bv32) << 30) | ((id.dst as bv32) << 20) | ((id.src as bv32) << 25)
    | ((id.dport as bv32) << 14) | ((id.sport as bv32) << 8) | (id.flags as bv32)
  }

  function Unpack1(w: bv32): Id {
    Id(((w >> 30) & 0x3) as bv8, (w & 0xFF) as bv8, ((w >> 25) & 0x1F) as bv16, ((w >> 20) & 0x1F) as bv16,
       ((w >> 14) & 0x3F) as bv8, ((w >> 8) & 0x3F) as bv8)
  }

  function Pack2(id: Id): bv64 {
    ((id.pri as bv64) << 46) | ((id.dst as bv64) << 32) | ((id.src as bv64) << 18)
    | ((id.dport as bv64) << 12) | ((id.sport as bv64) << 6) | (id.flags as bv64)
  }

  function Unpack2(w: bv64): Id {
    Id(((w >> 46) & 0x3) as bv8, (w & 0x3F) as bv8, ((w >> 18) & 0x3FFF) as bv16, ((w >> 32) & 0x3FFF) as bv16,
       ((w >> 12) & 0x3F) as bv8, ((w >> 6) & 0x3F) as bv8)
  }

  lemma Pack1Inverts(pri: bv8, flags: bv8, src: bv16, dst: bv16, dport: bv8, sport: bv8)
    requires pri < 4 && dst < 32 && src < 32 && dport < 64 && sport < 64
    ensures Unpack1(Pack1(Id(pri, flags, src, dst, dport, sport))) == Id(pri, flags, src, dst, dport, sport)
  {
  }

  lemma Pack2Inverts(pri: bv8, flags: bv8, src: bv16, dst: bv16, dport: bv8, sport: bv8)
    requires pri < 4 && dst < 0x4000 && src < 0x4000 && dport < 64 && sport < 64 && flags < 64
    ensures Unpack2(Pack2(Id(pri, flags, src, dst, dport, sport))) == Id(pri, flags, src, dst, dport, sport)
  {
  }

  lemma Unpack1InRange(w: bv32)
    ensures InRange(V1, Unpack1(w))
  {
  }

  lemma Unpack2InRange(w: bv64)
    ensures InRange(V2, Unpack2(w))
  {
  }

  predicate Short(w: bv64) { w >> 48 == 0 }

  predicate Padded(w: bv64) { w & 0xFFFF == 0 }

  lemma ShiftUpAndDown(w: bv64)
    requires Short(w)
    ensures Padded(Up(w)) && DownTo48(Up(w)) == w
  {
  }

  lemma Pack2Fits(pri: bv8, flags: bv8, src: bv16, dst: bv16, dport: bv8, sport: bv8)
    requires pri < 4
    ensures Short(Pack2(Id(pri, flags, src, dst, dport, sport)))
  {
  }

  // ---------------------------------------------------------------- prepend and strip

  /** The header bytes csp_id_prepend writes in front of the data. */
  function Header(v: Version, id: Id): (h: seq<bv8>)
    ensures |h| == HeaderSize(v)
  {
    if v.V2? then ToBytes6(Up(Pack2(id))) else ToBytes(Pack1(id))
  }

  /** csp_id_prepend: the whole frame. */
  function Prepend(v: Version, p: Packet): seq<bv8> { Header(v, p.id) + p.data }

  /** csp_id_strip: None where the frame is shorter than the header. */
  function Strip(v: Version, frame: seq<bv8>): Option<Packet> {
    if |frame| < HeaderSize(v) then None
    else if v.V2? then Some(Packet(Unpack2(DownTo48(FromBytes6(frame[..6]))), frame[6..]))
    else Some(Packet(Unpack1(FromBytes(frame[..4])), frame[4..]))
  }

  lemma Header1Inverts(id: Id)
    requires InRange(V1, id)
    ensures Unpack1(FromBytes(Header(V1, id))) == id
  {
    Pack1Inverts(id.pri, id.flags, id.src, id.dst, id.dport, id.sport);
    hide FromBytes, ToBytes, Unpack1, Pack1, InRange;
    BytesRoundTrip(Pack1(id));
  }

  lemma Bytes6RoundTrip(w: bv64)
    requires Short(w)
    ensures FromBytes6(ToBytes6(Up(w))) == Up(w) && DownTo48(Up(w)) == w
  {
    hide Byte64, Join6, Short, Padded, Up, DownTo48;
    ShiftUpAndDown(w);
    JoinBytes6(Up(w));
  }

  lemma Header2Inverts(id: Id)
    requires InRange(V2, id)
    ensures Unpack2(DownTo48(FromBytes6(Header(V2, id)))) == id
  {
    Pack2Fits(id.pri, id.flags, id.src, id.dst, id.dport, id.sport);
    Pack2Inverts(id.pri, id.flags, id.src, id.dst, id.dport, id.sport);
    hide FromBytes6, ToBytes6, Unpack2, Pack2, InRange, Short, Up, DownTo48;
    Bytes6RoundTrip(Pack2(id));
  }

  /** The packed bytes give the identifier back. */
  lemma HeaderInverts(v: Version, id: Id)
    requires InRange(v, id)
    ensures v.V2? ==> Unpack2(DownTo48(FromBytes6(Header(v, id)))) == id
    ensures v.V1? ==> Unpack1(FromBytes(Header(v, id))) == id
  {
    hide FromBytes, FromBytes6, Unpack1, Unpack2, Header, InRange;
    if v.V2? {
      Header2Inverts(id);
    } else {
      Header1Inverts(id);
    }
  }

  lemma StripInRange(v: Version, frame: seq<bv8>)
    requires |frame| >= HeaderSize(v)
    ensures InRange(v, Strip(v, frame).value.id)
  {
    hide FromBytes, FromBytes6, Unpack1, Unpack2, InRange;
    if v.V2? {
      Unpack2InRange(DownTo48(FromBytes6(frame[..6])));
    } else {
      Unpack1InRange(FromBytes(frame[..4]));
    }
  }

  /** Header round trip: strip inverts prepend exactly for the identifiers whose fields fit. */
  lemma HeaderRoundTrip(v: Version, p: Packet)
    ensures Strip(v, Prepend(v, p)) == Some(p) <==> InRange(v, p.id)
  {
    hide FromBytes, FromBytes6, Unpack1, Unpack2, Header, InRange;
    var f := Prepend(v, p);
    assert f[..HeaderSize(v)] == Header(v, p.id) && f[HeaderSize(v)..] == p.data;
    StripInRange(v, f);
    if InRange(v, p.id) {
      HeaderInverts(v, p.id);
    }
  }
}
