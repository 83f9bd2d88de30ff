/** The formats on the wire, byte by byte: where every field of a packet ends up, told without the functions that put it
    there. */
module Formats {
  import opened Base
  import opened CspId
  import CanPbuf
  import Can1
  import Can2
  import Sfp
  import Kiss
  import Crc32
  import CrcDivision
  import CrcTable
  import CrcPacket

  // ---------------------------------------------------------------- the packed header

  /** Version 1: two bits of priority, five of source, five of destination, six of each port, eight of flags. */
  lemma Header1Layout(id: Id)
    requires InRange(V1, id)
    ensures Header(V1, id) == [(id.pri << 6) | ((id.src as bv8) << 1) | ((id.dst >> 4) as bv8),
                               (((id.dst & 0xF) as bv8) << 4) | (id.dport >> 2),
                               ((id.dport & 3) << 6) | id.sport,
                               id.flags]
  {
  }

  /** Version 2: two bits of priority, fourteen of destination, fourteen of source, six of each port, six of flags. */
  lemma Header2Layout(id: Id)
    requires InRange(V2, id)
    ensures Header(V2, id) == [(id.pri << 6) | ((id.dst >> 8) as bv8),
                               (id.dst & 0xFF) as bv8,
                               (id.src >> 6) as bv8,
                               (((id.src & 0x3F) as bv8) << 2) | (id.dport >> 4),
                               ((id.dport & 0xF) << 4) | (id.sport >> 2),
                               ((id.sport & 3) << 6) | id.flags]
  {
  }

  // ---------------------------------------------------------------- CAN identifiers

  function Field(id: bv32, shift: bv5, mask: bv32): bv32 { (id >> shift) & mask }

  lemma Can1Source(src: bv16, dest: bv8, ident: bv32, more: bool, x: bv8)
    ensures Field(CanPbuf.With(Can1.Fields(src, dest, ident), Can1.Bits(more, x)), 24, 0x1F) == (src & 0x1F) as bv32
  {
  }

  lemma Can1Dest(src: bv16, dest: bv8, ident: bv32, more: bool, x: bv8)
    ensures Field(CanPbuf.With(Can1.Fields(src, dest, ident), Can1.Bits(more, x)), 19, 0x1F) == (dest & 0x1F) as bv32
  {
  }

  lemma Can1Type(src: bv16, dest: bv8, ident: bv32, more: bool, x: bv8)
    ensures Field(CanPbuf.With(Can1.Fields(src, dest, ident), Can1.Bits(more, x)), 18, 1) == (if more then 1 else 0)
  {
  }

  lemma Can1Remain(src: bv16, dest: bv8, ident: bv32, more: bool, x: bv8)
    ensures Field(CanPbuf.With(Can1.Fields(src, dest, ident), Can1.Bits(more, x)), 10, 0xFF) == x as bv32
  {
  }

  lemma Can1Ident(src: bv16, dest: bv8, ident: bv32, more: bool, x: bv8)
    ensures Field(CanPbuf.With(Can1.Fields(src, dest, ident), Can1.Bits(more, x)), 0, 0x3FF) == ident & 0x3FF
  {
  }

  /** CFP 1: bits 24 to 28 are the source, 19 to 23 the destination, 18 the type, 10 to 17 what remains, 0 to 9 the
      identification. */
  lemma Can1Layout(src: bv16, dest: bv8, ident: bv32, more: bool, remain: nat)
    ensures var id := Can1.CanId(src, dest, ident, more, remain);
            && Field(id, 24, 0x1F) == (src & 0x1F) as bv32 && Field(id, 19, 0x1F) == (dest & 0x1F) as bv32
            && Field(id, 18, 1) == (if more then 1 else 0) && Field(id, 10, 0xFF) == Octet(remain % 256) as bv32
            && Field(id, 0, 0x3FF) == ident & 0x3FF
  {
    hide Octet, Field, CanPbuf.With, Can1.Fields, Can1.Bits;
    var x := Octet(remain % 256);
    Can1Source(src, dest, ident, more, x);
    Can1Dest(src, dest, ident, more, x);
    Can1Type(src, dest, ident, more, x);
    Can1Remain(src, dest, ident, more, x);
    Can1Ident(src, dest, ident, more, x);
  }

  lemma Can2Priority(pri: bv8, dst: bv16, addr: bv16, count: bv32, begin: bool, end: bool, x: bv8)
    ensures Field(CanPbuf.With(Can2.Fields(pri, dst, addr, count), Can2.Bits(begin, end, x)), 27, 3)
         == (pri & 3) as bv32
  {
  }

  lemma OverBits(w: bv32, begin: bool, end: bool, x: bv8)
    ensures Field(CanPbuf.With(w, Can2.Bits(begin, end, x)), 13, 0x3FFF) == Field(w, 13, 0x3FFF)
  {
  }

  lemma DestInFields(pri: bv8, dst: bv16, addr: bv16, count: bv32)
    ensures Field(Can2.Fields(pri, dst, addr, count), 13, 0x3FFF) == (dst & 0x3FFF) as bv32
  {
  }

  lemma Can2Dest(pri: bv8, dst: bv16, addr: bv16, count: bv32, begin: bool, end: bool, x: bv8)
    ensures Field(CanPbuf.With(Can2.Fields(pri, dst, addr, count), Can2.Bits(begin, end, x)), 13, 0x3FFF)
         == (dst & 0x3FFF) as bv32
  {
    hide Field, CanPbuf.With, Can2.Fields, Can2.Bits;
    OverBits(Can2.Fields(pri, dst, addr, count), begin, end, x);
    DestInFields(pri, dst, addr, count);
  }

  lemma Can2Sender(pri: bv8, dst: bv16, addr: bv16, count: bv32, begin: bool, end: bool, x: bv8)
    ensures Field(CanPbuf.With(Can2.Fields(pri, dst, addr, count), Can2.Bits(begin, end, x)), 7, 0x3F)
         == (addr & 0x1F) as bv32
  {
  }

  lemma Can2Count(pri: bv8, dst: bv16, addr: bv16, count: bv32, begin: bool, end: bool, x: bv8)
    ensures Field(CanPbuf.With(Can2.Fields(pri, dst, addr, count), Can2.Bits(begin, end, x)), 5, 3) == count & 3
  {
  }

  lemma Can2Number(pri: bv8, dst: bv16, addr: bv16, count: bv32, begin: bool, end: bool, x: bv8)
    ensures Field(CanPbuf.With(Can2.Fields(pri, dst, addr, count), Can2.Bits(begin, end, x)), 2, 7) == (x & 7) as bv32
  {
  }

  lemma Can2Ends(pri: bv8, dst: bv16, addr: bv16, count: bv32, begin: bool, end: bool, x: bv8)
    ensures var id := CanPbuf.With(Can2.Fields(pri, dst, addr, count), Can2.Bits(begin, end, x));
            Field(id, 1, 1) == (if begin then 1 else 0) && Field(id, 0, 1) == (if end then 1 else 0)
  {
  }

  /** CFP 2: bits 27 and 28 are the priority, 13 to 26 the destination, 7 to 12 the low bits of the sender, 5 and 6 the
      sender's count, 2 to 4 the fragment number, 1 and 0 begin and end. */
  lemma Can2Layout(pri: bv8, dst: bv16, addr: bv16, count: bv32, begin: bool, end: bool, m: nat)
    ensures var id := Can2.CanId(Can2.Fields(pri, dst, addr, count), begin, end, m);
            && Field(id, 27, 3) == (pri & 3) as bv32 && Field(id, 13, 0x3FFF) == (dst & 0x3FFF) as bv32
            && Field(id, 7, 0x3F) == (addr & 0x1F) as bv32 && Field(id, 5, 3) == count & 3
            && Field(id, 2, 7) == (Octet(m % 8) & 7) as bv32 && Field(id, 1, 1) == (if begin then 1 else 0)
            && Field(id, 0, 1) == (if end then 1 else 0)
  {
    hide Octet, Field, CanPbuf.With, Can2.Fields, Can2.Bits;
    var x := Octet(m % 8);
    Can2Priority(pri, dst, addr, count, begin, end, x);
    Can2Dest(pri, dst, addr, count, begin, end, x);
    Can2Sender(pri, dst, addr, count, begin, end, x);
    Can2Count(pri, dst, addr, count, begin, end, x);
    Can2Number(pri, dst, addr, count, begin, end, x);
    Can2Ends(pri, dst, addr, count, begin, end, x);
  }

  // ---------------------------------------------------------------- CAN frames

  /** The length field, most significant byte first. */
  lemma LengthBytes(n: nat)
    requires n < 0x10000
    ensures Value(Can1.ToBe16(n)[0]) == n / 256 && Value(Can1.ToBe16(n)[1]) == n % 256
  {
    hide Octet, Value;
  }

  lemma {:induction false} Can1Tail(j: Can1.Job, tx: nat, i: nat)
    requires tx <= |j.packet.data| && i < |Can1.Tail(j, tx)|
    ensures |Can1.Tail(j, tx)| == (|j.packet.data| - tx + 7) / 8 && tx + 8 * i < |j.packet.data|
    ensures Can1.Tail(j, tx)[i] == Can1.MoreFrame(j, tx + 8 * i)
    decreases i
  {
    hide Can1.MoreFrame;
    var next := tx + Min(8, |j.packet.data| - tx);
    Can1TailLength(j, tx);
    if i > 0 {
      Can1Tail(j, next, i - 1);
    }
  }

  lemma {:induction false} Can1TailLength(j: Can1.Job, tx: nat)
    requires tx <= |j.packet.data|
    ensures |Can1.Tail(j, tx)| == (|j.packet.data| - tx + 7) / 8
    decreases |j.packet.data| - tx
  {
    hide Can1.MoreFrame;
    if tx < |j.packet.data| {
      Can1TailLength(j, tx + Min(8, |j.packet.data| - tx));
    }
  }

  /** The frames of CFP 1: the first carries the header, the length and up to two bytes, each other the next eight
      bytes, the last what is left; `remain` counts down to zero. */
  lemma Can1Frames(j: Can1.Job, i: nat)
    requires |j.packet.data| < 0x10000 && i < |Can1.Frames(j)|
    ensures var n, fs := |j.packet.data|, Can1.Frames(j);
            && |fs| == 1 + (if n <= 2 then 0 else (n - 2 + 7) / 8)
            && fs[i].id == Can1.CanId(j.packet.id.src, j.dest, j.ident, i > 0, |fs| - 1 - i)
            && (i == 0 ==> fs[0].data == Header(V1, j.packet.id) + Can1.ToBe16(n) + j.packet.data[..Min(2, n)])
            && (i > 0 ==> 8 * i - 6 < n && fs[i].data == j.packet.data[8 * i - 6..Min(8 * i + 2, n)])
  {
    hide Can1.CanId, Header, Can1.ToBe16;
    var n := |j.packet.data|;
    Can1TailLength(j, Min(2, n));
    if i > 0 {
      Can1Tail(j, Min(2, n), i - 1);
    }
  }

  lemma {:induction false} Can2TailLength(j: Can2.Job, tx: nat, m: nat)
    requires tx <= |j.packet.data|
    ensures |Can2.Tail(j, tx, m)| == (|j.packet.data| - tx + 7) / 8
    decreases |j.packet.data| - tx
  {
    hide Can2.Fragment;
    if tx < |j.packet.data| {
      Can2TailLength(j, Can2.Next(j, tx), m + 1);
    }
  }

  lemma {:induction false} Can2Tail(j: Can2.Job, tx: nat, m: nat, i: nat)
    requires tx <= |j.packet.data| && i < |Can2.Tail(j, tx, m)|
    ensures tx + 8 * i < |j.packet.data| && Can2.Tail(j, tx, m)[i] == Can2.Fragment(j, tx + 8 * i, m + i)
    decreases i
  {
    hide Can2.Fragment;
    Can2TailLength(j, tx, m);
    if i > 0 {
      Can2TailLength(j, Can2.Next(j, tx), m + 1);
      Can2Tail(j, Can2.Next(j, tx), m + 1, i - 1);
    }
  }

  /** The frames of CFP 2: the first carries the header extension and up to four bytes, each other the next eight bytes,
      the last what is left; they are numbered from zero modulo eight, and only the last has the end bit. */
  lemma Can2Frames(j: Can2.Job, i: nat)
    requires i < |Can2.Frames(j)|
    ensures var n, fs, p := |j.packet.data|, Can2.Frames(j), j.packet;
            && |fs| == 1 + (if n <= 4 then 0 else (n - 4 + 7) / 8)
            && fs[i].id == Can2.CanId(Can2.Fields(p.id.pri, p.id.dst, j.addr, j.count), i == 0, i == |fs| - 1, i)
            && (i == 0 ==> fs[0].data == ToBytes(Can2.Extension(p.id.src, p.id.dport, p.id.sport, p.id.flags))
                                         + p.data[..Min(4, n)])
            && (i > 0 ==> 8 * i - 4 < n && fs[i].data == p.data[8 * i - 4..Min(8 * i + 4, n)])
  {
    hide Can2.CanId, Can2.Extension, Can2.Fields, ToBytes;
    var n := |j.packet.data|;
    Can2TailLength(j, Min(4, n), 1);
    if i > 0 {
      Can2Tail(j, Min(4, n), 1, i - 1);
    }
  }

  // ---------------------------------------------------------------- SFP

  /** Four bytes, most significant first. */
  lemma Be32Bytes(n: nat)
    requires n < 0x1_0000_0000
    ensures var s := Sfp.ToBe32(n);
            && Value(s[3]) == n % 256 && Value(s[2]) == n / 256 % 256 && Value(s[1]) == n / 256 / 256 % 256
            && Value(s[0]) == n / 256 / 256 / 256
  {
    hide Octet, Value;
  }

  lemma {:induction false} SfpPacketAt(id: Id, mtu: nat, data: seq<bv8>, count: nat, i: nat, at: nat)
    requires mtu > 0 && count <= |data| < 0x1_0000_0000 && i < |Sfp.Packets(id, mtu, data, count)|
    requires at == count + mtu * i
    ensures at < |data| && Sfp.Packets(id, mtu, data, count)[i]
         == Sfp.ToPacket(id, Sfp.Fragment(at, |data|, data[at..Min(at + mtu, |data|)]))
    decreases i
  {
    hide Sfp.ToPacket;
    if i > 0 {
      assert mtu * i == mtu + mtu * (i - 1);
      assert Sfp.Packets(id, mtu, data, Min(count + mtu, |data|)) != [];
      SfpPacketAt(id, mtu, data, count + mtu, i - 1, at);
    }
  }

  /** The packets of SFP: each carries the next `mtu` bytes, the last what is left, followed by their offset and the
      size of the whole, with the fragment flag set. */
  lemma SfpPackets(id: Id, mtu: nat, data: seq<bv8>, i: nat, at: nat)
    requires mtu > 0 && |data| < 0x1_0000_0000 && i < |Sfp.Packets(id, mtu, data, 0)| && at == mtu * i
    ensures var p := Sfp.Packets(id, mtu, data, 0)[i];
            && at < |data| && p.id == id.(flags := id.flags | 0x10)
            && p.data == data[at..Min(at + mtu, |data|)] + Sfp.ToBe32(at) + Sfp.ToBe32(|data|)
  {
    hide Sfp.ToBe32, Sfp.Packets;
    SfpPacketAt(id, mtu, data, 0, i, at);
  }

  // ---------------------------------------------------------------- KISS

  /** A frame with both special bytes in it, on the line. */
  lemma KissExample()
    ensures Kiss.Line([0xC0, 0x01, 0xDB]) == [0xC0, 0x00, 0xDB, 0xDC, 0x01, 0xDB, 0xDD, 0xC0]
  {
    var s: seq<bv8> := [0xC0, 0x01, 0xDB];
    assert s[1..] == [0x01, 0xDB] && s[1..][1..] == [0xDB] && s[1..][1..][1..] == [];
    assert Kiss.EscapeAll(s[1..][1..]) == [0xDB, 0xDD];
    assert Kiss.EscapeAll(s[1..]) == [0x01, 0xDB, 0xDD];
  }

  // ---------------------------------------------------------------- CRC-32C

  lemma NextByte(c: bv32, b: bv8, d: bv32, rest: seq<bv8>)
    requires CrcDivision.Feed(c, b) == d
    ensures Crc32.Divide(c, [b] + rest) == Crc32.Divide(d, rest)
  {
    hide CrcDivision.Feed;
    assert ([b] + rest)[0] == b && ([b] + rest)[1..] == rest;
  }

  /** The checksum of "abc", worked out byte by byte. */
  lemma ChecksumOfAbc()
    ensures Crc32.Crc([0x61, 0x62, 0x63]) == 0x364B3FB7
  {
    NextByte(0xFFFFFFFF, 0x61, 0x3E2FBCCF, [0x62, 0x63]);
    NextByte(0x3E2FBCCF, 0x62, 0x1D5DD6C9, [0x63]);
    NextByte(0x1D5DD6C9, 0x63, 0xC9B4C048, []);
  }

  /** The checksum is appended most significant byte first. */
  lemma AppendedToAbc()
    ensures CrcPacket.Append(7, [0x61, 0x62, 0x63]) == Some([0x61, 0x62, 0x63, 0x36, 0x4B, 0x3F, 0xB7])
  {
    hide Crc32.Crc;
    ChecksumOfAbc();
    ChecksumBytes(Crc32.Crc([0x61, 0x62, 0x63]));
    var abc: seq<bv8> := [0x61, 0x62, 0x63];
    assert CrcPacket.Checksum(abc) == [0x36, 0x4B, 0x3F, 0xB7];
    assert abc + [0x36, 0x4B, 0x3F, 0xB7] == [0x61, 0x62, 0x63, 0x36, 0x4B, 0x3F, 0xB7];
  }

  lemma ChecksumBytes(w: bv32)
    requires w == 0x364B3FB7
    ensures ToBytes(w) == [0x36, 0x4B, 0x3F, 0xB7]
  {
  }
}
