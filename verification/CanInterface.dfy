/** A CAN interface: csp_can1_rx, csp_can2_rx and the list they work on. */
module CanInterface {
  import opened Base
  import opened CspId
  import opened CanPbuf
  import Can1
  import Can2

  /** The receiving half of a CAN interface. */
  class Interface {
    const mtu: nat
    const addr: bv16
    /** What a packet buffer holds when it is taken from the pool. */
    const unset: Part
    /** The partly received packets, last begun first. */
    var pbufs: seq<Pbuf>
    /** The packets handed to csp_qfifo_write. */
    var sent: seq<Sent>

    constructor (mtu: nat, addr: bv16, unset: Part)
      ensures this.mtu == mtu && this.addr == addr && this.unset == unset
      ensures pbufs == [] && sent == []
    {
      this.mtu := mtu;
      this.addr := addr;
      this.unset := unset;
      pbufs := [];
      sent := [];
    }

    /** csp_can_pbuf_find: the first buffer whose identifier agrees under the mask; past the list if there is none. */
    method PbufFind(g: Protocol, id: bv32) returns (i: nat)
      ensures i == Find(g, pbufs, id)
    {
      i := 0;
      while i < |pbufs|
        invariant i <= |pbufs| && Find(g, pbufs, id) == i + Find(g, pbufs[i..], id)
      {
        if g.key(pbufs[i].cfpid) == g.key(id) {
          return;
        }
        assert pbufs[i..][1..] == pbufs[i + 1..];
        i := i + 1;
      }
    }

    /** csp_can_pbuf_new: a buffer from the pool, put first. */
    method PbufNew(id: bv32)
      modifies this`pbufs
      ensures pbufs == [Pbuf(id, unset)] + old(pbufs)
    {
      pbufs := [Pbuf(id, unset)] + pbufs;
    }

    /** csp_can_pbuf_free. */
    method PbufFree(i: nat)
      requires i < |pbufs|
      modifies this`pbufs
      ensures pbufs == Free(old(pbufs), i)
    {
      pbufs := pbufs[..i] + pbufs[i + 1..];
    }

    /** The start of both receivers: the frame is bound to a buffer, or to a new one if it begins a packet. */
    method Bind(g: Protocol, f: Frame, mem: bool) returns (i: nat)
      requires g.unset == unset
      modifies this`pbufs
      ensures i <= |pbufs|
      ensures i == |pbufs| ==> pbufs == old(pbufs) && Rx(g, mem, old(pbufs), f) == Out(pbufs, [])
      ensures i < |pbufs| ==> Rx(g, mem, old(pbufs), f) == Apply(pbufs, i, g.take(pbufs[i].part, f))
    {
      i := PbufFind(g, f.id);
      if i == |pbufs| && g.begins(f) && mem {
        PbufNew(f.id);
        i := 0;
      }
    }

    /** The end of both receivers: the buffer is kept, given back, or handed on. */
    method Settle(i: nat, r: Reply)
      requires i < |pbufs|
      modifies this
      ensures pbufs == Apply(old(pbufs), i, r).pbufs && sent == old(sent) + Apply(old(pbufs), i, r).sent
    {
      match r {
        case Keep(part) =>
          pbufs := pbufs[i := pbufs[i].(part := part)];
        case Drop =>
          PbufFree(i);
        case Deliver(packet) =>
          var cfpid := pbufs[i].cfpid;
          PbufFree(i);
          sent := sent + [Sent(cfpid, packet)];
      }
    }

    /** The switch of csp_can1_rx, with its fall-through from the first frame to the others. */
    method Can1Take(part: Part, f: Frame) returns (r: Reply)
      ensures r == Can1.Take(mtu, part, f)
    {
      hide Can1.IsMore, Can1.Remain, Can1.FromBe16, Unpack1, FromBytes;
      var packet, offset := part, 0;
      if !Can1.IsMore(f.id) {
        if |f.data| < 6 {
          return Drop;
        }
        packet := packet.(id := Unpack1(FromBytes(f.data[..4])));
        packet := packet.(length := Can1.FromBe16(f.data[4], f.data[5]));
        if packet.length > mtu {
          return Drop;
        }
        packet := packet.(bytes := [], remain := Can1.Remain(f.id) + 1);
        offset := 6;
      }
      assert f.data[0..] == f.data;
      if Can1.Remain(f.id) != packet.remain - 1 {
        return Drop;
      }
      packet := packet.(remain := packet.remain - 1);
      if |packet.bytes| + |f.data| - offset > packet.length {
        return Drop;
      }
      packet := packet.(bytes := packet.bytes + f.data[offset..]);
      if |packet.bytes| != packet.length {
        return Keep(packet);
      }
      return Deliver(Packet(packet.id, packet.bytes));
    }

    /** The body of csp_can2_rx. */
    method Can2Take(part: Part, f: Frame) returns (r: Reply)
      ensures r == Can2.Take(mtu, addr, part, f)
    {
      hide Can2.IsBegin, Can2.IsEnd, Can2.Counter, Can2.FirstTwo, Strip;
      var packet, data := part, f.data;
      if Can2.IsBegin(f.id) {
        if |f.data| < 4 {
          return Drop;
        }
        packet := packet.(bytes := Can2.FirstTwo(f.id) + data[..4], length := 0);
        data := data[4..];
        packet := packet.(counter := 1);
      } else {
        if packet.counter != Can2.Counter(f.id) {
          return Drop;
        }
        packet := packet.(counter := (packet.counter + 1) % 8);
      }
      if |packet.bytes| + |data| > mtu {
        return Drop;
      }
      packet := packet.(bytes := packet.bytes + data);
      if !Can2.IsEnd(f.id) {
        return Keep(packet);
      }
      var p := Strip(V2, packet.bytes);
      var q := if p.Some? then p.value else Packet(packet.id, []);
      if q.id.dst == 0x3FFF {
        q := q.(id := q.id.(dst := addr));
      }
      return Deliver(q);
    }

    /** csp_can1_rx. */
    method Can1Rx(f: Frame, mem: bool)
      modifies this
      ensures pbufs == Rx(Can1.Cfp1(mtu, unset), mem, old(pbufs), f).pbufs
      ensures sent == old(sent) + Rx(Can1.Cfp1(mtu, unset), mem, old(pbufs), f).sent
    {
      hide Can1.Take, Can1.Key, Can1.IsMore;
      var i := Bind(Can1.Cfp1(mtu, unset), f, mem);
      if i < |pbufs| {
        var r := Can1Take(pbufs[i].part, f);
        Settle(i, r);
      }
    }

    /** csp_can2_rx. */
    method Can2Rx(f: Frame, mem: bool)
      modifies this
      ensures pbufs == Rx(Can2.Cfp2(mtu, addr, unset), mem, old(pbufs), f).pbufs
      ensures sent == old(sent) + Rx(Can2.Cfp2(mtu, addr, unset), mem, old(pbufs), f).sent
    {
      hide Can2.Take, Can2.Key, Can2.IsBegin;
      var i := Bind(Can2.Cfp2(mtu, addr, unset), f, mem);
      if i < |pbufs| {
        var r := Can2Take(pbufs[i].part, f);
        Settle(i, r);
      }
    }
  }
}
