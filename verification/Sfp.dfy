/** The simple fragmentation protocol: a block of memory as a sequence of packets. */
module Sfp {
  import opened Base
  import opened CspId

  const M32 := 0x1_0000_0000

  // ---------------------------------------------------------------- the fragment header

  /** htobe32 and be32toh. */
  function ToBe32(n: nat): (s: seq<bv8>)
    requires n < M32
    ensures |s| == 4
  {
    [Octet(n / 256 / 256 / 256), Octet(n / 256 / 256 % 256), Octet(n / 256 % 256), Octet(n % 256)]
  }

  function FromBe32(s: seq<bv8>): nat
    requires |s| == 4
  {
    ((Value(s[0]) * 256 + Value(s[1])) * 256 + Value(s[2])) * 256 + Value(s[3])
  }

  lemma Be32Survives(n: nat)
    requires n < M32
    ensures FromBe32(ToBe32(n)) == n
  {
    hide Octet, Value;
  }

  /** A fragment: where it goes, the size of the whole, and its bytes. */
  datatype Fragment = Fragment(offset: nat, total: nat, payload: seq<bv8>)

  /** The packet csp_sfp_send_own_memcpy builds: data, offset, total size, and the fragment flag. */
  function ToPacket(id: Id, f: Fragment): Packet
    requires f.offset < M32 && f.total < M32
  {
    Packet(id.(flags := id.flags | 0x10), f.payload + ToBe32(f.offset) + ToBe32(f.total))
  }

  /** csp_sfp_header_remove: None without the flag, without room for a header, or with an offset past the total. */
  function Remove(p: Packet): Option<Fragment> {
    if p.id.flags & 0x10 == 0 || |p.data| < 8 then None
    else
      var n := |p.data| - 8;
      var offset, total := FromBe32(p.data[n..n + 4]), FromBe32(p.data[n + 4..]);
      if offset > total then None else Some(Fragment(offset, total, p.data[..n]))
  }

  lemma FlagSet(flags: bv8)
    ensures (flags | 0x10) & 0x10 != 0
  {
  }

  lemma HeaderSurvives(id: Id, f: Fragment)
    requires f.offset <= f.total < M32
    ensures Remove(ToPacket(id, f)) == Some(f)
  {
    hide FromBe32, ToBe32;
    var p := ToPacket(id, f);
    FlagSet(id.flags);
    Be32Survives(f.offset);
    Be32Survives(f.total);
    var n := |p.data| - 8;
    assert p.data[n..n + 4] == ToBe32(f.offset) && p.data[n + 4..] == ToBe32(f.total) && p.data[..n] == f.payload;
  }

  lemma SameByte(b: bv8)
    ensures Value(b) < 256 && Octet(Value(b)) == b
  {
    var c := Octet(Value(b));
    assert (c as nat) as bv8 == c && (b as nat) as bv8 == b;
  }

  lemma LastDigit(q: nat, d: nat)
    requires d < 256
    ensures (q * 256 + d) / 256 == q && (q * 256 + d) % 256 == d
  {
  }

  lemma Places256(n: nat, a: nat, b: nat, c: nat, d: nat)
    requires a < 256 && b < 256 && c < 256 && d < 256 && n == ((a * 256 + b) * 256 + c) * 256 + d
    ensures n < M32 && n / 256 == (a * 256 + b) * 256 + c && n / 256 / 256 == a * 256 + b && n / 256 / 256 / 256 == a
    ensures n % 256 == d && n / 256 % 256 == c && n / 256 / 256 % 256 == b
  {
    LastDigit((a * 256 + b) * 256 + c, d);
    LastDigit(a * 256 + b, c);
    LastDigit(a, b);
  }

  lemma Be32Of(n: nat, a: nat, b: nat, c: nat, d: nat)
    requires n < M32 && n / 256 / 256 / 256 == a < 256 && n / 256 / 256 % 256 == b && n / 256 % 256 == c && n % 256 == d
    ensures ToBe32(n) == [Octet(a), Octet(b), Octet(c), Octet(d)]
  {
    hide Octet, Value;
  }

  lemma Be32Was(s: seq<bv8>)
    requires |s| == 4
    ensures FromBe32(s) < M32 && ToBe32(FromBe32(s)) == s
  {
    hide Octet, Value, ToBe32;
    SameByte(s[0]);
    SameByte(s[1]);
    SameByte(s[2]);
    SameByte(s[3]);
    Places256(FromBe32(s), Value(s[0]), Value(s[1]), Value(s[2]), Value(s[3]));
    Be32Of(FromBe32(s), Value(s[0]), Value(s[1]), Value(s[2]), Value(s[3]));
    assert s == [s[0], s[1], s[2], s[3]];
  }

  /** What is taken for a fragment is one: the packet carries the flag, and its data are those of the fragment, whose
      offset is not past its total. Nothing else is. */
  lemma RemovedExactly(p: Packet)
    ensures Remove(p).Some? ==>
              var f := Remove(p).value;
              && p.id.flags & 0x10 != 0 && f.offset <= f.total < M32
              && p.data == f.payload + ToBe32(f.offset) + ToBe32(f.total)
    ensures Remove(p).None? ==>
              p.id.flags & 0x10 == 0 || |p.data| < 8
              || (exists x: seq<bv8>, o: nat, t: nat :: t < o < M32 && p.data == x + ToBe32(o) + ToBe32(t))
  {
    hide FromBe32, ToBe32;
    if |p.data| >= 8 {
      var n := |p.data| - 8;
      var x, y, z := p.data[..n], p.data[n..n + 4], p.data[n + 4..];
      assert p.data == x + y + z;
      Be32Was(y);
      Be32Was(z);
      var o, t := FromBe32(y), FromBe32(z);
      assert p.data == x + ToBe32(o) + ToBe32(t);
    }
  }

  // ---------------------------------------------------------------- send

  datatype Error = Ok | Inval | Nomem | Timedout | BadFragment

  /** The packets of a block from an offset on. */
  function Packets(id: Id, mtu: nat, data: seq<bv8>, count: nat): seq<Packet>
    requires mtu > 0 && count <= |data| < M32
    decreases |data| - count
  {
    if count == |data| then []
    else
      var next := Min(count + mtu, |data|);
      [ToPacket(id, Fragment(count, |data|, data[count..next]))] + Packets(id, mtu, data, next)
  }

  lemma NextPacket(id: Id, mtu: nat, data: seq<bv8>, count: nat, n: nat)
    requires mtu > 0 && count < |data| < M32 && n == Min(mtu, |data| - count)
    ensures Packets(id, mtu, data, count)
         == [ToPacket(id, Fragment(count, |data|, data[count..count + n]))] + Packets(id, mtu, data, count + n)
  {
    hide ToPacket;
  }

  lemma NoPacket(id: Id, mtu: nat, data: seq<bv8>)
    requires mtu > 0 && |data| < M32
    ensures Packets(id, mtu, data, |data|) == []
  {
  }

  /** csp_sfp_send_own_memcpy: the packets given to csp_send. A buffer must hold `mtu` + 8 bytes, and the pool has
      `room` buffers to give. */
  method Send(id: Id, size: nat, mtu: nat, data: seq<bv8>, room: nat) returns (sent: seq<Packet>, error: Error)
    requires |data| < M32
    ensures mtu == 0 ==> error == Inval && sent == []
    ensures mtu > 0 ==> sent <= Packets(id, mtu, data, 0)
    ensures mtu > 0 && (data == [] || (mtu + 8 <= size && |Packets(id, mtu, data, 0)| <= room)) ==>
              error == Ok && sent == Packets(id, mtu, data, 0)
    ensures mtu > 0 && data != [] && (mtu + 8 > size || |Packets(id, mtu, data, 0)| > room) ==> error == Nomem
  {
    hide ToPacket, Packets;
    sent, error := [], Inval;
    if mtu == 0 {
      return;
    }
    var count := 0;
    ghost var all := Packets(id, mtu, data, 0);
    while count < |data|
      invariant 0 <= count <= |data| && |sent| <= room && (count > 0 ==> mtu + 8 <= size)
      invariant all == sent + Packets(id, mtu, data, count)
    {
      var n := |data| - count;
      if n > mtu {
        n := mtu;
      }
      NextPacket(id, mtu, data, count, n);
      if mtu + 8 > size || |sent| == room {
        error := Nomem;
        return;
      }
      sent := sent + [ToPacket(id, Fragment(count, |data|, data[count..count + n]))];
      count := count + n;
    }
    NoPacket(id, mtu, data);
    error := Ok;
  }

  // ---------------------------------------------------------------- receive

  /** What csp_sfp_recv_fp comes to: the block and the number of packets read, or an error. */
  datatype Received = Got(data: seq<bv8>, used: nat) | Failed(error: Error)

  /** One turn of the loop: the buffer, allocated for the total the first fragment announces, and what it holds. */
  datatype Turn = More(total: nat, data: seq<bv8>) | Complete(data: seq<bv8>) | Refused(error: Error)

  /** One fragment. `total` is the size of the buffer if there is one; `mem` whether malloc gives one. The offset is
      kept in 32 bits. */
  function Take(mem: bool, total: Option<nat>, data: seq<bv8>, p: Packet): Turn {
    var f := Remove(p);
    if f.None? || f.value.offset != |data| % M32 then Refused(BadFragment)
    else if total.None? && !mem then Refused(Nomem)
    else
      var size := if total.None? then f.value.total else total.value;
      var more := data + f.value.payload;
      if (|data| % M32 + |f.value.payload|) % M32 > size || size != f.value.total then Refused(BadFragment)
      else if |more| % M32 >= size then Complete(more)
      else if f.value.payload == [] then Refused(BadFragment)
      else More(size, more)
  }

  /** csp_sfp_recv_fp over the packets csp_read gives before it times out. */
  function Receive(mem: bool, total: Option<nat>, data: seq<bv8>, packets: seq<Packet>, used: nat): Received
    decreases packets
  {
    if packets == [] then Failed(Timedout)
    else
      match Take(mem, total, data, packets[0])
      case Refused(error) => Failed(error)
      case Complete(all) => Got(all, used + 1)
      case More(size, more) => Receive(mem, Some(size), more, packets[1..], used + 1)
  }

  /** One fragment, where the 32-bit offset does not wrap. */
  function Place(mem: bool, total: Option<nat>, data: seq<bv8>, f: Fragment): Turn {
    if f.offset != |data| then Refused(BadFragment)
    else if total.None? && !mem then Refused(Nomem)
    else if total.Some? && total.value != f.total then Refused(BadFragment)
    else if |data| + |f.payload| > f.total then Refused(BadFragment)
    else if |data| + |f.payload| == f.total then Complete(data + f.payload)
    else if f.payload == [] then Refused(BadFragment)
    else More(f.total, data + f.payload)
  }

  lemma TakeIsPlace(mem: bool, total: Option<nat>, data: seq<bv8>, p: Packet)
    requires Remove(p).Some? && |data| + |Remove(p).value.payload| < M32
    ensures Take(mem, total, data, p) == Place(mem, total, data, Remove(p).value)
  {
    hide Remove;
  }

  // ---------------------------------------------------------------- receive inverts send

  lemma {:induction false} TailReceived(id: Id, mtu: nat, data: seq<bv8>, count: nat, used: nat, more: seq<Packet>)
    requires mtu > 0 && count < |data| < M32
    ensures var ps := Packets(id, mtu, data, count);
            Receive(true, if count == 0 then None else Some(|data|), data[..count], ps + more, used)
            == Got(data, used + |ps|)
    decreases |data| - count
  {
    hide Remove, ToPacket, Take;
    var ps, next := Packets(id, mtu, data, count), Min(count + mtu, |data|);
    var f := Fragment(count, |data|, data[count..next]);
    HeaderSurvives(id, f);
    TakeIsPlace(true, if count == 0 then None else Some(|data|), data[..count], ToPacket(id, f));
    assert (ps + more)[0] == ToPacket(id, f) && (ps + more)[1..] == Packets(id, mtu, data, next) + more;
    assert data[..count] + data[count..next] == data[..next];
    if next < |data| {
      TailReceived(id, mtu, data, next, used + 1, more);
    } else {
      assert data[..next] == data;
    }
  }

  /** SFP round trip: what was sent is received, with nothing read past its last packet. */
  lemma RoundTrip(id: Id, mtu: nat, data: seq<bv8>, more: seq<Packet>)
    requires mtu > 0 && 0 < |data| < M32
    ensures var ps := Packets(id, mtu, data, 0); Receive(true, None, [], ps + more, 0) == Got(data, |ps|)
  {
    TailReceived(id, mtu, data, 0, 0, more);
    assert data[..0] == [];
  }

  // ---------------------------------------------------------------- soundness

  /** The bytes of the fragments of some packets, one after the other. */
  function Payloads(ps: seq<Packet>): seq<bv8>
    decreases ps
  {
    if ps == [] then []
    else (if Remove(ps[0]).Some? then Remove(ps[0]).value.payload else []) + Payloads(ps[1..])
  }

  /** The packets are fragments of a whole of one size, each at the place where those before it end. */
  predicate InSequence(ps: seq<Packet>, total: nat, offset: nat)
    decreases ps
  {
    ps == [] || (Remove(ps[0]).Some? && Remove(ps[0]).value.total == total && Remove(ps[0]).value.offset == offset
                 && InSequence(ps[1..], total, offset + |Remove(ps[0]).value.payload|))
  }

  /** What a fragment carries at most, where a buffer holds `max` bytes of data: eight of them are the header. */
  function Longest(max: nat): nat { if max < 8 then 0 else max - 8 }

  /** The totals below this one are those for which no fragment makes the 32-bit sum wrap. */
  function TotalLimit(max: nat): int { M32 - Longest(max) + 1 }

  /** The packets a node with such buffers can receive. The length of a packet has 16 bits. */
  predicate Short(max: nat, ps: seq<Packet>) { max < 0x1_0000 && forall p <- ps :: |p.data| <= max }

  /** The first fragment, if it is one, announces a total below the limit. */
  predicate Moderate(max: nat, ps: seq<Packet>) {
    Short(max, ps) && (ps != [] && Remove(ps[0]).Some? ==> Remove(ps[0]).value.total < TotalLimit(max))
  }

  lemma {:induction false} ReceivedSound(max: nat, mem: bool, total: Option<nat>, data: seq<bv8>, ps: seq<Packet>,
                                         used: nat, size: nat)
    requires Short(max, ps) && ps != [] && Remove(ps[0]).Some?
    requires size == if total.Some? then total.value else Remove(ps[0]).value.total
    requires 0 < size < TotalLimit(max) && |data| < size
    requires Receive(mem, total, data, ps, used).Got?
    ensures var r := Receive(mem, total, data, ps, used);
            && |r.data| == size && used < r.used <= used + |ps| && r.used - used <= size - |data|
            && r.data == data + Payloads(ps[..r.used - used]) && InSequence(ps[..r.used - used], size, |data|)
    decreases ps
  {
    hide Remove, Take;
    assert ps[0] in ps;
    var f := Remove(ps[0]).value;
    PayloadBound(max, ps[0]);
    TakeIsPlace(mem, total, data, ps[0]);
    var r := Receive(mem, total, data, ps, used);
    var t := Take(mem, total, data, ps[0]);
    if t.More? {
      assert r == Receive(mem, Some(size), t.data, ps[1..], used + 1);
      MoreThere(mem, size, t.data, ps[1..], used + 1);
      ReceivedSound(max, mem, Some(size), t.data, ps[1..], used + 1, size);
      var k := r.used - used;
      assert ps[..k][0] == ps[0] && ps[..k][1..] == ps[1..][..k - 1];
      assert data + (f.payload + Payloads(ps[1..][..k - 1])) == (data + f.payload) + Payloads(ps[1..][..k - 1]);
    } else {
      assert ps[..1][0] == ps[0] && ps[..1][1..] == [];
      assert f.payload + [] == f.payload;
    }
  }

  lemma PayloadBound(max: nat, p: Packet)
    requires |p.data| <= max && Remove(p).Some?
    ensures |Remove(p).value.payload| <= Longest(max)
  {
  }

  lemma MoreThere(mem: bool, size: nat, data: seq<bv8>, ps: seq<Packet>, used: nat)
    requires Receive(mem, Some(size), data, ps, used).Got?
    ensures ps != [] && Remove(ps[0]).Some?
  {
  }

  lemma GotFirst(mem: bool, ps: seq<Packet>)
    requires Receive(mem, None, [], ps, 0).Got?
    ensures ps != [] && Remove(ps[0]).Some?
  {
  }

  /** SFP soundness: a block that is received with a total that is not zero has exactly that many bytes; it is the
      fragments read, in order and without a gap, and they are no more than its bytes. */
  lemma Soundness(max: nat, mem: bool, ps: seq<Packet>)
    requires Moderate(max, ps) && Receive(mem, None, [], ps, 0).Got?
    ensures ps != [] && Remove(ps[0]).Some?
    ensures var total, r := Remove(ps[0]).value.total, Receive(mem, None, [], ps, 0);
            total > 0 ==> |r.data| == total && 0 < r.used <= |ps| && r.used <= total
                          && r.data == Payloads(ps[..r.used]) && InSequence(ps[..r.used], total, 0)
  {
    hide Remove, Take;
    GotFirst(mem, ps);
    assert ps[0] in ps;
    if Remove(ps[0]).value.total > 0 {
      ReceivedSound(max, mem, None, [], ps, 0, Remove(ps[0]).value.total);
    }
  }

  // ---------------------------------------------------------------- totals from the limit on

  const NO_ID: Id := Id(0, 0, 0, 0, 0, 0)

  function Filled(n: nat): (s: seq<bv8>)
    ensures |s| == n
  {
    seq(n, _ => 0)
  }

  /** A fragment of `n` bytes at an offset. */
  function Piece(total: nat, offset: nat, n: nat): Packet
    requires offset <= total < M32
  {
    ToPacket(NO_ID, Fragment(offset, total, Filled(n)))
  }

  /** Fragments of one byte, `k` of them, from an offset on. */
  function Ones(total: nat, offset: nat, k: nat): (ps: seq<Packet>)
    requires offset + k <= total < M32
    ensures forall p <- ps :: |p.data| == 9
    decreases k
  {
    if k == 0 then [] else [Piece(total, offset, 1)] + Ones(total, offset + 1, k - 1)
  }

  /** A fragment that does not reach the total is taken, whatever the 32-bit sum has come to. */
  lemma PieceTaken(total: nat, data: seq<bv8>, n: nat, first: bool)
    requires total < M32 && |data| % M32 <= total && n > 0 && (|data| + n) % M32 < total && (first ==> data == [])
    ensures Take(true, if first then None else Some(total), data, Piece(total, |data| % M32, n))
         == More(total, data + Filled(n))
  {
    hide Remove, ToPacket;
    HeaderSurvives(NO_ID, Fragment(|data| % M32, total, Filled(n)));
  }

  lemma PieceCompletes(total: nat, data: seq<bv8>)
    requires 0 < total < M32 && |data| % M32 == total - 1
    ensures Take(true, Some(total), data, Piece(total, total - 1, 1)) == Complete(data + Filled(1))
  {
    hide Remove, ToPacket;
    HeaderSurvives(NO_ID, Fragment(total - 1, total, Filled(1)));
  }

  lemma FilledMore(a: nat, b: nat)
    ensures Filled(a) + Filled(b) == Filled(a + b)
  {
  }

  /** One-byte fragments that stay below the total. */
  lemma {:induction false} OnesTaken(total: nat, data: seq<bv8>, k: nat, more: seq<Packet>, used: nat)
    requires |data| % M32 + k < total < M32
    ensures Receive(true, Some(total), data, Ones(total, |data| % M32, k) + more, used)
         == Receive(true, Some(total), data + Filled(k), more, used + k)
    decreases k
  {
    hide Take, Piece;
    var offset := |data| % M32;
    var ps := Ones(total, offset, k) + more;
    if k == 0 {
      assert ps == more && data + Filled(0) == data;
    } else {
      PieceTaken(total, data, 1, false);
      assert ps[0] == Piece(total, offset, 1) && ps[1..] == Ones(total, offset + 1, k - 1) + more;
      var next := data + Filled(1);
      assert |next| % M32 == offset + 1;
      OnesTaken(total, next, k - 1, more, used + 1);
      FilledMore(1, k - 1);
      assert next + Filled(k - 1) == data + Filled(k);
    }
  }

  /** The fragments that go around once: one byte at a time up to the last byte, then a longest fragment, then one byte
      at a time again. */
  function Around(max: nat, total: nat): seq<Packet>
    requires max < 0x1_0000 && TotalLimit(max) <= total < M32
  {
    var back := total - 1 + Longest(max) - M32;
    [Piece(total, 0, 1)]
    + (Ones(total, 1, total - 2) + ([Piece(total, total - 1, Longest(max))] + SecondLap(total, back)))
  }

  lemma StepTaken(mem: bool, total: Option<nat>, data: seq<bv8>, p: Packet, more: seq<Packet>, used: nat)
    ensures Receive(mem, total, data, [p] + more, used) ==
            match Take(mem, total, data, p)
            case Refused(error) => Failed(error)
            case Complete(all) => Got(all, used + 1)
            case More(size, next) => Receive(mem, Some(size), next, more, used + 1)
  {
    hide Take;
    assert ([p] + more)[0] == p && ([p] + more)[1..] == more;
  }

  /** The limit is exact: for every total from it on, some fragments that fit the buffers are taken and reported as a
      block of more than 2^32 bytes, which the memory allocated for the total does not hold. */
  lemma SoundnessFails(max: nat, total: nat) returns (ps: seq<Packet>)
    requires max < 0x1_0000 && TotalLimit(max) <= total < M32
    ensures Short(max, ps) && ps != [] && Remove(ps[0]).Some? && Remove(ps[0]).value.total == total
    ensures Receive(true, None, [], ps, 0).Got? && |Receive(true, None, [], ps, 0).data| == M32 + total
  {
    hide Take, Receive, Remove, ToPacket, Filled;
    var back := total - 1 + Longest(max) - M32;
    ps := Around(max, total);
    HeaderSurvives(NO_ID, Fragment(0, total, Filled(1)));
    ShortAround(max, total);
    FirstLap(total, [Piece(total, total - 1, Longest(max))] + SecondLap(total, back));
    var third := SecondLap(total, back);
    PieceTaken(total, Filled(total - 1), Longest(max), false);
    StepTaken(true, Some(total), Filled(total - 1), Piece(total, total - 1, Longest(max)), third, total - 1);
    FilledMore(total - 1, Longest(max));
    SecondLapTaken(total, back);
  }

  /** One byte at a time, from an offset to the last byte. */
  function SecondLap(total: nat, back: nat): seq<Packet>
    requires back < total < M32
  {
    Ones(total, back, total - 1 - back) + [Piece(total, total - 1, 1)]
  }

  lemma FirstLap(total: nat, more: seq<Packet>)
    requires 2 <= total < M32
    ensures Receive(true, None, [], [Piece(total, 0, 1)] + (Ones(total, 1, total - 2) + more), 0)
         == Receive(true, Some(total), Filled(total - 1), more, total - 1)
  {
    hide Take, Receive, Piece, Filled;
    PieceTaken(total, [], 1, true);
    StepTaken(true, None, [], Piece(total, 0, 1), Ones(total, 1, total - 2) + more, 0);
    assert [] + Filled(1) == Filled(1);
    OnesTaken(total, Filled(1), total - 2, more, 1);
    FilledMore(1, total - 2);
  }

  lemma SecondLapTaken(total: nat, back: nat)
    requires back < total < M32
    ensures Receive(true, Some(total), Filled(M32 + back), SecondLap(total, back), total)
         == Got(Filled(M32 + total), total + (total - back))
  {
    hide Take, Receive, Piece, Filled;
    var last := [Piece(total, total - 1, 1)];
    OnesTaken(total, Filled(M32 + back), total - 1 - back, last, total);
    FilledMore(M32 + back, total - 1 - back);
    PieceCompletes(total, Filled(M32 + total - 1));
    StepTaken(true, Some(total), Filled(M32 + total - 1), Piece(total, total - 1, 1), [], total + total - 1 - back);
    assert last + [] == last;
    FilledMore(M32 + total - 1, 1);
  }

  lemma ShortAround(max: nat, total: nat)
    requires max < 0x1_0000 && TotalLimit(max) <= total < M32
    ensures Short(max, Around(max, total))
  {
    hide ToBe32;
  }

  /** Whatever is received has the size it announced, for a total that is not zero, exactly if the total is below the
      limit. */
  lemma SoundExactly(max: nat, total: nat)
    requires max < 0x1_0000 && 0 < total < M32
    ensures total < TotalLimit(max) <==>
            forall ps :: Short(max, ps) && Receive(true, None, [], ps, 0).Got? && Announces(ps, total) ==>
                           |Receive(true, None, [], ps, 0).data| == total
  {
    hide Receive, Short, Remove;
    if total < TotalLimit(max) {
      forall ps | Short(max, ps) && Receive(true, None, [], ps, 0).Got? && Announces(ps, total)
        ensures |Receive(true, None, [], ps, 0).data| == total
      {
        Soundness(max, true, ps);
      }
    } else {
      var ps := SoundnessFails(max, total);
    }
  }

  /** The first packet is a fragment of a block of that size. */
  predicate Announces(ps: seq<Packet>, total: nat) {
    ps != [] && Remove(ps[0]).Some? && Remove(ps[0]).value.total == total
  }

  // ---------------------------------------------------------------- the code

  lemma NotAFragment(mem: bool, total: Option<nat>, data: seq<bv8>, p: Packet)
    requires Remove(p).None?
    ensures Take(mem, total, data, p) == Refused(BadFragment)
  {
  }

  /** csp_sfp_recv_fp: the fragments are copied into a buffer allocated for the total. */
  method Recv(ghost max: nat, mem: bool, packets: seq<Packet>) returns (r: Received)
    requires Moderate(max, packets)
    ensures r == Receive(mem, None, [], packets, 0)
  {
    hide Remove, Take;
    var buf: array<bv8> := new bv8[0];
    var have, data_offset, i := false, 0, 0;
    while i < |packets|
      invariant 0 <= i <= |packets| && data_offset <= buf.Length && fresh(buf)
      invariant if have then 0 < data_offset < buf.Length < TotalLimit(max) else data_offset == 0 == i
      invariant Receive(mem, None, [], packets, 0)
             == Receive(mem, if have then Some(buf.Length) else None, buf[..data_offset], packets[i..], i)
    {
      var p := packets[i];
      ghost var before := buf[..data_offset];
      assert packets[i..][0] == p && packets[i..][1..] == packets[i + 1..];
      var f := Remove(p);
      if f.None? {
        NotAFragment(mem, if have then Some(buf.Length) else None, before, p);
        return Failed(BadFragment);
      }
      PayloadBound(max, p);
      TakeIsPlace(mem, if have then Some(buf.Length) else None, before, p);
      if f.value.offset != data_offset {
        return Failed(BadFragment);
      }
      if !have {
        if !mem {
          return Failed(Nomem);
        }
        buf := new bv8[f.value.total];
        have := true;
      }
      if data_offset + |f.value.payload| > buf.Length || buf.Length != f.value.total {
        return Failed(BadFragment);
      }
      forall k | 0 <= k < |f.value.payload| {
        buf[data_offset + k] := f.value.payload[k];
      }
      data_offset := data_offset + |f.value.payload|;
      assert buf[..data_offset] == before + f.value.payload;
      if data_offset >= buf.Length {
        assert buf[..] == buf[..data_offset];
        return Got(buf[..], i + 1);
      }
      if f.value.payload == [] {
        return Failed(BadFragment);
      }
      i := i + 1;
    }
    return Failed(Timedout);
  }
}
