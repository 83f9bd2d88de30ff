/** CRC-32C on packets: csp_crc32_append and csp_crc32_verify. */
module CrcPacket {
  import opened Base
  import opened CspId
  import opened Crc32

  function Checksum(data: seq<bv8>): (s: seq<bv8>)
    ensures |s| == 4
  {
    ToBytes(Crc(data))
  }

  /** csp_crc32_append: None (CSP_ERR_NOMEM) where the buffer has no room for the checksum. */
  function Append(size: nat, data: seq<bv8>): Option<seq<bv8>> {
    if |data| + 4 > size then None else Some(data + Checksum(data))
  }

  function DataPart(data: seq<bv8>): seq<bv8>
    requires |data| >= 4
  {
    data[..|data| - 4]
  }

  function SumPart(data: seq<bv8>): seq<bv8>
    requires |data| >= 4
  {
    data[|data| - 4..]
  }

  /** csp_crc32_verify: the checksum is first compared with that of the whole frame, header and checksum included,
      then with that of the data alone. */
  function Verify(v: Version, p: Packet): Option<Packet> {
    if |p.data| < 4 then None
    else if SumPart(p.data) == Checksum(Prepend(v, p)) || SumPart(p.data) == Checksum(DataPart(p.data))
    then Some(p.(data := DataPart(p.data)))
    else None
  }

  /** Whatever the first comparison says, a checksum that was appended verifies and is stripped. */
  lemma AppendVerifies(v: Version, size: nat, p: Packet)
    requires |p.data| + 4 <= size
    ensures Append(size, p.data).Some?
    ensures Verify(v, p.(data := Append(size, p.data).value)) == Some(p)
  {
  }

  // ---------------------------------------------------------------- what does not verify

  /** The last four bytes are the checksum of the whole frame, header and these four bytes included: the comparison the
      code makes first. */
  predicate SumOfFrame(v: Version, p: Packet) {
    |p.data| >= 4 && FromBytes(p.data[|p.data| - 4..]) == Crc(Prepend(v, p))
  }

  lemma BytesAre(s: seq<bv8>, w: bv32)
    requires |s| == 4
    ensures s == ToBytes(w) <==> FromBytes(s) == w
  {
    hide Byte, Join4;
    BytesRoundTrip(w);
    JoinedBytes(s[0], s[1], s[2], s[3]);
  }

  /** A packet verifies if and only if it is what append makes of the packet that comes out, or its last four bytes are
      the checksum of its frame. */
  lemma VerifiedExactly(v: Version, p: Packet, q: Packet)
    ensures Verify(v, p) == Some(q) <==>
            && q.id == p.id && |p.data| == |q.data| + 4 && q.data <= p.data
            && (Append(|p.data|, q.data) == Some(p.data) || SumOfFrame(v, p))
  {
    hide Crc, ToBytes, FromBytes, Prepend;
    if |p.data| >= 4 {
      var n := |p.data| - 4;
      assert p.data == p.data[..n] + p.data[n..];
      BytesAre(p.data[n..], Crc(Prepend(v, p)));
      if q.data <= p.data && |q.data| == n {
        assert q.data == p.data[..n];
      }
      if p.data == q.data + Checksum(q.data) {
        assert p.data[n..] == Checksum(q.data) && p.data[..n] == q.data;
      }
    }
  }

  lemma DifferentSums(c: bv32, d: bv32)
    requires c != d
    ensures ToBytes(c) != ToBytes(d)
  {
    hide ToBytes, FromBytes;
    BytesRoundTrip(c);
    BytesRoundTrip(d);
  }

  /** A packet with a checksum that is not that of its data is rejected, unless it is the checksum of the frame. */
  lemma WrongSumRejected(v: Version, p: Packet, sum: seq<bv8>)
    requires |sum| == 4 && sum != Checksum(p.data)
    ensures var q := p.(data := p.data + sum); Verify(v, q).Some? <==> SumOfFrame(v, q)
  {
    hide Crc, ToBytes, FromBytes, Prepend;
    var q := p.(data := p.data + sum);
    assert DataPart(q.data) == p.data && SumPart(q.data) == sum;
    BytesAre(sum, Crc(Prepend(v, q)));
  }

  /** Damage within four consecutive bytes of the data, after the checksum was appended, is rejected, unless the old
      checksum happens to be that of the damaged frame. */
  lemma DamageRejected(v: Version, p: Packet, head: seq<bv8>, m: seq<bv8>, n: seq<bv8>, tail: seq<bv8>)
    requires p.data == head + m + tail && |m| == |n| <= 4 && m != n
    ensures var q := p.(data := head + n + tail + Checksum(p.data)); Verify(v, q).Some? <==> SumOfFrame(v, q)
  {
    hide Crc, ToBytes, FromBytes, Prepend;
    BurstDetected(head, m, n, tail);
    DifferentSums(Crc(head + n + tail), Crc(p.data));
    WrongSumRejected(v, p.(data := head + n + tail), Checksum(p.data));
  }
}
