/** A packet in its buffer: the checksum and the authentication code are appended and stripped in place. */
module PacketBuffer {
  import opened Base
  import opened CspId
  import CrcPacket
  import Crc32
  import Hmac

  class Buffer {
    const id: Id
    const data: array<bv8>
    var length: nat

    ghost predicate Valid()
      reads this
    {
      length <= data.Length
    }

    ghost function Contents(): seq<bv8>
      requires Valid()
      reads this, data
    {
      data[..length]
    }

    constructor (id: Id, size: nat)
      ensures Valid() && this.id == id && fresh(data) && data.Length == size && Contents() == []
    {
      this.id := id;
      data := new bv8[size];
      length := 0;
    }

    /** memcpy behind the data. */
    method Put(s: seq<bv8>)
      requires Valid() && length + |s| <= data.Length
      modifies this, data
      ensures Valid() && Contents() == old(Contents()) + s
    {
      forall i | 0 <= i < |s| {
        data[length + i] := s[i];
      }
      length := length + |s|;
      assert Contents() == old(Contents()) + s;
    }

    /** csp_crc32_append. */
    method Crc32Append() returns (ok: bool)
      requires Valid()
      modifies this, data
      ensures Valid()
      ensures ok <==> CrcPacket.Append(data.Length, old(Contents())).Some?
      ensures Contents() == if ok then CrcPacket.Append(data.Length, old(Contents())).value else old(Contents())
    {
      hide Crc32.Crc, ToBytes;
      ok := length + 4 <= data.Length;
      if ok {
        var crc := Crc32.Memory(data[..length]);
        Put(ToBytes(crc));
      }
    }

    /** csp_crc32_verify. */
    method Crc32Verify(v: Version) returns (ok: bool)
      requires Valid()
      modifies this
      ensures Valid()
      ensures ok <==> CrcPacket.Verify(v, Packet(id, old(Contents()))).Some?
      ensures Contents() == if ok then CrcPacket.Verify(v, Packet(id, old(Contents()))).value.data else old(Contents())
    {
      hide Crc32.Crc, ToBytes, Prepend;
      if length < 4 {
        return false;
      }
      var crc := Crc32.Memory(Prepend(v, Packet(id, data[..length])));
      ok := data[length - 4..length] == ToBytes(crc);
      if !ok {
        crc := Crc32.Memory(data[..length - 4]);
        ok := data[length - 4..length] == ToBytes(crc);
      }
      assert CrcPacket.SumPart(Contents()) == data[length - 4..length];
      assert CrcPacket.DataPart(Contents()) == data[..length - 4];
      if ok {
        length := length - 4;
      }
    }

    /** csp_hmac_append, without the header. */
    method HmacAppend(key: seq<bv8>) returns (ok: bool)
      requires Valid() && key != []
      modifies this, data
      ensures Valid()
      ensures ok <==> Hmac.Append(key, data.Length, old(length), old(Contents())).Some?
      ensures Contents() == if ok then Hmac.Append(key, data.Length, old(length), old(Contents())).value
                            else old(Contents())
    {
      hide Hmac.Mac;
      ok := length + Hmac.HMAC_LENGTH <= data.Length;
      if ok {
        var mac := Hmac.HmacMemory(key, data[..length]);
        Put(mac.value[..Hmac.HMAC_LENGTH]);
      }
    }

    /** csp_hmac_verify, without the header. */
    method HmacVerify(key: seq<bv8>) returns (ok: bool)
      requires Valid() && key != []
      modifies this
      ensures Valid()
      ensures ok <==> Hmac.Verify(key, old(length), old(Contents())).Some?
      ensures Contents() == if ok then Hmac.Verify(key, old(length), old(Contents())).value else old(Contents())
    {
      hide Hmac.Mac;
      if length < Hmac.HMAC_LENGTH {
        return false;
      }
      var n := length - Hmac.HMAC_LENGTH;
      var mac := Hmac.HmacMemory(key, data[..n]);
      assert Contents()[..n] == data[..n] && Contents()[n..] == data[n..length];
      ok := data[n..length] == mac.value[..Hmac.HMAC_LENGTH];
      if ok {
        length := n;
      }
    }
  }
}
