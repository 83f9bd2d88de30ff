/** HMAC over SHA-1: the definition of RFC 2104, the code that computes it, and its use on packets. */
module Hmac {
  import opened Base
  import opened CspId
  import opened Sha1

  // ---------------------------------------------------------------- the definition

  /** Section 2 of RFC 2104: a key longer than a block is hashed, then zeros fill it to a block. */
  function BlockKey(key: seq<bv8>): (k: seq<bv8>)
    ensures |k| == BLOCK
  {
    if |key| > BLOCK then HashOf(key) + Zeros(BLOCK - DIGEST) else key + Zeros(BLOCK - |key|)
  }

  function Xor(k: seq<bv8>, b: bv8): (s: seq<bv8>)
    ensures |s| == |k|
  {
    seq(|k|, i requires 0 <= i < |k| => k[i] ^ b)
  }

  function Mac(key: seq<bv8>, text: seq<bv8>): (s: seq<bv8>)
    ensures |s| == DIGEST
  {
    HashOf(Xor(BlockKey(key), 0x5C) + HashOf(Xor(BlockKey(key), 0x36) + text))
  }

  // ---------------------------------------------------------------- about the definition

  function Same(b: bv8, n: nat): (s: seq<bv8>)
    ensures |s| == n
  {
    seq(n, _ => b)
  }

  /** The two pads, shown by the keys that cancel them: under a key of 64 bytes 0x36 the inner hash starts with zeros,
      under one of 0x5C the outer does, and the other pad is then 0x6A throughout. */
  lemma PadsShown(text: seq<bv8>)
    ensures Mac(Same(0x36, 64), text) == HashOf(Same(0x6A, 64) + HashOf(Zeros(64) + text))
    ensures Mac(Same(0x5C, 64), text) == HashOf(Zeros(64) + HashOf(Same(0x6A, 64) + text))
  {
    assert Same(0x36, 64) + Zeros(0) == Same(0x36, 64) && Same(0x5C, 64) + Zeros(0) == Same(0x5C, 64);
    assert Xor(Same(0x36, 64), 0x36) == Zeros(64) && Xor(Same(0x36, 64), 0x5C) == Same(0x6A, 64);
    assert Xor(Same(0x5C, 64), 0x5C) == Zeros(64) && Xor(Same(0x5C, 64), 0x36) == Same(0x6A, 64);
    hide HashOf;
  }

  /** A key longer than a block is its own digest, and zeros behind a shorter key do not count. */
  lemma KeysAlike(key: seq<bv8>, n: nat, text: seq<bv8>)
    ensures |key| > 64 ==> Mac(key, text) == Mac(HashOf(key), text)
    ensures |key| + n <= 64 ==> Mac(key + Zeros(n), text) == Mac(key, text)
  {
    hide HashOf, Xor;
    if |key| + n <= 64 {
      assert key + Zeros(n) + Zeros(64 - |key| - n) == key + Zeros(64 - |key|);
    }
  }

  // ---------------------------------------------------------------- the code

  /** The loop that adds a byte to every byte of the key. */
  method AddToKey(key: array<bv8>, b: bv8) returns (buf: seq<bv8>)
    ensures buf == Xor(key[..], b)
  {
    buf := [];
    var i := 0;
    while i < key.Length
      invariant 0 <= i <= key.Length && |buf| == i
      invariant forall j :: 0 <= j < i ==> buf[j] == key[j] ^ b
    {
      buf := buf + [key[i] ^ b];
      i := i + 1;
    }
  }

  /** hmac_state; `keyed` is the key it was set up with, `fed` what it was fed. */
  class State {
    var md: Sha1.State
    const key: array<bv8>
    ghost var keyed: seq<bv8>
    ghost var fed: seq<bv8>

    ghost predicate Valid()
      reads this, md, md.buf, key
    {
      && md.Valid() && md.buf != key
      && key[..] == BlockKey(keyed) && md.fed == Xor(BlockKey(keyed), 0x36) + fed
    }

    constructor ()
      ensures fresh(md) && fresh(md.buf) && fresh(key) && key.Length == BLOCK
    {
      md := new Sha1.State();
      key := new bv8[BLOCK];
    }

    method SetKey(k: seq<bv8>)
      requires key.Length == BLOCK == |k|
      modifies key
      ensures key[..] == k
    {
      forall i | 0 <= i < BLOCK {
        key[i] := k[i];
      }
    }

    /** csp_hmac_init: refused (CSP_ERR_INVAL) for an empty key. */
    method Init(k: seq<bv8>) returns (ok: bool)
      requires key.Length == BLOCK
      modifies this, key
      ensures ok <==> k != []
      ensures ok ==> Valid() && keyed == k && fed == [] && fresh(md) && fresh(md.buf)
    {
      hide HashOf, Zeros, Xor, Held;
      ok := |k| >= 1;
      if ok {
        var block := k;
        if |k| > BLOCK {
          block := Memory(k);
        }
        SetKey(block + Zeros(BLOCK - |block|));
        var buf := AddToKey(key, 0x36);
        md := new Sha1.State();
        md.Process(buf);
        keyed, fed := k, [];
        assert [] + buf == buf + [];
      }
    }

    /** csp_hmac_process. */
    method Process(data: seq<bv8>)
      requires Valid()
      modifies this, md, md.buf
      ensures Valid() && keyed == old(keyed) && fed == old(fed) + data && md == old(md) && md.buf == old(md.buf)
    {
      hide Xor, Held, BlockKey;
      ghost var front := Xor(BlockKey(keyed), 0x36);
      assert front + fed + data == front + (fed + data);
      md.Process(data);
      fed := fed + data;
    }

    /** csp_hmac_done. */
    method Done() returns (out: seq<bv8>)
      requires Valid()
      modifies this, md, md.buf
      ensures out == Mac(old(keyed), old(fed))
    {
      hide HashOf, BlockKey, Xor, Held;
      var isha := md.Done();
      var buf := AddToKey(key, 0x5C);
      md := new Sha1.State();
      md.Process(buf);
      md.Process(isha);
      out := md.Done();
      assert [] + buf + isha == buf + isha;
    }
  }

  /** csp_hmac_memory is HMAC for every key that is not empty, which it refuses. */
  method HmacMemory(key: seq<bv8>, data: seq<bv8>) returns (r: Option<seq<bv8>>)
    ensures r == if key == [] then None else Some(Mac(key, data))
  {
    hide Mac, Xor, BlockKey, Held;
    var s := new State();
    var ok := s.Init(key);
    if !ok {
      return None;
    }
    s.Process(data);
    assert [] + data == data;
    var out := s.Done();
    r := Some(out);
  }

  // ---------------------------------------------------------------- packets

  const HMAC_LENGTH := 4

  /** csp_hmac_append, on the bytes it covers (the frame if the header is included, the data if not): None
      (CSP_ERR_NOMEM) where the data leaves no room. */
  function Append(key: seq<bv8>, size: nat, length: nat, bytes: seq<bv8>): Option<seq<bv8>> {
    if length + HMAC_LENGTH > size then None else Some(bytes + Mac(key, bytes)[..HMAC_LENGTH])
  }

  /** csp_hmac_verify. */
  function Verify(key: seq<bv8>, length: nat, bytes: seq<bv8>): Option<seq<bv8>>
    requires length <= |bytes|
  {
    if length < HMAC_LENGTH then None
    else
      var n := |bytes| - HMAC_LENGTH;
      if bytes[n..] == Mac(key, bytes[..n])[..HMAC_LENGTH] then Some(bytes[..n]) else None
  }

  /** An authenticated packet verifies under the same key and comes back unchanged. */
  lemma AppendVerifies(key: seq<bv8>, size: nat, length: nat, bytes: seq<bv8>)
    requires length <= |bytes| && length + HMAC_LENGTH <= size
    ensures Append(key, size, length, bytes).Some? && |Append(key, size, length, bytes).value| == |bytes| + 4
    ensures Verify(key, length + HMAC_LENGTH, Append(key, size, length, bytes).value) == Some(bytes)
  {
    hide Mac;
    var r := Append(key, size, length, bytes).value;
    assert r[..|bytes|] == bytes && r[|bytes|..] == Mac(key, bytes)[..HMAC_LENGTH];
  }

  /** What verifies is what was appended, byte for byte. */
  lemma VerifiedWasAppended(key: seq<bv8>, size: nat, length: nat, bytes: seq<bv8>)
    requires length <= |bytes| && length <= size && Verify(key, length, bytes).Some?
    ensures Append(key, size, length - HMAC_LENGTH, Verify(key, length, bytes).value) == Some(bytes)
  {
    hide Mac;
    var n := |bytes| - HMAC_LENGTH;
    assert bytes == bytes[..n] + bytes[n..];
  }

  /** Four bytes behind a text verify exactly if they are the first four of its code. */
  lemma VerifiesExactly(key: seq<bv8>, length: nat, text: seq<bv8>, a: bv8, b: bv8, c: bv8, d: bv8)
    requires 4 <= length <= |text| + 4
    ensures Verify(key, length, text + [a, b, c, d]).Some? <==>
              var m := Mac(key, text); a == m[0] && b == m[1] && c == m[2] && d == m[3]
  {
    hide Mac;
    var bytes, m := text + [a, b, c, d], Mac(key, text);
    var n := |bytes| - 4;
    assert bytes[..n] == text && bytes[n..] == [a, b, c, d] && m[..4] == [m[0], m[1], m[2], m[3]];
  }
}
