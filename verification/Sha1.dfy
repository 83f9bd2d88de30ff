/** SHA-1: the definition of FIPS 180-4 and the streaming code that computes it. */
module Sha1 {
  import opened Base
  import opened CspId

  const BLOCK := 64
  const DIGEST := 20

  // ---------------------------------------------------------------- the definition

  function Rotl(x: bv32, n: bv6): bv32
    requires n < 32
  {
    (x << n) | (x >> (32 - n))
  }

  /** Section 4.1.1 of FIPS 180-4. */
  function Ch(x: bv32, y: bv32, z: bv32): bv32 { (x & y) ^ (!x & z) }

  function Parity(x: bv32, y: bv32, z: bv32): bv32 { x ^ y ^ z }

  function Maj(x: bv32, y: bv32, z: bv32): bv32 { (x & y) ^ (x & z) ^ (y & z) }

  /** The function of round `t`. */
  function Fn(t: nat, x: bv32, y: bv32, z: bv32): bv32 {
    if t < 20 then Ch(x, y, z) else if t < 40 then Parity(x, y, z) else if t < 60 then Maj(x, y, z) else Parity(x, y, z)
  }

  /** Section 4.2.1. */
  function K(t: nat): bv32 {
    if t < 20 then 0x5A827999 else if t < 40 then 0x6ED9EBA1 else if t < 60 then 0x8F1BBCDC else 0xCA62C1D6
  }

  function Sum(r: bv32, f: bv32, e: bv32, k: bv32, w: bv32): bv32 { r + f + e + k + w }

  /** The five words of a hash value, or of the working variables. */
  datatype Hash = Hash(a: bv32, b: bv32, c: bv32, d: bv32, e: bv32)

  const H0 := Hash(0x67452301, 0xEFCDAB89, 0x98BADCFE, 0x10325476, 0xC3D2E1F0)

  function Xor2(x: bv32, y: bv32): bv32 { x ^ y }

  function Xor4(x: bv32, y: bv32, z: bv32, w: bv32): bv32 { Xor2(Xor2(Xor2(x, y), z), w) }

  function Expand(x: bv32, y: bv32, z: bv32, w: bv32): bv32 { Rotl(Xor4(x, y, z, w), 1) }

  /** Section 6.1.2, step 1: the message schedule. */
  function Schedule(block: seq<bv8>, t: nat): bv32
    requires |block| == BLOCK
    decreases t
  {
    if t < 16 then FromBytes(block[4 * t..4 * t + 4])
    else Expand(Schedule(block, t - 3), Schedule(block, t - 8), Schedule(block, t - 14), Schedule(block, t - 16))
  }

  /** Step 3: one round. */
  function Round(h: Hash, t: nat, w: bv32): Hash {
    Hash(Sum(Rotl(h.a, 5), Fn(t, h.b, h.c, h.d), h.e, K(t), w), h.a, Rotl(h.b, 30), h.c, h.d)
  }

  function Rounds(h: Hash, block: seq<bv8>, t: nat): Hash
    requires |block| == BLOCK
    decreases t
  {
    if t == 0 then h else Round(Rounds(h, block, t - 1), t - 1, Schedule(block, t - 1))
  }

  function Add(x: Hash, y: Hash): Hash { Hash(x.a + y.a, x.b + y.b, x.c + y.c, x.d + y.d, x.e + y.e) }

  /** Step 4: the next intermediate hash value. */
  function Compress(h: Hash, block: seq<bv8>): Hash
    requires |block| == BLOCK
  {
    Add(h, Rounds(h, block, 80))
  }

  function Blocks(h: Hash, m: seq<bv8>): Hash
    requires |m| % BLOCK == 0
    decreases |m|
  {
    if m == [] then h else
      hide *;
      assert |m| >= BLOCK && (|m| - BLOCK) % BLOCK == 0;
      Blocks(Compress(h, m[..BLOCK]), m[BLOCK..])
  }

  function Zeros(n: nat): (z: seq<bv8>)
    ensures |z| == n
  {
    seq(n, _ => 0)
  }

  const M64 := 0x1_0000_0000_0000_0000

  /** A number of bits as eight bytes, most significant first. */
  function Length64(bits: nat): (s: seq<bv8>)
    ensures |s| == 8
  {
    seq(8, i requires 0 <= i < 8 => Digit256(bits % M64, 7 - i))
  }

  function Digit256(n: nat, i: nat): bv8
    decreases i
  {
    if i == 0 then Octet(n % 256) else Digit256(n / 256, i - 1)
  }

  lemma PadFits(n: nat)
    ensures (n + 1 + (119 - n % 64) % 64 + 8) % 64 == 0
  {
  }

  /** Section 5.1.1: a one bit, as few zero bits as needed, and the length of the message. */
  function Pad(m: seq<bv8>): (p: seq<bv8>)
    ensures |p| % BLOCK == 0
  {
    PadFits(|m|);
    m + [0x80] + Zeros((119 - |m| % 64) % 64) + Length64(8 * |m|)
  }

  function Digest(h: Hash): (s: seq<bv8>)
    ensures |s| == DIGEST
  {
    ToBytes(h.a) + ToBytes(h.b) + ToBytes(h.c) + ToBytes(h.d) + ToBytes(h.e)
  }

  function HashOf(m: seq<bv8>): (s: seq<bv8>)
    ensures |s| == DIGEST
  {
    Digest(Blocks(H0, Pad(m)))
  }

  // ---------------------------------------------------------------- about the definition

  lemma RotatedXor(x: bv32, y: bv32, z: bv32, w: bv32)
    ensures Xor4(Rotl(x, 1), Rotl(y, 1), Rotl(z, 1), Rotl(w, 1)) == Rotl(Xor4(x, y, z, w), 1)
  {
  }

  lemma RotatedTwice(x: bv32)
    ensures Rotl(Rotl(x, 1), 1) == Rotl(x, 2)
  {
  }

  lemma XorAssociates(x: bv32, y: bv32, z: bv32)
    ensures Xor2(Xor2(x, y), z) == Xor2(x, Xor2(y, z))
  {
  }

  lemma XorCommutes(x: bv32, y: bv32)
    ensures Xor2(x, y) == Xor2(y, x)
  {
  }

  lemma XorPairs(x: bv32, y: bv32, z: bv32, w: bv32)
    ensures Xor4(x, y, z, w) == Xor2(Xor2(x, y), Xor2(z, w))
  {
    hide Xor2;
    XorAssociates(Xor2(x, y), z, w);
  }

  lemma XorSwap(w: bv32, x: bv32, y: bv32, z: bv32)
    ensures Xor2(Xor2(w, x), Xor2(y, z)) == Xor2(Xor2(w, y), Xor2(x, z))
  {
    hide Xor2;
    XorAssociates(w, x, Xor2(y, z));
    XorAssociates(x, y, z);
    XorCommutes(x, y);
    XorAssociates(y, x, z);
    XorAssociates(w, y, Xor2(x, z));
  }

  lemma XorMeets(x: bv32, y: bv32, z: bv32)
    ensures Xor2(Xor2(x, y), Xor2(y, z)) == Xor2(x, z)
  {
  }

  lemma Cancels(a: bv32, b: bv32, c: bv32, d: bv32, e: bv32, f: bv32, g: bv32, h: bv32, i: bv32, j: bv32)
    ensures Xor4(Xor4(a, b, c, d), Xor4(b, e, f, g), Xor4(c, f, h, i), Xor4(d, g, i, j)) == Xor4(a, e, h, j)
  {
    hide Xor4, Xor2;
    XorPairs(Xor4(a, b, c, d), Xor4(b, e, f, g), Xor4(c, f, h, i), Xor4(d, g, i, j));
    XorPairs(a, b, c, d);
    XorPairs(b, e, f, g);
    XorPairs(c, f, h, i);
    XorPairs(d, g, i, j);
    XorPairs(a, e, h, j);
    XorSwap(Xor2(a, b), Xor2(c, d), Xor2(b, e), Xor2(f, g));
    XorMeets(a, b, e);
    XorSwap(Xor2(c, f), Xor2(h, i), Xor2(d, g), Xor2(i, j));
    XorMeets(h, i, j);
    XorSwap(c, d, f, g);
    XorMeets(Xor2(a, e), Xor2(Xor2(c, d), Xor2(f, g)), Xor2(h, j));
  }

  lemma TwoExpansions(a: bv32, b: bv32, c: bv32, d: bv32, e: bv32, f: bv32, g: bv32, h: bv32, i: bv32, j: bv32)
    ensures Expand(Expand(a, b, c, d), Expand(b, e, f, g), Expand(c, f, h, i), Expand(d, g, i, j))
         == Rotl(Xor4(a, e, h, j), 2)
  {
    hide Rotl, Xor4, Xor2;
    RotatedXor(Xor4(a, b, c, d), Xor4(b, e, f, g), Xor4(c, f, h, i), Xor4(d, g, i, j));
    Cancels(a, b, c, d, e, f, g, h, i, j);
    RotatedTwice(Xor4(a, e, h, j));
  }

  /** The schedule two expansions back: what does not cancel is rotated by two. */
  lemma ScheduleTwice(block: seq<bv8>, t: nat)
    requires |block| == BLOCK && t >= 32
    ensures Schedule(block, t)
         == Rotl(Xor4(Schedule(block, t - 6), Schedule(block, t - 16),
                      Schedule(block, t - 28), Schedule(block, t - 32)), 2)
  {
    hide Expand, Rotl, Xor4, Schedule;
    ScheduleAt(block, t);
    ScheduleAt(block, t - 3);
    ScheduleAt(block, t - 8);
    ScheduleAt(block, t - 14);
    ScheduleAt(block, t - 16);
    TwoExpansions(Schedule(block, t - 6), Schedule(block, t - 11), Schedule(block, t - 17), Schedule(block, t - 19),
                  Schedule(block, t - 16), Schedule(block, t - 22), Schedule(block, t - 24), Schedule(block, t - 28),
                  Schedule(block, t - 30), Schedule(block, t - 32));
  }

  lemma ScheduleAt(block: seq<bv8>, t: nat)
    requires |block| == BLOCK && t >= 16
    ensures Schedule(block, t) == Expand(Schedule(block, t - 3), Schedule(block, t - 8), Schedule(block, t - 14),
                                         Schedule(block, t - 16))
  {
    hide Expand;
  }

  /** The number under the root of a round constant. */
  function Radicand(t: nat): nat { if t < 20 then 2 else if t < 40 then 3 else if t < 60 then 5 else 10 }

  /** Each round constant is the integer part of 2^30 times a square root: of 2, 3, 5 and 10. */
  lemma RoundConstants(t: nat)
    ensures var k := K(t) as nat;
            k * k <= Radicand(t) * 0x1000_0000_0000_0000 < (k + 1) * (k + 1)
  {
  }

  lemma {:induction false} BlocksAppend(h: Hash, x: seq<bv8>, y: seq<bv8>)
    requires |x| % BLOCK == 0 && |y| % BLOCK == 0
    ensures Blocks(h, x + y) == Blocks(Blocks(h, x), y)
    decreases |x|
  {
    hide Compress;
    if x == [] {
      assert x + y == y;
    } else {
      assert (x + y)[..BLOCK] == x[..BLOCK] && (x + y)[BLOCK..] == x[BLOCK..] + y;
      BlocksAppend(Compress(h, x[..BLOCK]), x[BLOCK..], y);
    }
  }

  lemma OneBlock(h: Hash, x: seq<bv8>, b: seq<bv8>)
    requires |x| % BLOCK == 0 && |b| == BLOCK
    ensures Blocks(h, x + b) == Compress(Blocks(h, x), b)
  {
    hide Compress;
    BlocksAppend(h, x, b);
    assert b[..BLOCK] == b && b[BLOCK..] == [];
  }

  // ---------------------------------------------------------------- the round macros

  /** The code's forms of the round functions. */
  function F0(x: bv32, y: bv32, z: bv32): bv32 { z ^ (x & (y ^ z)) }

  function F2(x: bv32, y: bv32, z: bv32): bv32 { (x & y) | (z & (x | y)) }

  lemma Choose(x: bv32, y: bv32, z: bv32)
    ensures z ^ (x & (y ^ z)) == (x & y) ^ (!x & z)
  {
  }

  lemma Majority(x: bv32, y: bv32, z: bv32)
    ensures (x & y) | (z & (x | y)) == (x & y) ^ (x & z) ^ (y & z)
  {
  }

  lemma F0IsCh(x: bv32, y: bv32, z: bv32)
    ensures F0(x, y, z) == Ch(x, y, z)
  {
    Choose(x, y, z);
  }

  lemma F2IsMaj(x: bv32, y: bv32, z: bv32)
    ensures F2(x, y, z) == Maj(x, y, z)
  {
    Majority(x, y, z);
  }

  /** FF_0 to FF_3: the new value of the last variable. */
  function FF(g: nat, a: bv32, b: bv32, c: bv32, d: bv32, e: bv32, w: bv32): bv32 {
    if g == 0 then Plus(Rotl(a, 5), F0(b, c, d), e, w, 0x5A827999)
    else if g == 1 then Plus(Rotl(a, 5), Parity(b, c, d), e, w, 0x6ED9EBA1)
    else if g == 2 then Plus(Rotl(a, 5), F2(b, c, d), e, w, 0x8F1BBCDC)
    else Plus(Rotl(a, 5), Parity(b, c, d), e, w, 0xCA62C1D6)
  }

  function Plus(r: bv32, f: bv32, e: bv32, w: bv32, k: bv32): bv32 { r + f + e + w + k }

  lemma PlusIsSum(r: bv32, f: bv32, e: bv32, w: bv32, k: bv32)
    ensures Plus(r, f, e, w, k) == Sum(r, f, e, k, w)
  {
  }

  lemma FFIsRound(t: nat, s: Hash, w: bv32)
    requires t < 80
    ensures Round(s, t, w) == Hash(FF(t / 20, s.a, s.b, s.c, s.d, s.e, w), s.a, Rotl(s.b, 30), s.c, s.d)
  {
    hide Rotl, F0, F2, Ch, Maj, Parity, Plus, Sum;
    F0IsCh(s.b, s.c, s.d);
    F2IsMaj(s.b, s.c, s.d);
    PlusIsSum(Rotl(s.a, 5), Fn(t, s.b, s.c, s.d), s.e, w, K(t));
  }

  /** One macro of the unrolled loop is one round. */
  lemma NextRound(h: Hash, block: seq<bv8>, t: nat, s: Hash, g: nat)
    requires |block| == BLOCK && t < 80 && g == t / 20 && s == Rounds(h, block, t)
    ensures Rounds(h, block, t + 1)
         == Hash(FF(g, s.a, s.b, s.c, s.d, s.e, Schedule(block, t)), s.a, Rotl(s.b, 30), s.c, s.d)
  {
    hide Rotl, FF, Round;
    FFIsRound(t, s, Schedule(block, t));
  }

  // ---------------------------------------------------------------- the code

  ghost predicate Scheduled(W: array<bv32>, block: seq<bv8>, n: nat)
    requires |block| == BLOCK && n <= W.Length
    reads W
  {
    forall t :: 0 <= t < n ==> W[t] == Schedule(block, t)
  }

  /** One of the four loops of twenty rounds: five macros a turn, the variables changing places. */
  method TwentyRounds(g: nat, W: array<bv32>, ghost h: Hash, ghost block: seq<bv8>, s: Hash) returns (r: Hash)
    requires g < 4 && W.Length == 80 && |block| == BLOCK && Scheduled(W, block, 80)
    requires s == Rounds(h, block, 20 * g)
    ensures r == Rounds(h, block, 20 * g + 20)
  {
    hide Rotl, FF, Rounds, Schedule;
    var a, b, c, d, e := s.a, s.b, s.c, s.d, s.e;
    var i := 20 * g;
    while i < 20 * g + 20
      invariant 20 * g <= i <= 20 * g + 20 && i % 5 == 0
      invariant Hash(a, b, c, d, e) == Rounds(h, block, i)
    {
      NextRound(h, block, i, Hash(a, b, c, d, e), g);
      e, b := FF(g, a, b, c, d, e, W[i]), Rotl(b, 30);
      NextRound(h, block, i + 1, Hash(e, a, b, c, d), g);
      d, a := FF(g, e, a, b, c, d, W[i + 1]), Rotl(a, 30);
      NextRound(h, block, i + 2, Hash(d, e, a, b, c), g);
      c, e := FF(g, d, e, a, b, c, W[i + 2]), Rotl(e, 30);
      NextRound(h, block, i + 3, Hash(c, d, e, a, b), g);
      b, d := FF(g, c, d, e, a, b, W[i + 3]), Rotl(d, 30);
      NextRound(h, block, i + 4, Hash(b, c, d, e, a), g);
      a, c := FF(g, b, c, d, e, a, W[i + 4]), Rotl(c, 30);
      i := i + 5;
    }
    r := Hash(a, b, c, d, e);
  }

  /** The macro ROL. */
  function Rol(x: bv32, y: bv6): bv32
    requires 0 < y < 32
  {
    (x << y) | (x >> (32 - y))
  }

  lemma RolIsExpand(x: bv32, y: bv32, z: bv32, w: bv32)
    ensures Rol(Xor4(x, y, z, w), 1) == Expand(x, y, z, w)
  {
    hide Xor4;
  }

  /** csp_sha1_compress. */
  method CompressBlock(state: Hash, block: seq<bv8>) returns (r: Hash)
    requires |block| == BLOCK
    ensures r == Compress(state, block)
  {
    hide Expand, Rol, Xor4, Rounds, FromBytes, Add;
    var W := new bv32[80];
    var i := 0;
    while i < 16
      invariant 0 <= i <= 16 && Scheduled(W, block, i)
    {
      W[i] := FromBytes(block[4 * i..4 * i + 4]);
      i := i + 1;
    }
    while i < 80
      invariant 16 <= i <= 80 && Scheduled(W, block, i)
    {
      RolIsExpand(W[i - 3], W[i - 8], W[i - 14], W[i - 16]);
      W[i] := Rol(Xor4(W[i - 3], W[i - 8], W[i - 14], W[i - 16]), 1);
      i := i + 1;
    }
    StartRounds(state, block);
    var s := TwentyRounds(0, W, state, block, state);
    s := TwentyRounds(1, W, state, block, s);
    s := TwentyRounds(2, W, state, block, s);
    s := TwentyRounds(3, W, state, block, s);
    r := Add(state, s);
  }

  lemma StartRounds(h: Hash, block: seq<bv8>)
    requires |block| == BLOCK
    ensures Rounds(h, block, 0) == h
  {
  }

  lemma PadShort(m: seq<bv8>, n: nat)
    requires n <= |m| && n % 64 == 0 && |m| - n < 56
    ensures Pad(m) == m[..n] + (m[n..] + [0x80] + Zeros(55 - (|m| - n)) + Length64(8 * |m|))
  {
    hide Length64, Zeros;
    assert m == m[..n] + m[n..];
  }

  lemma PadLong(m: seq<bv8>, n: nat)
    requires n <= |m| && n % 64 == 0 && 56 <= |m| - n < 64
    ensures Pad(m) == m[..n] + (m[n..] + [0x80] + Zeros(63 - (|m| - n))) + (Zeros(56) + Length64(8 * |m|))
  {
    hide Length64;
    assert m == m[..n] + m[n..];
    assert Zeros(119 - (|m| - n)) == Zeros(63 - (|m| - n)) + Zeros(56);
  }

  /** The number of bits of some bytes, as 64 bits count them. */
  function BitsOf(bytes: nat): nat { 8 * bytes % M64 }

  /** A hash value, a bit count and the bytes left over, of a message whose whole blocks were compressed. */
  predicate Held(state: Hash, length: nat, rest: seq<bv8>, fed: seq<bv8>) {
    && |rest| <= |fed| && (|fed| - |rest|) % BLOCK == 0
    && state == Blocks(H0, fed[..|fed| - |rest|])
    && rest == fed[|fed| - |rest|..]
    && length == BitsOf(|fed| - |rest|)
  }

  lemma HeldMore(state: Hash, length: nat, rest: seq<bv8>, fed: seq<bv8>, x: seq<bv8>)
    requires Held(state, length, rest, fed)
    ensures Held(state, length, rest + x, fed + x)
  {
    hide Blocks;
    var n := |fed| - |rest|;
    assert (fed + x)[..n] == fed[..n] && (fed + x)[n..] == fed[n..] + x;
  }

  lemma BitsMore(bytes: nat, rest: nat)
    ensures (BitsOf(bytes) + 8 * rest) % M64 == BitsOf(bytes + rest)
  {
  }

  lemma HeldBlock(state: Hash, length: nat, rest: seq<bv8>, fed: seq<bv8>)
    requires Held(state, length, rest, fed) && |rest| == BLOCK
    ensures Held(Compress(state, rest), (length + 512) % M64, [], fed)
  {
    hide Compress, Blocks, BitsOf;
    var n := |fed| - BLOCK;
    OneBlock(H0, fed[..n], rest);
    BitsMore(n, BLOCK);
    assert fed[..n] + rest == fed[..|fed|];
    assert fed[|fed|..] == [];
  }

  lemma HeldShort(state: Hash, length: nat, rest: seq<bv8>, fed: seq<bv8>)
    requires Held(state, length, rest, fed) && |rest| < 56
    ensures Blocks(H0, Pad(fed)) == Compress(state, rest + [0x80] + Zeros(55 - |rest|) + Length64(8 * |fed|))
  {
    hide Compress, Blocks, Pad, Length64, Zeros;
    var n := |fed| - |rest|;
    PadShort(fed, n);
    OneBlock(H0, fed[..n], rest + [0x80] + Zeros(55 - |rest|) + Length64(8 * |fed|));
  }

  lemma HeldLong(state: Hash, length: nat, rest: seq<bv8>, fed: seq<bv8>)
    requires Held(state, length, rest, fed) && 56 <= |rest| < BLOCK
    ensures Blocks(H0, Pad(fed))
         == Compress(Compress(state, rest + [0x80] + Zeros(63 - |rest|)), Zeros(56) + Length64(8 * |fed|))
  {
    hide Compress, Blocks, Pad, Length64, Zeros;
    var n := |fed| - |rest|;
    var front, first, last := fed[..n], rest + [0x80] + Zeros(63 - |rest|), Zeros(56) + Length64(8 * |fed|);
    PadLong(fed, n);
    OneBlock(H0, front, first);
    OneBlock(H0, front + first, last);
  }

  lemma HeldBits(state: Hash, length: nat, rest: seq<bv8>, fed: seq<bv8>)
    requires Held(state, length, rest, fed)
    ensures (length + |rest| * 8) % M64 == BitsOf(|fed|)
  {
    hide Blocks, BitsOf;
    BitsMore(|fed| - |rest|, |rest|);
  }

  /** csp_sha1_state_t, and what has been fed to it. */
  class State {
    var length: nat
    var state: Hash
    var curlen: nat
    const buf: array<bv8>
    ghost var fed: seq<bv8>

    /** The whole blocks fed are in `state`, the bytes after them in `buf`. */
    ghost predicate Valid()
      reads this, buf
    {
      curlen < BLOCK == buf.Length && Held(state, length, buf[..curlen], fed)
    }

    /** csp_sha1_init. */
    constructor ()
      ensures Valid() && fresh(buf) && fed == []
    {
      buf := new bv8[BLOCK];
      length, state, curlen, fed := 0, H0, 0, [];
    }

    /** A whole block straight from the input. */
    method TakeBlock(block: seq<bv8>)
      requires Valid() && curlen == 0 && |block| == BLOCK
      modifies this
      ensures Valid() && curlen == 0 && fed == old(fed) + block
    {
      hide Held, Compress;
      assert buf[..curlen] + block == block;
      HeldMore(state, length, buf[..curlen], fed, block);
      HeldBlock(state, length, block, fed + block);
      state := CompressBlock(state, block);
      length := (length + 512) % M64;
      fed := fed + block;
      assert buf[..curlen] == [];
    }

    /** Bytes through the buffer, which is compressed once full. */
    method TakeBytes(x: seq<bv8>)
      requires Valid() && curlen + |x| <= BLOCK
      modifies this, buf
      ensures Valid() && fed == old(fed) + x
    {
      hide Held, Compress;
      HeldMore(state, length, buf[..curlen], fed, x);
      forall k | 0 <= k < |x| {
        buf[curlen + k] := x[k];
      }
      assert buf[..curlen + |x|] == old(buf[..curlen]) + x;
      curlen := curlen + |x|;
      fed := fed + x;
      if curlen == BLOCK {
        assert buf[..] == buf[..curlen];
        HeldBlock(state, length, buf[..], fed);
        state := CompressBlock(state, buf[..]);
        length := (length + 512) % M64;
        curlen := 0;
        assert buf[..curlen] == [];
      }
    }

    /** csp_sha1_process: whole blocks straight from the input, the rest through the buffer. */
    method Process(data: seq<bv8>)
      requires Valid()
      modifies this, buf
      ensures Valid() && fed == old(fed) + data
    {
      hide Held;
      var i := 0;
      while i < |data|
        invariant 0 <= i <= |data| && Valid() && fed == old(fed) + data[..i]
      {
        var n := BLOCK;
        if curlen == 0 && |data| - i >= BLOCK {
          TakeBlock(data[i..i + n]);
        } else {
          n := if |data| - i < BLOCK - curlen then |data| - i else BLOCK - curlen;
          TakeBytes(data[i..i + n]);
        }
        assert data[..i] + data[i..i + n] == data[..i + n];
        i := i + n;
      }
      assert data[..i] == data;
    }

    /** Zeros into the buffer up to a position: the two padding loops. */
    method PadTo(n: nat)
      requires curlen <= n <= BLOCK == buf.Length
      modifies this`curlen, buf
      ensures curlen == n && buf[..n] == old(buf[..curlen]) + Zeros(n - old(curlen))
    {
      while curlen < n
        invariant old(curlen) <= curlen <= n
        invariant buf[..curlen] == old(buf[..curlen]) + Zeros(curlen - old(curlen))
      {
        buf[curlen] := 0;
        curlen := curlen + 1;
      }
    }

    /** The block of padding that csp_sha1_done compresses first where the message leaves no room for the length. */
    method CloseBlock(ghost rest: seq<bv8>)
      requires curlen <= BLOCK == buf.Length && buf[..curlen] == rest + [0x80]
      modifies this`state, this`curlen, buf
      ensures if |rest| < 56 then curlen == old(curlen) && state == old(state) && buf[..curlen] == rest + [0x80]
              else curlen == 0 && state == Compress(old(state), rest + [0x80] + Zeros(63 - |rest|))
    {
      hide Compress, Zeros;
      assert curlen == |buf[..curlen]| == |rest| + 1;
      if curlen > 56 {
        PadTo(BLOCK);
        assert buf[..] == buf[..BLOCK];
        state := CompressBlock(state, buf[..]);
        curlen := 0;
      }
    }

    /** csp_sha1_done: the digest of all that was fed. */
    method Done() returns (out: seq<bv8>)
      requires Valid()
      modifies this, buf
      ensures out == HashOf(old(fed))
    {
      hide Held, Compress, Zeros, Length64, Pad, Blocks;
      ghost var rest, bits := buf[..curlen], Length64(8 * |fed|);
      HeldBits(state, length, rest, fed);
      if |rest| < 56 {
        HeldShort(state, length, rest, fed);
      } else {
        HeldLong(state, length, rest, fed);
      }
      length := (length + curlen * 8) % M64;
      SameLength(length, 8 * |fed|);
      buf[curlen] := 0x80;
      curlen := curlen + 1;
      assert buf[..curlen] == rest + [0x80];
      CloseBlock(rest);
      ghost var kept := buf[..curlen];
      PadTo(56);
      ghost var front := buf[..56];
      assert front == if |rest| < 56 then rest + [0x80] + Zeros(55 - |rest|) else Zeros(56) by {
        if |rest| >= 56 {
          assert kept + Zeros(56) == Zeros(56);
        }
      }
      StoreLength();
      assert buf[..] == front + bits;
      state := CompressBlock(state, buf[..]);
      out := Digest(state);
    }

    /** STORE64H at the end of the buffer: eight shifts, each cut to a byte. */
    method StoreLength()
      requires buf.Length == BLOCK && length < M64
      modifies buf
      ensures buf[..56] == old(buf[..56]) && buf[56..] == Length64(length)
    {
      hide ShiftedByte, Digit256;
      Store64IsLength(length);
      buf[56], buf[57] := ShiftedByte(length, 7), ShiftedByte(length, 6);
      buf[58], buf[59] := ShiftedByte(length, 5), ShiftedByte(length, 4);
      buf[60], buf[61] := ShiftedByte(length, 3), ShiftedByte(length, 2);
      buf[62], buf[63] := ShiftedByte(length, 1), ShiftedByte(length, 0);
    }
  }

  /** A number shifted right by `i` bytes, and its low byte. */
  function Shifted(n: nat, i: nat): int { n / Power256(i) }

  function ShiftedByte(n: nat, i: nat): bv8 { Octet(Shifted(n, i) % 256) }

  lemma Store64IsLength(n: nat)
    requires n < M64
    ensures forall i :: 0 <= i < 8 ==> Length64(n)[i] == ShiftedByte(n, 7 - i)
  {
    hide ShiftedByte, Digit256;
    forall i | 0 <= i < 8 ensures Length64(n)[i] == ShiftedByte(n, 7 - i) {
      DigitIs(n, 7 - i);
    }
  }

  function Power256(i: nat): (p: nat)
    ensures p > 0
  {
    if i == 0 then 1 else 256 * Power256(i - 1)
  }

  lemma {:induction false} DigitIs(n: nat, i: nat)
    ensures Digit256(n, i) == ShiftedByte(n, i)
    decreases i
  {
    hide Octet, Shifted;
    if i > 0 {
      DigitIs(n / 256, i - 1);
      ShiftedNext(n, i - 1);
    } else {
      ShiftedNone(n);
    }
  }

  lemma ShiftedNone(n: nat)
    ensures Shifted(n, 0) == n
  {
  }

  lemma ShiftedNext(n: nat, i: nat)
    ensures Shifted(n, i + 1) == Shifted(n / 256, i)
  {
    var b, p := Power256(i), Power256(i + 1);
    assert p == 256 * b;
    hide Power256;
    DivideTwice(n, b, p);
  }

  lemma DivideTwice(n: nat, b: nat, p: nat)
    requires b > 0 && p == 256 * b
    ensures n / 256 / b == n / p
  {
    var x := n / 256;
    var q := x / b;
    var rest := 256 * (x % b) + n % 256;
    assert x == q * b + x % b;
    Regroup(n, x, q, b, x % b, n % 256, p);
    Quotient(n, p, q, rest);
  }

  lemma Regroup(n: nat, x: nat, q: nat, b: nat, r: nat, s: nat, p: nat)
    requires n == 256 * x + s && x == q * b + r && r < b && s < 256 && p == 256 * b
    ensures n == q * p + (256 * r + s) && 256 * r + s < p
  {
    assert q * p == 256 * (q * b);
  }

  lemma Quotient(n: nat, d: nat, q: nat, r: nat)
    requires d > 0 && n == q * d + r && r < d
    ensures n / d == q
  {
    var e := n / d;
    assert n == e * d + n % d;
    if e < q {
      AtLeastOneMore(e, q, d);
    } else if e > q {
      AtLeastOneMore(q, e, d);
    }
  }

  lemma AtLeastOneMore(x: nat, y: nat, d: nat)
    requires x < y
    ensures x * d + d <= y * d
  {
    assert (x + 1) * d <= y * d;
  }

  lemma SameLength(m: nat, n: nat)
    requires m % M64 == n % M64
    ensures Length64(m) == Length64(n)
  {
  }

  // ---------------------------------------------------------------- pieces

  lemma NextPiece(pieces: seq<seq<bv8>>, i: nat, fed: seq<bv8>)
    requires i < |pieces|
    ensures fed + Concat(pieces[i..]) == fed + pieces[i] + Concat(pieces[i + 1..])
  {
  }

  lemma NoPiece()
    ensures Concat<bv8>([]) == []
  {
  }

  /** csp_sha1_init, csp_sha1_process for every piece, csp_sha1_done: however a message is cut, the digest is that of
      the whole. */
  method DigestOfPieces(pieces: seq<seq<bv8>>) returns (out: seq<bv8>)
    ensures out == HashOf(Concat(pieces))
  {
    hide *;
    var md := new State();
    var i := 0;
    assert pieces[0..] == pieces;
    assert md.fed + Concat(pieces) == Concat(pieces);
    while i < |pieces|
      invariant 0 <= i <= |pieces| && md.Valid() && fresh(md) && fresh(md.buf)
      invariant md.fed + Concat(pieces[i..]) == Concat(pieces)
    {
      NextPiece(pieces, i, md.fed);
      md.Process(pieces[i]);
      i := i + 1;
    }
    NoPiece();
    assert pieces[i..] == [] && md.fed + [] == md.fed;
    out := md.Done();
  }

  /** csp_sha1_memory. */
  method Memory(msg: seq<bv8>) returns (hash: seq<bv8>)
    ensures hash == HashOf(msg)
  {
    hide *;
    var md := new State();
    md.Process(msg);
    assert [] + msg == msg;
    hash := md.Done();
  }
}
