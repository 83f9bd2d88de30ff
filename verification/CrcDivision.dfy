/** Reflected division by the CRC-32C polynomial, bit by bit and a byte at a time. */
module CrcDivision {
  import opened CrcTable

  // ---------------------------------------------------------------- the definition

  /** One step of the register of the division: if the bit that leaves is set, the reflected polynomial of section
      12.1 of RFC 3720 is subtracted. */
  function Shift(x: bv32): bv32 { if x & 1 == 1 then (x >> 1) ^ 0x82F63B78 else x >> 1 }

  /** One message bit enters. */
  function BitStep(c: bv32, bit: bool): bv32 { Shift(if bit then Xor(c, 1) else c) }

  predicate LowBit(b: bv8) { b & 1 == 1 }

  function Upper(b: bv8): bv8 { b >> 1 }

  /** The `n` low bits of a byte enter, least significant first. */
  function FeedBits(c: bv32, b: bv8, n: nat): bv32
    decreases n
  {
    if n == 0 then c else FeedBits(BitStep(c, LowBit(b)), Upper(b), n - 1)
  }

  function Feed(c: bv32, b: bv8): bv32 { FeedBits(c, b, 8) }

  // ---------------------------------------------------------------- the division is linear

  function Half(x: bv32): bv32 { x >> 1 }

  predicate Odd(x: bv32) { x & 1 == 1 }

  lemma XorAssoc(x: bv32, y: bv32, z: bv32)
    ensures Xor(Xor(x, y), z) == Xor(x, Xor(y, z))
  {
  }

  lemma XorComm(x: bv32, y: bv32)
    ensures Xor(x, y) == Xor(y, x)
  {
  }

  lemma XorTwice(x: bv32, y: bv32)
    ensures Xor(Xor(x, y), y) == x
  {
  }

  lemma HalfXor(x: bv32, y: bv32)
    ensures Half(Xor(x, y)) == Xor(Half(x), Half(y))
  {
  }

  lemma OddXor(x: bv32, y: bv32)
    ensures Odd(Xor(x, y)) <==> Odd(x) != Odd(y)
  {
  }

  const POLYNOMIAL: bv32 := 0x82F63B78

  lemma ShiftIs(x: bv32)
    ensures Shift(x) == if Odd(x) then Xor(Half(x), POLYNOMIAL) else Half(x)
  {
  }

  lemma ShiftLinear(x: bv32, y: bv32)
    ensures Shift(Xor(x, y)) == Xor(Shift(x), Shift(y))
  {
    hide Shift, Odd, Half, Xor;
    var u, v, p := Half(x), Half(y), POLYNOMIAL;
    ShiftIs(x);
    ShiftIs(y);
    ShiftIs(Xor(x, y));
    HalfXor(x, y);
    OddXor(x, y);
    XorAssoc(u, v, p);
    XorAssoc(u, p, v);
    XorAssoc(u, p, Xor(v, p));
    XorComm(p, v);
    XorComm(p, Xor(v, p));
    XorTwice(v, p);
  }

  lemma TopBit(x: bv32)
    ensures Half(x) < 0x8000_0000 <= Xor(Half(x), POLYNOMIAL)
  {
  }

  lemma SameParts(x: bv32, y: bv32)
    requires Half(x) == Half(y) && (Odd(x) <==> Odd(y))
    ensures x == y
  {
  }

  lemma ShiftInjective(x: bv32, y: bv32)
    requires Shift(x) == Shift(y)
    ensures x == y
  {
    hide Shift, Odd, Half, Xor;
    ShiftIs(x);
    ShiftIs(y);
    TopBit(x);
    TopBit(y);
    XorTwice(Half(x), POLYNOMIAL);
    XorTwice(Half(y), POLYNOMIAL);
    SameParts(x, y);
  }

  function ShiftN(c: bv32, n: nat): bv32
    decreases n
  {
    if n == 0 then c else ShiftN(Shift(c), n - 1)
  }

  lemma {:induction false} ShiftNLinear(x: bv32, y: bv32, n: nat)
    ensures ShiftN(Xor(x, y), n) == Xor(ShiftN(x, n), ShiftN(y, n))
    decreases n
  {
    hide Shift, Xor;
    if n > 0 {
      ShiftLinear(x, y);
      ShiftNLinear(Shift(x), Shift(y), n - 1);
    }
  }

  lemma {:induction false} ShiftNInjective(x: bv32, y: bv32, n: nat)
    requires ShiftN(x, n) == ShiftN(y, n)
    ensures x == y
    decreases n
  {
    hide Shift;
    if n > 0 {
      ShiftNInjective(Shift(x), Shift(y), n - 1);
      ShiftInjective(x, y);
    }
  }

  // ---------------------------------------------------------------- whole bytes at a time

  function Wide(b: bv8): bv32 { b as bv32 }

  /** A byte without its lowest bit. */
  function Rest(b: bv8): bv32 { (b & 0xFE) as bv32 }

  lemma RestShifts(b: bv8)
    ensures Shift(Rest(b)) == Wide(Upper(b))
  {
  }

  lemma OddByte(c: bv32, b: bv8)
    requires LowBit(b)
    ensures Xor(Xor(c, 1), Rest(b)) == Xor(c, Wide(b))
  {
  }

  lemma EvenByte(c: bv32, b: bv8)
    requires !LowBit(b)
    ensures Xor(c, Rest(b)) == Xor(c, Wide(b))
  {
  }

  /** Feeding the lowest bit of a byte that was added whole. */
  lemma OneBit(c: bv32, b: bv8)
    ensures Xor(BitStep(c, LowBit(b)), Wide(Upper(b))) == Shift(Xor(c, Wide(b)))
  {
    hide Shift, Rest, Xor, LowBit, Wide, Upper;
    RestShifts(b);
    if LowBit(b) {
      OddByte(c, b);
      ShiftLinear(Xor(c, 1), Rest(b));
    } else {
      EvenByte(c, b);
      ShiftLinear(c, Rest(b));
    }
  }

  predicate NoBitsFrom(b: bv8, n: nat)
    decreases n
  {
    if n == 0 then b == 0 else NoBitsFrom(Upper(b), n - 1)
  }

  lemma XorZero(c: bv32)
    ensures Xor(c, Wide(0)) == c
  {
  }

  /** Feeding bits one by one is adding them all and shifting. */
  lemma {:induction false} FeedIsShiftN(c: bv32, b: bv8, n: nat)
    requires NoBitsFrom(b, n)
    ensures FeedBits(c, b, n) == ShiftN(Xor(c, Wide(b)), n)
    decreases n
  {
    hide Shift, Xor, BitStep, LowBit, Upper, Wide;
    if n > 0 {
      OneBit(c, b);
      FeedIsShiftN(BitStep(c, LowBit(b)), Upper(b), n - 1);
    } else {
      XorZero(c);
    }
  }

  lemma ByteFits(b: bv8)
    ensures NoBitsFrom(b, 8)
  {
    assert NoBitsFrom(b, 8) == NoBitsFrom(b >> 4, 4);
  }

  function And(x: bv32, y: bv32): bv32 { x & y }

  predicate ClearBelow(x: bv32, n: nat)
    decreases n
  {
    n == 0 || (!Odd(x) && ClearBelow(Half(x), n - 1))
  }

  function HalfN(x: bv32, n: nat): bv32
    decreases n
  {
    if n == 0 then x else HalfN(Half(x), n - 1)
  }

  lemma {:induction false} ClearShifts(x: bv32, n: nat)
    requires ClearBelow(x, n)
    ensures ShiftN(x, n) == HalfN(x, n)
    decreases n
  {
    hide Shift, Odd, Half, Xor;
    if n > 0 {
      ShiftIs(x);
      ClearShifts(Half(x), n - 1);
    }
  }

  lemma HalfAnd(x: bv32, m: bv32)
    ensures Half(And(x, m)) == And(Half(x), Half(m))
    ensures !Odd(m) ==> !Odd(And(x, m))
  {
  }

  lemma {:induction false} MaskClears(x: bv32, m: bv32, n: nat)
    requires ClearBelow(m, n)
    ensures ClearBelow(And(x, m), n) && HalfN(And(x, m), n) == And(HalfN(x, n), HalfN(m, n))
    decreases n
  {
    hide Half, Odd, And;
    if n > 0 {
      HalfAnd(x, m);
      MaskClears(Half(x), Half(m), n - 1);
    }
  }

  lemma EightHalves(x: bv32)
    ensures Half(Half(Half(Half(Half(Half(Half(Half(x)))))))) == Down(x)
  {
  }

  lemma HalfEight(x: bv32)
    ensures HalfN(x, 8) == Down(x)
  {
    hide Half, Down;
    EightHalves(x);
    assert HalfN(x, 8) == HalfN(Half(Half(Half(Half(x)))), 4);
  }

  const LOW: bv32 := 0xFF
  const HIGH: bv32 := 0xFFFF_FF00

  lemma HighMask()
    ensures ClearBelow(HIGH, 8)
  {
    assert ClearBelow(HIGH, 8) == ClearBelow(0x0FFF_FFF0, 4);
  }

  lemma DownMask(x: bv32)
    ensures And(Down(x), Down(HIGH)) == Down(x)
  {
  }

  /** Above the low byte nothing leaves within eight bits. */
  lemma HighShifts(x: bv32)
    ensures ShiftN(And(x, HIGH), 8) == Down(x)
  {
    hide Shift, Half, Odd, ShiftN, HalfN, ClearBelow, And, Down;
    HighMask();
    MaskClears(x, HIGH, 8);
    ClearShifts(And(x, HIGH), 8);
    HalfEight(x);
    HalfEight(HIGH);
    DownMask(x);
  }

  lemma {:induction false} ZeroShifts(n: nat)
    ensures ShiftN(0, n) == 0
    decreases n
  {
    if n > 0 {
      ZeroShifts(n - 1);
    }
  }

  /** The eight low bits and what eight shifts make of each. */
  function Bit(i: nat): bv32
    requires i < 8
  {
    [0x01, 0x02, 0x04, 0x08, 0x10, 0x20, 0x40, 0x80][i]
  }

  function Image(i: nat): bv32
    requires i < 8
  {
    [0xF26B8303, 0xE13B70F7, 0xC79A971F, 0x8AD958CF, 0x105EC76F, 0x20BD8EDE, 0x417B1DBC, 0x82F63B78][i]
  }

  lemma BitShifts(i: nat)
    requires i < 8
    ensures ShiftN(Bit(i), 8) == Image(i)
  {
    if i == 0 {
      assert ShiftN(0x01, 8) == ShiftN(0x105EC76F, 4);
    } else if i == 1 {
      assert ShiftN(0x02, 8) == ShiftN(0x20BD8EDE, 4);
    } else if i == 2 {
      assert ShiftN(0x04, 8) == ShiftN(0x417B1DBC, 4);
    } else if i == 3 {
      assert ShiftN(0x08, 8) == ShiftN(0x82F63B78, 4);
    } else if i == 4 {
      assert ShiftN(0x10, 8) == ShiftN(0x00000001, 4);
    } else if i == 5 {
      assert ShiftN(0x20, 8) == ShiftN(0x00000002, 4);
    } else if i == 6 {
      assert ShiftN(0x40, 8) == ShiftN(0x00000004, 4);
    } else if i == 7 {
      assert ShiftN(0x80, 8) == ShiftN(0x00000008, 4);
    }
  }

  lemma Bit0or1(x: bv32, i: nat)
    requires i < 8
    ensures And(x, Bit(i)) == 0 || And(x, Bit(i)) == Bit(i)
    ensures Term(x, i) == if And(x, Bit(i)) == 0 then 0 else Image(i)
  {
    if i == 0 {
    } else if i == 1 {
    } else if i == 2 {
    } else if i == 3 {
    } else if i == 4 {
    } else if i == 5 {
    } else if i == 6 {
    } else if i == 7 {
    }
  }

  /** What one low bit contributes. */
  lemma BitContributes(x: bv32, i: nat)
    requires i < 8
    ensures ShiftN(And(x, Bit(i)), 8) == Term(x, i)
  {
    hide And, Shift, Term, Bit, Image;
    BitShifts(i);
    Bit0or1(x, i);
    ZeroShifts(8);
  }

  /** The register put together from its part above the low byte and its first `n` bits. */
  function Upto(x: bv32, n: nat): bv32
    requires n <= 8
    decreases n
  {
    if n == 0 then And(x, HIGH) else Xor(Upto(x, n - 1), And(x, Bit(n - 1)))
  }

  function Terms(x: bv32, n: nat): bv32
    requires n <= 8
    decreases n
  {
    if n == 0 then Down(x) else Xor(Terms(x, n - 1), Term(x, n - 1))
  }

  lemma {:induction false} UptoShifts(x: bv32, n: nat)
    requires n <= 8
    ensures ShiftN(Upto(x, n), 8) == Terms(x, n)
    decreases n
  {
    hide And, Shift, ShiftN, Term, Bit, Xor, Down;
    if n == 0 {
      HighShifts(x);
    } else {
      UptoShifts(x, n - 1);
      BitContributes(x, n - 1);
      ShiftNLinear(Upto(x, n - 1), And(x, Bit(n - 1)), 8);
    }
  }

  /** The bits the register is put together from so far. */
  function Cover(n: nat): bv32
    requires n <= 8
  {
    [0xFFFF_FF00, 0xFFFF_FF01, 0xFFFF_FF03, 0xFFFF_FF07, 0xFFFF_FF0F, 0xFFFF_FF1F, 0xFFFF_FF3F, 0xFFFF_FF7F,
     0xFFFF_FFFF][n]
  }

  lemma AndXor(x: bv32, m: bv32, n: bv32)
    ensures And(x, Xor(m, n)) == Xor(And(x, m), And(x, n))
  {
  }

  lemma CoverNext(n: nat)
    requires n < 8
    ensures Xor(Cover(n), Bit(n)) == Cover(n + 1)
  {
    if n == 0 {
    } else if n == 1 {
    } else if n == 2 {
    } else if n == 3 {
    } else if n == 4 {
    } else if n == 5 {
    } else if n == 6 {
    } else if n == 7 {
    }
  }

  lemma {:induction false} UptoCovers(x: bv32, n: nat)
    requires n <= 8
    ensures Upto(x, n) == And(x, Cover(n))
    decreases n
  {
    hide And, Xor, Bit;
    if n > 0 {
      UptoCovers(x, n - 1);
      CoverNext(n - 1);
      AndXor(x, Cover(n - 1), Bit(n - 1));
    }
  }

  lemma AndAll(x: bv32)
    ensures And(x, 0xFFFF_FFFF) == x
  {
  }

  lemma AllBits(x: bv32)
    ensures Upto(x, 8) == x
  {
    hide And, Upto;
    UptoCovers(x, 8);
    AndAll(x);
  }

  lemma AllTerms(x: bv32)
    ensures Terms(x, 8) == ByteStep(x)
  {
    hide Down, Xor, Term;
    assert Terms(x, 2) == Xor(Xor(Down(x), Term(x, 0)), Term(x, 1));
    assert Terms(x, 4) == HalfStep(x);
    assert Terms(x, 6) == Xor(Xor(HalfStep(x), Term(x, 4)), Term(x, 5));
  }

  /** Eight bits of the division are one step of the linear map. */
  lemma EightShifts(x: bv32)
    ensures ShiftN(x, 8) == ByteStep(x)
  {
    hide Upto, Terms, ShiftN, ByteStep;
    AllBits(x);
    UptoShifts(x, 8);
    AllTerms(x);
  }

  lemma FeedIsByteStep(c: bv32, b: bv8)
    ensures Feed(c, b) == ByteStep(Xor(c, Wide(b)))
  {
    hide Xor, Wide, ByteStep, ShiftN, FeedBits;
    ByteFits(b);
    FeedIsShiftN(c, b, 8);
    EightShifts(Xor(c, Wide(b)));
  }

  lemma ByteStepLinear(x: bv32, y: bv32)
    ensures ByteStep(Xor(x, y)) == Xor(ByteStep(x), ByteStep(y))
  {
    hide Xor, ByteStep, ShiftN;
    EightShifts(x);
    EightShifts(y);
    EightShifts(Xor(x, y));
    ShiftNLinear(x, y, 8);
  }

  lemma ByteStepInjective(x: bv32, y: bv32)
    requires ByteStep(x) == ByteStep(y)
    ensures x == y
  {
    hide ByteStep, ShiftN;
    EightShifts(x);
    EightShifts(y);
    ShiftNInjective(x, y, 8);
  }

  /** A byte step moves down what is above the low byte. */
  lemma ByteStepHigh(x: bv32)
    ensures ByteStep(And(x, HIGH)) == Down(x)
  {
    hide ByteStep, ShiftN, And, Down;
    EightShifts(And(x, HIGH));
    HighShifts(x);
  }
}
