/** CRC-32C: the table-driven loop against bit-by-bit division, and the bursts it detects. */
module Crc32 {
  import opened CrcTable
  import opened CrcDivision

  // ---------------------------------------------------------------- registers fed with bytes

  /** A register of any kind after a byte string. */
  function Fold<R>(step: (R, bv8) -> R, c: R, data: seq<bv8>): R
    decreases data
  {
    if data == [] then c else Fold(step, step(c, data[0]), data[1..])
  }

  lemma {:induction false} FoldAppend<R>(step: (R, bv8) -> R, c: R, data: seq<bv8>, rest: seq<bv8>)
    ensures Fold(step, c, data + rest) == Fold(step, Fold(step, c, data), rest)
    decreases data
  {
    if data == [] {
      assert data + rest == rest;
    } else {
      assert (data + rest)[1..] == data[1..] + rest;
      FoldAppend(step, step(c, data[0]), data[1..], rest);
    }
  }

  /** A byte in common keeps different registers different. */
  ghost predicate KeepsApart<R(!new)>(step: (R, bv8) -> R) {
    forall x: R, y: R, b: bv8 :: step(x, b) == step(y, b) ==> x == y
  }

  lemma {:induction false} CommonTail<R(!new)>(step: (R, bv8) -> R, x: R, y: R, t: seq<bv8>)
    requires KeepsApart(step) && Fold(step, x, t) == Fold(step, y, t)
    ensures x == y
    decreases t
  {
    if t != [] {
      CommonTail(step, step(x, t[0]), step(y, t[0]), t[1..]);
      var b: bv8 := t[0];
      assert step(x, b) == step(y, b);
    }
  }

  /** How far one byte reaches. A byte is added to the register (`add`) and the register moved on (`move`); `low` is
      the part the byte was added to, and `h1`, `h2`, `h3` are the parts above one, two and three bytes. */
  datatype Machine<!R> = Machine(add: (R, bv8) -> R, move: R -> R, low: R -> R, h1: R -> R, h2: R -> R, h3: R -> R)

  /** A part of the moved register tells a part of the register before. */
  ghost predicate Tells<R(!new)>(move: R -> R, part: R -> R, before: R -> R) {
    forall p: R, q: R :: part(move(p)) == part(move(q)) ==> before(p) == before(q)
  }

  ghost predicate Untouched<R(!new)>(add: (R, bv8) -> R, part: R -> R) {
    forall x: R, b: bv8 :: part(add(x, b)) == part(x)
  }

  ghost predicate StepsLike<R(!new)>(step: (R, bv8) -> R, g: Machine<R>) {
    forall x: R, b: bv8 :: step(x, b) == g.move(g.add(x, b))
  }

  ghost predicate Moves<R(!new)>(move: R -> R) {
    forall p: R, q: R :: move(p) == move(q) ==> p == q
  }

  ghost predicate Adds<R(!new)>(add: (R, bv8) -> R, low: R -> R) {
    forall x: R, b: bv8, d: bv8 :: low(add(x, b)) == low(add(x, d)) ==> b == d
  }

  ghost predicate Reaches<R(!new)>(step: (R, bv8) -> R, g: Machine<R>) {
    && StepsLike(step, g) && Moves(g.move) && Adds(g.add, g.low)
    && Tells(g.move, g.h1, g.low) && Tells(g.move, g.h2, g.low) && Tells(g.move, g.h3, g.low)
    && Tells(g.move, g.h1, g.h2) && Tells(g.move, g.h2, g.h3)
    && Untouched(g.add, g.h1) && Untouched(g.add, g.h2) && Untouched(g.add, g.h3)
  }

  /** If up to four bytes lead two registers to the same value, the registers agree above what the bytes reach, and
      their low parts agree once the first byte is added. */
  lemma {:induction false} Peel<R(!new)>(step: (R, bv8) -> R, g: Machine<R>, x: R, y: R, m: seq<bv8>, n: seq<bv8>)
    requires Reaches(step, g)
    requires 1 <= |m| == |n| <= 4 && Fold(step, x, m) == Fold(step, y, n)
    ensures g.low(g.add(x, m[0])) == g.low(g.add(y, n[0]))
    ensures |m| == 1 ==> g.h1(x) == g.h1(y)
    ensures |m| == 2 ==> g.h2(x) == g.h2(y)
    ensures |m| == 3 ==> g.h3(x) == g.h3(y)
    decreases |m|
  {
    var b: bv8, d: bv8 := m[0], n[0];
    var p, q := g.add(x, b), g.add(y, d);
    assert step(x, b) == g.move(p) && step(y, d) == g.move(q);
    if |m| > 1 {
      Peel(step, g, g.move(p), g.move(q), m[1..], n[1..]);
    } else {
      assert g.move(p) == g.move(q);
    }
    assert g.h1(p) == g.h1(x) && g.h1(q) == g.h1(y);
    assert g.h2(p) == g.h2(x) && g.h2(q) == g.h2(y);
    assert g.h3(p) == g.h3(x) && g.h3(q) == g.h3(y);
  }

  /** Up to four bytes into the same register: different bytes, different registers. */
  lemma {:induction false} FourBytesInjective<R(!new)>(step: (R, bv8) -> R, g: Machine<R>,
                                                       x: R, m: seq<bv8>, n: seq<bv8>)
    requires Reaches(step, g)
    requires |m| == |n| <= 4 && Fold(step, x, m) == Fold(step, x, n)
    ensures m == n
    decreases |m|
  {
    if m != [] {
      Peel(step, g, x, x, m, n);
      var b: bv8, d: bv8 := m[0], n[0];
      assert g.low(g.add(x, b)) == g.low(g.add(x, d));
      FourBytesInjective(step, g, step(x, b), m[1..], n[1..]);
      assert m == [m[0]] + m[1..] && n == [n[0]] + n[1..];
    }
  }

  /** A burst of up to four bytes between a common head and a common tail shows. */
  lemma BurstShows<R(!new)>(step: (R, bv8) -> R, g: Machine<R>, c: R,
                            head: seq<bv8>, m: seq<bv8>, n: seq<bv8>, tail: seq<bv8>)
    requires Reaches(step, g) && KeepsApart(step)
    requires |m| == |n| <= 4 && Fold(step, c, head + m + tail) == Fold(step, c, head + n + tail)
    ensures m == n
  {
    var d := Fold(step, c, head);
    FoldAppend(step, c, head + m, tail);
    FoldAppend(step, c, head + n, tail);
    FoldAppend(step, c, head, m);
    FoldAppend(step, c, head, n);
    CommonTail(step, Fold(step, d, m), Fold(step, d, n), tail);
    FourBytesInjective(step, g, d, m, n);
  }

  // ---------------------------------------------------------------- the definition

  /** Bit-by-bit reflected division of a byte string. */
  function Divide(c: bv32, data: seq<bv8>): bv32 { Fold(Feed, c, data) }

  /** CRC-32C of a byte string. */
  function Crc(data: seq<bv8>): bv32 { Xor(Divide(0xFFFFFFFF, data), 0xFFFFFFFF) }

  // ---------------------------------------------------------------- the code

  function LowByte(x: bv32): bv8 { (x & 0xFF) as bv8 }

  /** The loop body of csp_crc32_memory. */
  function TableStep(crc: bv32, b: bv8): bv32 { Xor(Tab(LowByte(Xor(crc, Wide(b)))), Down(crc)) }

  lemma LowAndHigh(crc: bv32, b: bv8)
    ensures Xor(Wide(LowByte(Xor(crc, Wide(b)))), And(crc, HIGH)) == Xor(crc, Wide(b))
  {
  }

  function RowOf(b: bv8): bv8 { b >> 3 }

  function ColumnOf(b: bv8): bv8 { b & 7 }

  lemma RowAndColumn(b: bv8)
    ensures RowOf(b) < 32 && ColumnOf(b) < 8 && Xor(Start(RowOf(b)), Wide(ColumnOf(b))) == Wide(b)
  {
  }

  lemma FirstEntry(x: bv32)
    ensures Xor(x, Rows0(0)[0]) == x
  {
  }

  lemma ColumnAt(r: seq<bv32>, j: bv8)
    requires |r| == 8 && Columns(r) && j < 8
    ensures r[j as int] == Xor(r[0], Rows0(0)[j as int])
  {
    hide Xor, Rows0;
    FirstEntry(r[0]);
    if j == 0 {
    } else if j == 1 {
    } else if j == 2 {
    } else if j == 3 {
    } else if j == 4 {
    } else if j == 5 {
    } else if j == 6 {
    } else if j == 7 {
    }
  }

  lemma EntryAt(b: bv8)
    ensures Tab(b) == Row(RowOf(b))[ColumnOf(b) as int]
  {
  }

  /** Every entry of the table is eight bits of the division. */
  lemma TableIsDivision(b: bv8)
    ensures Tab(b) == ByteStep(Wide(b))
  {
    hide Tab, Row, Rows0, Columns, ByteStep, Xor, Start, Wide, RowOf, ColumnOf;
    var h, j := RowOf(b), ColumnOf(b);
    RowAndColumn(b);
    EntryAt(b);
    RowEntries(h);
    ColumnAt(Row(h), j);
    FirstColumn(j);
    ByteStepLinear(Start(h), Wide(j));
  }

  lemma FirstColumn(j: bv8)
    requires j < 8
    ensures Rows0(0)[j as int] == ByteStep(Wide(j))
  {
    hide ByteStep, Rows0;
    FirstRow(j);
  }

  lemma TableStepIsByteStep(crc: bv32, b: bv8)
    ensures TableStep(crc, b) == ByteStep(Xor(crc, Wide(b)))
  {
    hide Tab, LowByte, Xor, Wide, Down, And, ByteStep;
    var l := LowByte(Xor(crc, Wide(b)));
    TableIsDivision(l);
    LowAndHigh(crc, b);
    ByteStepLinear(Wide(l), And(crc, HIGH));
    ByteStepHigh(crc);
  }

  /** One table lookup is eight bits of the division. */
  lemma TableStepIsDivision(crc: bv32, b: bv8)
    ensures TableStep(crc, b) == Feed(crc, b)
  {
    hide TableStep, Feed, ByteStep, Xor, Wide;
    TableStepIsByteStep(crc, b);
    FeedIsByteStep(crc, b);
  }

  /** csp_crc32_memory: one lookup a byte. */
  method Memory(data: seq<bv8>) returns (crc: bv32)
    ensures crc == Crc(data)
  {
    hide TableStep, Feed;
    crc := 0xFFFFFFFF;
    var i := 0;
    while i < |data|
      invariant 0 <= i <= |data|
      invariant Fold(Feed, crc, data[i..]) == Fold(Feed, 0xFFFFFFFF, data)
    {
      TableStepIsDivision(crc, data[i]);
      crc := TableStep(crc, data[i]);
      assert data[i..][1..] == data[i + 1..];
      i := i + 1;
    }
    crc := Xor(crc, 0xFFFFFFFF);
  }

  // ---------------------------------------------------------------- bursts

  function Add(c: bv32, b: bv8): bv32 { Xor(c, Wide(b)) }

  function Low(c: bv32): bv32 { c & 0xFF }

  function H1(c: bv32): bv32 { c >> 8 }

  function H2(c: bv32): bv32 { c >> 16 }

  function H3(c: bv32): bv32 { c >> 24 }

  const DIVISION: Machine<bv32> := Machine(Add, ByteStep, Low, H1, H2, H3)

  lemma Add1(x: bv32, b: bv8)
    ensures H1(Add(x, b)) == H1(x)
  {
  }

  lemma Add2(x: bv32, b: bv8)
    ensures H2(Add(x, b)) == H2(x)
  {
  }

  lemma Add3(x: bv32, b: bv8)
    ensures H3(Add(x, b)) == H3(x)
  {
  }

  lemma AddLow(x: bv32, b: bv8, d: bv8)
    requires Low(Add(x, b)) == Low(Add(x, d))
    ensures b == d
  {
  }

  lemma DivisionSteps()
    ensures StepsLike(Feed, DIVISION)
  {
    hide Feed, ByteStep, Add;
    forall x: bv32, b: bv8 ensures Feed(x, b) == ByteStep(Add(x, b)) {
      FeedIsByteStepAdd(x, b);
    }
  }

  lemma FeedIsByteStepAdd(x: bv32, b: bv8)
    ensures Feed(x, b) == ByteStep(Add(x, b))
  {
    hide Feed, ByteStep, Xor, Wide;
    FeedIsByteStep(x, b);
  }

  lemma DivisionMoves()
    ensures Moves(ByteStep)
  {
    hide ByteStep;
    forall p: bv32, q: bv32 | ByteStep(p) == ByteStep(q) ensures p == q {
      ByteStepInjective(p, q);
    }
  }

  /** What leaves the low byte shows in the top byte. */
  lemma TopTellsLow(d: bv32)
    requires H3(ByteStep(d)) == 0
    ensures Low(d) == 0
  {
  }

  lemma LowClear(d: bv32)
    requires Low(d) == 0
    ensures And(d, HIGH) == d && H1(Down(d)) == H2(d) && H2(Down(d)) == H3(d)
  {
  }

  lemma Higher(x: bv32)
    ensures H1(x) == 0 ==> H2(x) == 0
    ensures H2(x) == 0 ==> H3(x) == 0
  {
  }

  lemma XorWithZero(x: bv32)
    ensures Xor(0, x) == x && Xor(x, x) == 0
  {
  }

  lemma XorSame(x: bv32, y: bv32)
    ensures Xor(x, y) == 0 <==> x == y
  {
    hide Xor;
    XorTwice(x, y);
    XorWithZero(y);
  }

  lemma LowXor(x: bv32, y: bv32)
    ensures Low(Xor(x, y)) == Xor(Low(x), Low(y))
  {
  }

  lemma H1Xor(x: bv32, y: bv32)
    ensures H1(Xor(x, y)) == Xor(H1(x), H1(y))
  {
  }

  lemma H2Xor(x: bv32, y: bv32)
    ensures H2(Xor(x, y)) == Xor(H2(x), H2(y))
  {
  }

  lemma H3Xor(x: bv32, y: bv32)
    ensures H3(Xor(x, y)) == Xor(H3(x), H3(y))
  {
  }

  lemma H1TellsLow(p: bv32, q: bv32)
    requires H1(ByteStep(p)) == H1(ByteStep(q))
    ensures Low(p) == Low(q)
  {
    hide ByteStep, Xor, And, Down, Low, H1, H2, H3;
    var d := Xor(p, q);
    ByteStepLinear(p, q);
    H1Xor(ByteStep(p), ByteStep(q));
    XorSame(H1(ByteStep(p)), H1(ByteStep(q)));
    Higher(ByteStep(d));
    TopTellsLow(d);
    LowXor(p, q);
    XorSame(Low(p), Low(q));
  }

  lemma H1TellsH2(p: bv32, q: bv32)
    requires H1(ByteStep(p)) == H1(ByteStep(q))
    ensures H2(p) == H2(q)
  {
    hide ByteStep, Xor, And, Down, Low, H1, H2, H3;
    var d := Xor(p, q);
    ByteStepLinear(p, q);
    H1Xor(ByteStep(p), ByteStep(q));
    XorSame(H1(ByteStep(p)), H1(ByteStep(q)));
    Higher(ByteStep(d));
    TopTellsLow(d);
    LowClear(d);
    ByteStepHigh(d);
    H2Xor(p, q);
    XorSame(H2(p), H2(q));
  }

  lemma H2TellsLow(p: bv32, q: bv32)
    requires H2(ByteStep(p)) == H2(ByteStep(q))
    ensures Low(p) == Low(q)
  {
    hide ByteStep, Xor, And, Down, Low, H1, H2, H3;
    var d := Xor(p, q);
    ByteStepLinear(p, q);
    H2Xor(ByteStep(p), ByteStep(q));
    XorSame(H2(ByteStep(p)), H2(ByteStep(q)));
    Higher(ByteStep(d));
    TopTellsLow(d);
    LowXor(p, q);
    XorSame(Low(p), Low(q));
  }

  lemma H2TellsH3(p: bv32, q: bv32)
    requires H2(ByteStep(p)) == H2(ByteStep(q))
    ensures H3(p) == H3(q)
  {
    hide ByteStep, Xor, And, Down, Low, H1, H2, H3;
    var d := Xor(p, q);
    ByteStepLinear(p, q);
    H2Xor(ByteStep(p), ByteStep(q));
    XorSame(H2(ByteStep(p)), H2(ByteStep(q)));
    Higher(ByteStep(d));
    TopTellsLow(d);
    LowClear(d);
    ByteStepHigh(d);
    H3Xor(p, q);
    XorSame(H3(p), H3(q));
  }

  lemma H3TellsLow(p: bv32, q: bv32)
    requires H3(ByteStep(p)) == H3(ByteStep(q))
    ensures Low(p) == Low(q)
  {
    hide ByteStep, Xor, And, Down, Low, H1, H2, H3;
    var d := Xor(p, q);
    ByteStepLinear(p, q);
    H3Xor(ByteStep(p), ByteStep(q));
    XorSame(H3(ByteStep(p)), H3(ByteStep(q)));
    TopTellsLow(d);
    LowXor(p, q);
    XorSame(Low(p), Low(q));
  }

  lemma DivisionH1Low()
    ensures Tells(ByteStep, H1, Low)
  {
    hide ByteStep, H1, H2, H3, Low;
    forall p: bv32, q: bv32 | H1(ByteStep(p)) == H1(ByteStep(q)) ensures Low(p) == Low(q) {
      H1TellsLow(p, q);
    }
  }

  lemma DivisionH1H2()
    ensures Tells(ByteStep, H1, H2)
  {
    hide ByteStep, H1, H2, H3, Low;
    forall p: bv32, q: bv32 | H1(ByteStep(p)) == H1(ByteStep(q)) ensures H2(p) == H2(q) {
      H1TellsH2(p, q);
    }
  }

  lemma DivisionH2Low()
    ensures Tells(ByteStep, H2, Low)
  {
    hide ByteStep, H1, H2, H3, Low;
    forall p: bv32, q: bv32 | H2(ByteStep(p)) == H2(ByteStep(q)) ensures Low(p) == Low(q) {
      H2TellsLow(p, q);
    }
  }

  lemma DivisionH2H3()
    ensures Tells(ByteStep, H2, H3)
  {
    hide ByteStep, H1, H2, H3, Low;
    forall p: bv32, q: bv32 | H2(ByteStep(p)) == H2(ByteStep(q)) ensures H3(p) == H3(q) {
      H2TellsH3(p, q);
    }
  }

  lemma DivisionH3Low()
    ensures Tells(ByteStep, H3, Low)
  {
    hide ByteStep, H1, H2, H3, Low;
    forall p: bv32, q: bv32 | H3(ByteStep(p)) == H3(ByteStep(q)) ensures Low(p) == Low(q) {
      H3TellsLow(p, q);
    }
  }

  lemma DivisionAdds()
    ensures Adds(Add, Low) && Untouched(Add, H1) && Untouched(Add, H2) && Untouched(Add, H3)
  {
    hide Add, H1, H2, H3, Low;
    forall x: bv32, b: bv8, d: bv8 | Low(Add(x, b)) == Low(Add(x, d)) ensures b == d {
      AddLow(x, b, d);
    }
    forall x: bv32, b: bv8 ensures H1(Add(x, b)) == H1(x) && H2(Add(x, b)) == H2(x) && H3(Add(x, b)) == H3(x) {
      Add1(x, b);
      Add2(x, b);
      Add3(x, b);
    }
  }

  /** The division meets the hypotheses of the burst argument. */
  lemma DivisionReaches()
    ensures Reaches(Feed, DIVISION)
  {
    DivisionSteps();
    DivisionMoves();
    DivisionH1Low();
    DivisionH1H2();
    DivisionH2Low();
    DivisionH2H3();
    DivisionH3Low();
    DivisionAdds();
  }

  lemma SameByteAdded(x: bv32, y: bv32, b: bv8)
    requires Feed(x, b) == Feed(y, b)
    ensures x == y
  {
    hide Feed, ByteStep, Xor, Wide;
    FeedIsByteStep(x, b);
    FeedIsByteStep(y, b);
    ByteStepInjective(Xor(x, Wide(b)), Xor(y, Wide(b)));
    XorTwice(x, Wide(b));
    XorTwice(y, Wide(b));
  }

  lemma DivisionKeepsApart()
    ensures KeepsApart(Feed)
  {
    hide Feed;
    forall x: bv32, y: bv32, b: bv8 | Feed(x, b) == Feed(y, b) ensures x == y {
      SameByteAdded(x, y, b);
    }
  }

  lemma SameCrc(p: seq<bv8>, q: seq<bv8>)
    requires Crc(p) == Crc(q)
    ensures Divide(0xFFFFFFFF, p) == Divide(0xFFFFFFFF, q)
  {
    hide Xor, Divide;
    XorTwice(Divide(0xFFFFFFFF, p), 0xFFFFFFFF);
    XorTwice(Divide(0xFFFFFFFF, q), 0xFFFFFFFF);
  }

  lemma SameDivision(head: seq<bv8>, m: seq<bv8>, n: seq<bv8>, tail: seq<bv8>)
    requires |m| == |n| <= 4
    requires Divide(0xFFFFFFFF, head + m + tail) == Divide(0xFFFFFFFF, head + n + tail)
    ensures m == n
  {
    DivisionReaches();
    DivisionKeepsApart();
    BurstShows(Feed, DIVISION, 0xFFFFFFFF, head, m, n, tail);
  }

  /** Burst detection: two byte strings of the same length that differ only within four consecutive bytes never
      have the same csp_crc32_memory value. */
  lemma BurstDetected(head: seq<bv8>, m: seq<bv8>, n: seq<bv8>, tail: seq<bv8>)
    requires |m| == |n| <= 4 && m != n
    ensures Crc(head + m + tail) != Crc(head + n + tail)
  {
    if Crc(head + m + tail) == Crc(head + n + tail) {
      SameCrc(head + m + tail, head + n + tail);
      SameDivision(head, m, n, tail);
      assert false;
    }
  }
}
