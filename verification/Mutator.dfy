/** The bit-flip operator of the data-driven mutator, with the loops that join and slice the cells of an item. */
module Mutator {

  /** 64 bits (unsigned long long) and 32 bits (an int of the buffer), least significant first. */
  type Word = w: seq<bool> | |w| == 64 witness seq(64, _ => false)
  type Cell = c: seq<bool> | |c| == 32 witness seq(32, _ => false)

  function Zero(): Word { seq(64, _ => false) }

  function And(x: Word, y: Word): Word { seq(64, i requires 0 <= i < 64 => x[i] && y[i]) }

  function Or(x: Word, y: Word): Word { seq(64, i requires 0 <= i < 64 => x[i] || y[i]) }

  function Not(x: Word): Word { seq(64, i requires 0 <= i < 64 => !x[i]) }

  /** Shift left, and the product with two: what leaves at the top is lost. */
  function ShiftLeft(x: Word, n: nat): Word { seq(64, i requires 0 <= i < 64 => i >= n && x[i - n]) }

  /** 2^n in 64 bits: zero from n = 64 on. */
  function Power(n: nat): Word { seq(64, i requires 0 <= i < 64 => i == n) }

  /** The low bits of a word from a cell, and back. */
  function Widen(c: Cell): Word { seq(64, i requires 0 <= i < 64 => i < 32 && c[i]) }

  function Low(w: Word): Cell { w[..32] }

  /** FAQAS_pow_substitute(2, power). */
  method PowSubstitute(power: int) returns (result: Word)
    ensures result == if power < 0 then Zero() else Power(power)
  {
    if power < 0 {
      return Zero();
    }
    result := Power(0);
    var step := 1;
    while step <= power
      invariant 1 <= step <= power + 1 && result == Power(step - 1)
    {
      result := ShiftLeft(result, 1);
      step := step + 1;
    }
  }

  /** The bits of a word from one position to another, moved down. */
  function Slice(w: Word, start: nat, end: nat): Word
    requires start <= end < 64
  {
    seq(64, k requires 0 <= k < 64 => start + k <= end && w[start + k])
  }

  lemma BitTest(w: Word, i: nat)
    requires i < 64
    ensures And(w, Power(i)) == Power(i) <==> w[i]
  {
    assert And(w, Power(i))[i] == w[i] && Power(i)[i];
    if w[i] {
      assert forall j :: 0 <= j < 64 ==> And(w, Power(i))[j] == Power(i)[j];
    }
  }

  /** _FAQAS_slice_it_up. */
  method SliceItUp(number: Word, start: nat, end: nat) returns (slice: Word)
    requires start <= end < 64
    ensures slice == Slice(number, start, end)
  {
    var i := start;
    slice := Zero();
    while i <= end
      invariant start <= i <= end + 1
      invariant forall k :: 0 <= k < 64 ==> slice[k] == (start + k < i && number[start + k])
    {
      var mask := PowSubstitute(i);
      BitTest(number, i);
      if And(number, mask) == mask {
        var knife := PowSubstitute(i - start);
        slice := Or(slice, knife);
      }
      i := i + 1;
    }
  }

  // ---------------------------------------------------------------- load and store

  /** The word that the cells of an item hold, the first cell on top. */
  function Join(cells: seq<Cell>): Word {
    seq(64, i requires 0 <= i < 64 => i / 32 < |cells| && cells[|cells| - 1 - i / 32][i % 32])
  }

  /** The loop that loads an item. */
  method Load(data: array<Cell>, pos: nat, span: nat) returns (intermediate: Word)
    requires pos + span <= data.Length
    ensures intermediate == Join(data[pos..pos + span])
  {
    intermediate := Zero();
    var kk := 0;
    while kk < span
      invariant 0 <= kk <= span && intermediate == Join(data[pos..pos + kk])
    {
      ghost var cells := data[pos..pos + kk];
      assert data[pos..pos + kk + 1] == cells + [data[pos + kk]];
      JoinNext(cells, data[pos + kk]);
      intermediate := Or(ShiftLeft(intermediate, 32), Widen(data[pos + kk]));
      kk := kk + 1;
    }
  }

  lemma JoinNext(cells: seq<Cell>, c: Cell)
    ensures Join(cells + [c]) == Or(ShiftLeft(Join(cells), 32), Widen(c))
  {
  }

  /** Cell `k` of a word stored in `span` cells. */
  function CellOf(w: Word, span: nat, k: nat): Cell
    requires k < span <= 2
  {
    w[32 * (span - 1 - k)..32 * (span - k)]
  }

  lemma SliceIsCell(w: Word, span: nat, k: nat, start: nat, end: nat)
    requires k < span <= 2 && start == (span - k - 1) * 32 && end == (span - k) * 32 - 1
    ensures Low(Slice(w, start, end)) == CellOf(w, span, k)
  {
  }

  /** The loop that stores an item. */
  method Store(data: array<Cell>, pos: nat, span: nat, number: Word)
    requires 1 <= span <= 2 && pos + span <= data.Length
    modifies data
    ensures forall k :: 0 <= k < span ==> data[pos + k] == CellOf(number, span, k)
    ensures forall j :: 0 <= j < data.Length && !(pos <= j < pos + span) ==> data[j] == old(data[j])
  {
    hide Slice, Low, CellOf;
    var counter := 0;
    while counter < span
      invariant 0 <= counter <= span
      invariant forall k :: 0 <= k < counter ==> data[pos + k] == CellOf(number, span, k)
      invariant forall j :: 0 <= j < data.Length && !(pos <= j < pos + span) ==> data[j] == old(data[j])
    {
      var start, end := (span - counter - 1) * 32, (span - counter) * 32 - 1;
      var slice := SliceItUp(number, start, end);
      SliceIsCell(number, span, counter, start, end);
      data[pos + counter] := Low(slice);
      counter := counter + 1;
    }
  }

  /** Slicing and joining give back the bits there is room for. */
  lemma JoinOfSlices(w: Word, span: nat, cells: seq<Cell>)
    requires 1 <= span <= 2 && |cells| == span && forall k :: 0 <= k < span ==> cells[k] == CellOf(w, span, k)
    ensures forall i :: 0 <= i < 64 ==> Join(cells)[i] == (i < 32 * span && w[i])
  {
  }

  /** The first cell of an item holds its high bits: a bit turned over below 32 is one of the last cell, and one from 32
      on is one of the first of two; every other bit of both cells stays. */
  lemma TurnedInCell(a: Cell, b: Cell, p: nat)
    requires p < 64
    ensures var w := Join([a, b]);
            var v: Word := w[p := !w[p]];
            && CellOf(v, 2, 1) == (if p < 32 then b[p := !b[p]] else b)
            && CellOf(v, 2, 0) == (if p < 32 then a else a[p - 32 := !a[p - 32]])
  {
    var w := Join([a, b]);
    forall i | 0 <= i < 32 ensures w[i] == b[i] && w[32 + i] == a[i] {
      assert i / 32 == 0 && i % 32 == i && (32 + i) / 32 == 1 && (32 + i) % 32 == i;
    }
  }

  // ---------------------------------------------------------------- flips

  /** The positions in which two words differ. */
  function Changed(x: Word, y: Word): set<nat> { set i | 0 <= i < 64 && x[i] != y[i] }

  /** The word with bit `p` set (state 0), cleared (state 1), or turned over (any other state). */
  function Flip(w: Word, state: int, p: nat): Word {
    if state == 0 then Or(w, Power(p))
    else if state == 1 then And(w, Not(Power(p)))
    else if And(w, Not(Power(p))) == w then Or(w, Power(p)) else And(w, Not(Power(p)))
  }

  lemma FlipBit(w: Word, state: int, p: nat)
    ensures var f := Flip(w, state, p);
            && (forall i :: 0 <= i < 64 && i != p ==> f[i] == w[i])
            && (p < 64 && state == 0 ==> f[p]) && (p < 64 && state == 1 ==> !f[p])
            && (p < 64 && state != 0 && state != 1 ==> f[p] == !w[p])
            && (p >= 64 ==> f == w)
  {
  }

  /** The position a value of rand() stands for. */
  function Position(x: nat, min: nat, max: nat): (p: nat)
    requires min <= max
    ensures min <= p <= max
  {
    x % (max - min + 1) + min
  }

  lemma PositionOf(p: nat, min: nat, max: nat)
    requires min <= p <= max
    ensures Position(p - min, min, max) == p
  {
  }

  /** The attempts of one round, `left` at most: the word after it, the calls of rand() made so far, and whether the
      round flipped a bit before its last attempt. */
  function Attempt(w: Word, state: int, min: nat, max: nat, random: nat -> nat, calls: nat, left: nat)
    : (Word, nat, bool)
    requires min <= max && left >= 1
    decreases left
  {
    var f := Flip(w, state, Position(random(calls), min, max));
    if left == 1 then (f, calls + 1, false)
    else if f != w then (f, calls + 1, true)
    else Attempt(w, state, min, max, random, calls + 1, left - 1)
  }

  /** The last `n` rounds of `value`: the word after them, and whether all of them flipped a bit in time. */
  function Rounds(w: Word, state: int, min: nat, max: nat, value: nat, random: nat -> nat, calls: nat, n: nat)
    : (Word, bool)
    requires min <= max && n <= value
    decreases n
  {
    if n == 0 then (w, true)
    else
      var a := Attempt(w, state, min, max, random, calls, value * 10);
      var r := Rounds(a.0, state, min, max, value, random, a.1, n - 1);
      (r.0, a.2 && r.1)
  }

  function Bits(value: int): nat { if value < 0 then 0 else value }

  /** The operator BF as a function of the item, its parameters and what rand() gives, call after call. */
  function Flips(w: Word, state: int, min: nat, max: nat, value: int, random: nat -> nat): (Word, bool)
    requires min <= max
  {
    Rounds(w, state, min, max, Bits(value), random, 0, Bits(value))
  }

  /** The operator BF. */
  method BitFlip(w: Word, state: int, min: nat, max: nat, value: int, random: nat -> nat)
    returns (r: Word, success: bool)
    requires min <= max
    ensures (r, success) == Flips(w, state, min, max, value, random)
  {
    hide Flip;
    r, success := w, true;
    var ii, calls := 0, 0;
    ghost var all := Flips(w, state, min, max, value, random);
    while ii < value
      invariant 0 <= ii <= Bits(value)
      invariant var rest := Rounds(r, state, min, max, Bits(value), random, calls, Bits(value) - ii);
                all == (rest.0, success && rest.1)
    {
      var avoidInfinite, flipped := 0, r;
      ghost var round := Attempt(r, state, min, max, random, calls, value * 10);
      ghost var was := success;
      while flipped == r
        invariant 0 <= avoidInfinite < value * 10 && success == was
        invariant round == if flipped != r then (flipped, calls, true)
                           else Attempt(r, state, min, max, random, calls, value * 10 - avoidInfinite)
        decreases value * 10 - avoidInfinite
      {
        var position := Position(random(calls), min, max);
        calls := calls + 1;
        flipped := Flip(r, state, position);
        avoidInfinite := avoidInfinite + 1;
        if avoidInfinite == value * 10 {
          success := false;
          break;
        }
      }
      assert (flipped, calls) == (round.0, round.1) && success == (was && round.2);
      r := flipped;
      ii := ii + 1;
    }
  }

  // ---------------------------------------------------------------- what the flips change

  /** How far the flips have come: `n` rounds, and whether all of them flipped a bit. */
  predicate Flipped(w: Word, r: Word, state: int, min: nat, max: nat, n: nat, success: bool) {
    var d := Changed(w, r);
    && |d| <= n && (forall i <- d :: min <= i <= max)
    && (success ==> |d| % 2 == n % 2)
    && ((state == 0 || state == 1) ==>
          (forall i <- d :: w[i] == (state == 1)) && (success ==> |d| == n))
  }

  /** A flip of a bit that changes it: a bit that had been flipped is not flipped again, unless the state is neither
      0 nor 1. */
  lemma RoundWith(w: Word, r: Word, state: int, min: nat, max: nat, n: nat, success: bool, p: nat)
    requires Flipped(w, r, state, min, max, n, success) && min <= p <= max && Flip(r, state, p) != r
    ensures Flipped(w, Flip(r, state, p), state, min, max, n + 1, success)
  {
    hide Flip;
    FlipBit(r, state, p);
    var f := Flip(r, state, p);
    assert p < 64 && f[p] != r[p];
    OneFlip(w, r, f, p);
    assert p in Changed(w, r) <==> w[p] != r[p];
    hide Changed;
  }

  lemma OneFlip(w: Word, r: Word, f: Word, p: nat)
    requires p < 64 && f[p] != r[p] && forall i :: 0 <= i < 64 && i != p ==> f[i] == r[i]
    ensures Changed(w, f) == if p in Changed(w, r) then Changed(w, r) - {p} else Changed(w, r) + {p}
  {
  }

  lemma {:induction false} AttemptFlipped(w: Word, r: Word, state: int, min: nat, max: nat, random: nat -> nat,
                                          calls: nat, left: nat, n: nat, success: bool)
    requires min <= max && left >= 1 && Flipped(w, r, state, min, max, n, success)
    ensures var a := Attempt(r, state, min, max, random, calls, left);
            Flipped(w, a.0, state, min, max, n + 1, success && a.2)
    decreases left
  {
    hide Flip, Changed, Position;
    var p := Position(random(calls), min, max);
    if Flip(r, state, p) != r {
      RoundWith(w, r, state, min, max, n, success, p);
    } else if left > 1 {
      AttemptFlipped(w, r, state, min, max, random, calls + 1, left - 1, n, success);
    }
  }

  lemma {:induction false} RoundsFlipped(w: Word, r: Word, state: int, min: nat, max: nat, value: nat,
                                         random: nat -> nat, calls: nat, n: nat, success: bool)
    requires min <= max && n <= value && Flipped(w, r, state, min, max, value - n, success)
    ensures var a := Rounds(r, state, min, max, value, random, calls, n);
            Flipped(w, a.0, state, min, max, value, success && a.1)
    decreases n
  {
    hide Flipped, Attempt;
    if n > 0 {
      var a := Attempt(r, state, min, max, random, calls, value * 10);
      AttemptFlipped(w, r, state, min, max, random, calls, value * 10, value - n, success);
      RoundsFlipped(w, a.0, state, min, max, value, random, a.1, n - 1, success && a.2);
    }
  }

  /** Whatever the random positions: no more than `value` bits change, all in range; on success as many as `value` up to
      an even number, and with state 0 or 1 exactly `value`, all of that state. */
  lemma FlipsFlipped(w: Word, state: int, min: nat, max: nat, value: int, random: nat -> nat)
    requires min <= max
    ensures var r := Flips(w, state, min, max, value, random); Flipped(w, r.0, state, min, max, Bits(value), r.1)
  {
    RoundsFlipped(w, w, state, min, max, Bits(value), random, 0, Bits(value), true);
  }

  // ---------------------------------------------------------------- which draws succeed

  /** Any run of values as long as the range stands for every position of the range exactly once. */
  lemma EveryPositionOnce(x: nat, min: nat, max: nat, p: nat) returns (y: nat)
    requires min <= p <= max
    ensures x <= y <= x + (max - min) && Position(y, min, max) == p
    ensures forall z: nat :: x <= z <= x + (max - min) && Position(z, min, max) == p ==> z == y
  {
    var size := max - min + 1;
    var r := x % size;
    y := if r + min <= p then x + (p - min - r) else x + (p - min - r + size);
    forall z: nat | x <= z <= x + (max - min) ensures Position(z, min, max) == Turned(r, z - x, size) + min {
      AddedTo(x, z - x, size);
    }
    hide Position;
  }

  /** The remainder after a step of less than a whole turn. */
  function Turned(r: nat, j: nat, size: nat): int { if r + j < size then r + j else r + j - size }

  lemma AddedTo(x: nat, j: nat, size: nat)
    requires j < size
    ensures (x + j) % size == Turned(x % size, j, size)
  {
    var q, r := x / size, x % size;
    assert x == q * size + r;
    if r + j < size {
      RemainderIs(x + j, size, q, r + j);
    } else {
      assert x + j == (q + 1) * size + (r + j - size);
      RemainderIs(x + j, size, q + 1, r + j - size);
    }
  }

  lemma RemainderIs(n: nat, d: nat, q: nat, r: nat)
    requires r < d && n == q * d + r
    ensures n % d == r
  {
    var e := n / d;
    assert n == e * d + n % d;
    if e < q {
      OneTurnMore(e, q, d);
    } else if e > q {
      OneTurnMore(q, e, d);
    }
  }

  lemma OneTurnMore(x: nat, y: nat, d: nat)
    requires x < y
    ensures x * d + d <= y * d
  {
    assert (x + 1) * d <= y * d;
  }

  /** The position draw number `i` stands for. */
  function Draw(random: nat -> nat, i: nat, min: nat, max: nat): nat
    requires min <= max
  {
    min + random(i) % (max - min + 1)
  }

  /** There is a bit at the position, and it has the state asked for. */
  predicate Fit(w: Word, state: int, p: nat) { p < 64 && (state == 0 ==> !w[p]) && (state == 1 ==> w[p]) }

  /** How many draws, of at most `n`, miss before one fits. */
  function Misses(w: Word, state: int, min: nat, max: nat, random: nat -> nat, calls: nat, n: nat): nat
    requires min <= max
    decreases n
  {
    if n == 0 || Fit(w, state, Draw(random, calls, min, max)) then 0
    else 1 + Misses(w, state, min, max, random, calls + 1, n - 1)
  }

  lemma {:induction false} MissesMeans(w: Word, state: int, min: nat, max: nat, random: nat -> nat, calls: nat, n: nat)
    requires min <= max
    ensures var m := Misses(w, state, min, max, random, calls, n);
            && m <= n && (m < n ==> Fit(w, state, Draw(random, calls + m, min, max)))
            && (forall k: nat :: calls <= k < calls + m ==> !Fit(w, state, Draw(random, k, min, max)))
    decreases n
  {
    hide Fit, Draw;
    if n > 0 && !Fit(w, state, Draw(random, calls, min, max)) {
      MissesMeans(w, state, min, max, random, calls + 1, n - 1);
    }
  }

  /** Every one of `n` rounds draws, before its last attempt, a position that fits; the first such bit is turned over,
      and the next round goes on with the draw after it. */
  predicate EveryRoundFits(w: Word, state: int, min: nat, max: nat, value: nat, random: nat -> nat, calls: nat, n: nat)
    requires min <= max && n <= value
    decreases n
  {
    n == 0 ||
    var m := Misses(w, state, min, max, random, calls, value * 10 - 1);
    m < value * 10 - 1 && EveryRoundFits(Turn(w, Draw(random, calls + m, min, max)), state, min, max, value, random,
                                         calls + m + 1, n - 1)
  }

  /** The word with one bit turned over. */
  function Turn(w: Word, p: nat): Word { if p < 64 then w[p := !w[p]] else w }

  lemma FlipIsTurn(w: Word, state: int, p: nat)
    ensures Flip(w, state, p) == if Fit(w, state, p) then Turn(w, p) else w
    ensures Flip(w, state, p) != w <==> Fit(w, state, p)
  {
    hide Flip;
    FlipBit(w, state, p);
    var f, g := Flip(w, state, p), if Fit(w, state, p) then Turn(w, p) else w;
    assert forall i :: 0 <= i < 64 ==> f[i] == g[i];
    assert Fit(w, state, p) ==> g[p] != w[p];
  }

  /** One round: it succeeds exactly if one of its draws but the last fits, and turns over the first that does. */
  lemma {:induction false} AttemptExactly(w: Word, state: int, min: nat, max: nat, random: nat -> nat, calls: nat,
                                          left: nat)
    requires min <= max && left >= 1
    ensures var a, m := Attempt(w, state, min, max, random, calls, left),
                        Misses(w, state, min, max, random, calls, left - 1);
            && (a.2 <==> m < left - 1)
            && (a.2 ==> a.0 == Turn(w, Draw(random, calls + m, min, max)) && a.1 == calls + m + 1)
    decreases left
  {
    hide Flip, Fit, Turn;
    var p := Draw(random, calls, min, max);
    assert Position(random(calls), min, max) == p;
    FlipIsTurn(w, state, p);
    hide Position, Draw;
    if left > 1 && !Fit(w, state, p) {
      AttemptExactly(w, state, min, max, random, calls + 1, left - 1);
    }
  }

  lemma {:induction false} RoundsExactly(w: Word, state: int, min: nat, max: nat, value: nat, random: nat -> nat,
                                         calls: nat, n: nat)
    requires min <= max && n <= value
    ensures Rounds(w, state, min, max, value, random, calls, n).1 <==>
            EveryRoundFits(w, state, min, max, value, random, calls, n)
    decreases n
  {
    hide Attempt, Misses, Turn, Draw;
    if n > 0 {
      var a := Attempt(w, state, min, max, random, calls, value * 10);
      AttemptExactly(w, state, min, max, random, calls, value * 10);
      if a.2 {
        RoundsExactly(a.0, state, min, max, value, random, a.1, n - 1);
      }
    }
  }

  /** A call reports success if and only if every round draws, before its last attempt, a position modulo the size of
      the range whose bit still has the state asked for. */
  lemma SucceedsExactly(w: Word, state: int, min: nat, max: nat, value: int, random: nat -> nat)
    requires min <= max
    ensures Flips(w, state, min, max, value, random).1 <==>
            EveryRoundFits(w, state, min, max, Bits(value), random, 0, Bits(value))
  {
    RoundsExactly(w, state, min, max, Bits(value), random, 0, Bits(value));
  }

  // ---------------------------------------------------------------- the mutation

  /** What an item of `span` cells keeps of a word. */
  function Trim(w: Word, span: nat): Word { seq(64, i requires 0 <= i < 64 => i < 32 * span && w[i]) }

  /** _FAQAS_mutate on an item of type BIN with a BF operator: load, flip, store. The item holds what it keeps of the
      flipped word, and the other cells survive. */
  method Mutate(data: array<Cell>, pos: nat, span: nat, state: int, min: nat, max: nat, value: int, random: nat -> nat)
    returns (success: bool)
    requires 1 <= span <= 2 && pos + span <= data.Length && min <= max
    modifies data
    ensures forall j :: 0 <= j < data.Length && !(pos <= j < pos + span) ==> data[j] == old(data[j])
    ensures var r := Flips(Join(old(data[pos..pos + span])), state, min, max, value, random);
            success == r.1 && Join(data[pos..pos + span]) == Trim(r.0, span)
  {
    hide Flips, CellOf;
    var valueBin := Load(data, pos, span);
    valueBin, success := BitFlip(valueBin, state, min, max, value, random);
    Store(data, pos, span, valueBin);
    JoinOfSlices(valueBin, span, data[pos..pos + span]);
  }

  // ---------------------------------------------------------------- exactness

  /** The words an item can hold. */
  predicate InItem(w: Word, span: nat) { forall i :: 32 * span <= i < 64 ==> !w[i] }

  /** A call that reports success has turned over exactly `value` bits of the item. */
  predicate Exact(w: Word, span: nat, state: int, min: nat, max: nat, value: int, random: nat -> nat)
    requires min <= max
  {
    var r := Flips(w, state, min, max, value, random);
    r.1 ==> |Changed(w, Trim(r.0, span))| == Bits(value)
  }

  /** The highest bit of the range that exists in 64 bits. */
  function Top(max: nat): nat { if max < 64 then max else 63 }

  /** Bits of the range that a word has and the item does not keep. */
  predicate ReachesBeyond(span: nat, min: nat, max: nat) { min < 64 && Top(max) >= 32 * span }

  /** When every call is exact, whatever the item holds and whatever rand() gives. */
  predicate AlwaysExact(span: nat, state: int, min: nat, max: nat, value: int) {
    || value <= 0 || min >= 64 || state == 1
    || (state == 0 && (!ReachesBeyond(span, min, max) || value > Top(max) - min + 1))
    || (state != 0 && !ReachesBeyond(span, min, max) && value == 1)
  }

  lemma {:induction false} IntervalSize(d: set<nat>, lo: nat, hi: nat)
    requires lo <= hi && forall i <- d :: lo <= i < hi
    ensures |d| <= hi - lo
    decreases hi
  {
    if lo < hi {
      IntervalSize(d - {hi - 1}, lo, hi - 1);
    } else {
      assert d == {};
    }
  }

  /** Positions of 64 and more flip nothing. */
  lemma {:induction false} AttemptAbove(w: Word, state: int, min: nat, max: nat, random: nat -> nat, calls: nat,
                                        left: nat)
    requires 64 <= min <= max && left >= 1
    ensures !Attempt(w, state, min, max, random, calls, left).2
    decreases left
  {
    hide Flip, Position;
    FlipBit(w, state, Position(random(calls), min, max));
    if left > 1 {
      AttemptAbove(w, state, min, max, random, calls + 1, left - 1);
    }
  }

  lemma ChangedInItem(w: Word, r: Word, span: nat)
    requires InItem(w, span) && forall i <- Changed(w, r) :: i < 32 * span
    ensures Changed(w, Trim(r, span)) == Changed(w, r)
  {
    forall i | 0 <= i < 64 && 32 * span <= i ensures w[i] == r[i] {
      assert i !in Changed(w, r);
    }
  }

  /** Every call is exact under the condition. */
  lemma ExactHolds(w: Word, span: nat, state: int, min: nat, max: nat, value: int, random: nat -> nat)
    requires 1 <= span <= 2 && min <= max && InItem(w, span) && AlwaysExact(span, state, min, max, value)
    ensures Exact(w, span, state, min, max, value, random)
  {
    var r := Flips(w, state, min, max, value, random);
    FlipsFlipped(w, state, min, max, value, random);
    hide Flips;
    var d := Changed(w, r.0);
    if value > 0 && min >= 64 {
      NothingAbove(w, state, min, max, value, random);
    } else if r.1 {
      if value > 0 {
        IntervalSize(d, min, Top(max) + 1);
      }
      ChangedInItem(w, r.0, span);
    }
  }

  lemma NothingAbove(w: Word, state: int, min: nat, max: nat, value: int, random: nat -> nat)
    requires 64 <= min <= max && value > 0
    ensures !Flips(w, state, min, max, value, random).1
  {
    AttemptAbove(w, state, min, max, random, 0, value * 10);
  }

  // ---------------------------------------------------------------- calls that are not exact

  /** The first attempt of a round flips a bit. */
  lemma AtOnce(w: Word, state: int, min: nat, max: nat, random: nat -> nat, calls: nat, left: nat)
    requires min <= max && left >= 2
    requires Flip(w, state, Position(random(calls), min, max)) != w
    ensures Attempt(w, state, min, max, random, calls, left)
         == (Flip(w, state, Position(random(calls), min, max)), calls + 1, true)
  {
  }

  /** With a state other than 0 and 1, flipping a bit again undoes the first flip; with 0 or 1 it never does. */
  lemma FlipTwice(w: Word, state: int, p: nat)
    requires p < 64
    ensures Flip(Flip(w, state, p), state, p) == (if state == 0 || state == 1 then Flip(w, state, p) else w)
  {
    hide Flip, Position;
    FlipBit(w, state, p);
    FlipBit(Flip(w, state, p), state, p);
    var f, t := Flip(w, state, p), Flip(Flip(w, state, p), state, p);
    assert forall i :: 0 <= i < 64 ==> t[i] == if state == 0 || state == 1 then f[i] else w[i];
  }

  /** The same position in every call, with a state other than 0 and 1. */
  lemma {:induction false} BackAndForth(w: Word, state: int, min: nat, max: nat, value: nat, random: nat -> nat,
                                        calls: nat, n: nat, p: nat)
    requires state != 0 && state != 1 && min <= p <= max && p < 64 && n <= value
    requires forall i: nat :: random(i) == p - min
    ensures Rounds(w, state, min, max, value, random, calls, n) == (if n % 2 == 0 then w else Flip(w, state, p), true)
    decreases n
  {
    hide Flip, Position;
    if n > 0 {
      PositionOf(p, min, max);
      FlipBit(w, state, p);
      FlipTwice(w, state, p);
      AtOnce(w, state, min, max, random, calls, value * 10);
      BackAndForth(Flip(w, state, p), state, min, max, value, random, calls + 1, n - 1, p);
    }
  }

  /** One position after the other, downwards, with state 0 on a word of zeros below them. */
  lemma {:induction false} OneByOne(w: Word, min: nat, max: nat, value: nat, random: nat -> nat, calls: nat, n: nat,
                                    top: nat)
    requires min <= top <= max && top < 64 && n <= value && calls + n <= top - min + 1
    requires forall i: nat :: i <= top - min ==> random(i) == top - min - i
    requires forall i :: min <= i <= top - calls ==> !w[i]
    ensures Rounds(w, 0, min, max, value, random, calls, n).1
    decreases n
  {
    hide Flip, Position;
    if n > 0 {
      var p := top - calls;
      PositionOf(p, min, max);
      FlipBit(w, 0, p);
      AtOnce(w, 0, min, max, random, calls, value * 10);
      OneByOne(Flip(w, 0, p), min, max, value, random, calls + 1, n - 1, top);
    }
  }

  /** The bit a round flips with state 0 stays set. */
  lemma {:induction false} StaysSet(w: Word, min: nat, max: nat, value: nat, random: nat -> nat, calls: nat, n: nat,
                                    p: nat)
    requires min <= max && n <= value && p < 64 && w[p]
    ensures Rounds(w, 0, min, max, value, random, calls, n).0[p]
    decreases n
  {
    hide Flip, Attempt, Position;
    if n > 0 {
      var a := Attempt(w, 0, min, max, random, calls, value * 10);
      AttemptKeeps(w, min, max, random, calls, value * 10, p);
      StaysSet(a.0, min, max, value, random, a.1, n - 1, p);
    }
  }

  lemma {:induction false} AttemptKeeps(w: Word, min: nat, max: nat, random: nat -> nat, calls: nat, left: nat, p: nat)
    requires min <= max && left >= 1 && p < 64 && w[p]
    ensures Attempt(w, 0, min, max, random, calls, left).0[p]
    decreases left
  {
    hide Flip, Position;
    FlipBit(w, 0, Position(random(calls), min, max));
    if left > 1 {
      AttemptKeeps(w, min, max, random, calls + 1, left - 1, p);
    }
  }

  /** State 0, and the first position above the item: a bit is set that is not stored. */
  lemma LostAbove(span: nat, min: nat, max: nat, value: int, random: nat -> nat)
    requires min <= max && ReachesBeyond(span, min, max) && 1 <= value <= Top(max) - min + 1
    requires forall i: nat :: i <= Top(max) - min ==> random(i) == Top(max) - min - i
    ensures !Exact(Zero(), span, 0, min, max, value, random)
  {
    var w, top := Zero(), Top(max);
    var r := Flips(w, 0, min, max, value, random);
    OneByOne(w, min, max, value, random, 0, value, top);
    FlipsFlipped(w, 0, min, max, value, random);
    FirstSet(min, max, value, random);
    hide Flips;
    var d, kept := Changed(w, r.0), Changed(w, Trim(r.0, span));
    assert top in d && top !in kept && kept <= d - {top};
    SubsetSize(kept, d - {top});
  }

  lemma FirstSet(min: nat, max: nat, value: int, random: nat -> nat)
    requires min <= max && min < 64 && value >= 1 && random(0) == Top(max) - min
    ensures Flips(Zero(), 0, min, max, value, random).0[Top(max)]
  {
    hide Flip, Position;
    var p := Top(max);
    PositionOf(p, min, max);
    FlipBit(Zero(), 0, p);
    AtOnce(Zero(), 0, min, max, random, 0, value * 10);
    StaysSet(Flip(Zero(), 0, p), min, max, value, random, 1, value - 1, p);
  }

  lemma {:induction false} SubsetSize(d: set<nat>, e: set<nat>)
    requires d <= e
    ensures |d| <= |e|
  {
    if d != {} {
      var x :| x in d;
      SubsetSize(d - {x}, e - {x});
    }
  }

  /** Other states, and one position for all: at most one bit is turned over. */
  lemma UndoneBits(span: nat, state: int, min: nat, max: nat, value: int, random: nat -> nat)
    requires state != 0 && state != 1 && min <= max && min < 64 && value >= 1
    requires forall i: nat :: random(i) == Top(max) - min
    requires value >= 2 || ReachesBeyond(span, min, max)
    ensures !Exact(Zero(), span, state, min, max, value, random)
  {
    hide Flip, Position;
    var w, p := Zero(), Top(max);
    BackAndForth(w, state, min, max, value, random, 0, value, p);
    FlipBit(w, state, p);
    var kept := Changed(w, Trim(Flips(w, state, min, max, value, random).0, span));
    assert kept <= {p};
    SubsetSize(kept, {p});
    if value == 1 {
      assert p !in kept && kept == {};
    }
  }

  /** Some call is not exact outside the condition: it reports success, with a wrong number of bits. */
  lemma ExactFails(span: nat, state: int, min: nat, max: nat, value: int) returns (w: Word, random: nat -> nat)
    requires 1 <= span <= 2 && min <= max && !AlwaysExact(span, state, min, max, value)
    ensures InItem(w, span) && !Exact(w, span, state, min, max, value, random)
  {
    hide Exact;
    w := Zero();
    var top := Top(max);
    if state == 0 {
      random := i => if i <= top - min then top - min - i else 0;
      LostAbove(span, min, max, value, random);
    } else {
      random := _ => top - min;
      UndoneBits(span, state, min, max, value, random);
    }
  }

  /** Every successful call turns over exactly `value` bits, whatever the item holds and whatever rand() gives, if and
      only if the parameters satisfy AlwaysExact. */
  lemma ExactIff(span: nat, state: int, min: nat, max: nat, value: int)
    requires 1 <= span <= 2 && min <= max
    ensures AlwaysExact(span, state, min, max, value) <==>
            forall w: Word, random: nat -> nat :: InItem(w, span) ==> Exact(w, span, state, min, max, value, random)
  {
    hide Exact, InItem, AlwaysExact;
    if AlwaysExact(span, state, min, max, value) {
      forall w: Word, random: nat -> nat | InItem(w, span) ensures Exact(w, span, state, min, max, value, random) {
        ExactHolds(w, span, state, min, max, value, random);
      }
    } else {
      var w, random := ExactFails(span, state, min, max, value);
    }
  }

  /** With the range in the item: if and only if the state is 0 or 1, or no more than one bit is asked for. */
  lemma ExactInItem(span: nat, state: int, min: nat, max: nat, value: int)
    requires 1 <= span <= 2 && min <= max < 32 * span
    ensures (state == 0 || state == 1 || value <= 1) <==>
            forall w: Word, random: nat -> nat :: InItem(w, span) ==> Exact(w, span, state, min, max, value, random)
  {
    hide Exact, InItem;
    ExactIff(span, state, min, max, value);
  }
}
