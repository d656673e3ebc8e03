/**
 * 64-bit square masks, as the solver keeps them in Python ints (chess.py:10-16).
 * Bit i of a mask stands for square i = rank * 8 + file, with a1 = 0 and h8 = 63.
 * Squares are 8-bit bit-vectors below 64, so that the masks are reasoned about as
 * bit-vectors throughout.
 */
module Bits {

  /** A square index, rank * 8 + file. */
  type Square = s: bv8 | s < 64

  /** The file of a square, `s % 8`: 0 is file a, 7 is file h. */
  function File(s: Square): bv8 { s & 7 }

  /** The rank of a square, `s // 8`: 0 is rank 1, 7 is rank 8. */
  function Rank(s: Square): bv8 { s >> 3 }

  /** The mask with only square s set, Python's `1 << s`. */
  function Bit(s: Square): bv64 { 1 << s }

  /** Whether square s is set in mask m. */
  predicate Has(m: bv64, s: Square) { (m >> s) & 1 == 1 }

  // The masks of chess.py:10-16, with the values written there.
  const NoUpperRow: bv64 := 72057594037927935
  const NoBottomRow: bv64 := 18446744073709551360
  /** Despite its name, clears file a (the leftmost file). */
  const NoRightColumn: bv64 := 18374403900871474942
  /** Despite its name, clears file h (the rightmost file). */
  const NoLeftColumn: bv64 := 9187201950435737471
  const UpperRow: bv64 := 18374686479671623680
  const BottomRow: bv64 := 255

  /** What each constant mask holds, square by square. */
  lemma ConstantMasks(s: Square)
    ensures Has(UpperRow, s) == (Rank(s) == 7) && Has(NoUpperRow, s) == (Rank(s) != 7)
    ensures Has(BottomRow, s) == (Rank(s) == 0) && Has(NoBottomRow, s) == (Rank(s) != 0)
    ensures Has(NoRightColumn, s) == (File(s) != 0)
    ensures Has(NoLeftColumn, s) == (File(s) != 7)
  {
  }

  lemma HasOr(a: bv64, b: bv64, s: Square)
    ensures Has(a | b, s) == (Has(a, s) || Has(b, s))
  {
  }

  lemma HasAnd(a: bv64, b: bv64, s: Square)
    ensures Has(a & b, s) == (Has(a, s) && Has(b, s))
  {
  }

  /** A mask with no square in it is the empty mask. */
  lemma EmptyMask(m: bv64)
    requires forall s: Square :: !Has(m, s)
    ensures m == 0
  {
    assert
      !Has(m, 0) && !Has(m, 1) && !Has(m, 2) && !Has(m, 3) && !Has(m, 4) && !Has(m, 5) && !Has(m, 6) && !Has(m, 7) &&
      !Has(m, 8) && !Has(m, 9) && !Has(m, 10) && !Has(m, 11) && !Has(m, 12) && !Has(m, 13) && !Has(m, 14) && !Has(m, 15) &&
      !Has(m, 16) && !Has(m, 17) && !Has(m, 18) && !Has(m, 19) && !Has(m, 20) && !Has(m, 21) && !Has(m, 22) && !Has(m, 23) &&
      !Has(m, 24) && !Has(m, 25) && !Has(m, 26) && !Has(m, 27) && !Has(m, 28) && !Has(m, 29) && !Has(m, 30) && !Has(m, 31) &&
      !Has(m, 32) && !Has(m, 33) && !Has(m, 34) && !Has(m, 35) && !Has(m, 36) && !Has(m, 37) && !Has(m, 38) && !Has(m, 39) &&
      !Has(m, 40) && !Has(m, 41) && !Has(m, 42) && !Has(m, 43) && !Has(m, 44) && !Has(m, 45) && !Has(m, 46) && !Has(m, 47) &&
      !Has(m, 48) && !Has(m, 49) && !Has(m, 50) && !Has(m, 51) && !Has(m, 52) && !Has(m, 53) && !Has(m, 54) && !Has(m, 55) &&
      !Has(m, 56) && !Has(m, 57) && !Has(m, 58) && !Has(m, 59) && !Has(m, 60) && !Has(m, 61) && !Has(m, 62) && !Has(m, 63);
  }

  /** Python's truth test `(1 << s) & m` asks whether s is in m. */
  lemma BitTest(m: bv64, s: Square)
    ensures (Bit(s) & m != 0) == Has(m, s)
  {
  }

  lemma HasSetBit(m: bv64, k: Square, s: Square)
    ensures Has(m | Bit(k), s) == (Has(m, s) || s == k)
  {
  }

  lemma HasClearBit(m: bv64, k: Square, s: Square)
    ensures Has(m & !Bit(k), s) == (Has(m, s) && s != k)
  {
  }

  /** The number of set squares below n. */
  function CountBelow(m: bv64, n: bv8): nat
    requires n <= 64
    decreases n as int
  {
    if n == 0 then 0 else CountBelow(m, n - 1) + (if Has(m, n - 1) then 1 else 0)
  }

  /** The number of set squares, Python's `bin(m).count('1')`. */
  function PopCount(m: bv64): nat
  {
    CountBelow(m, BoardSize())
  }

  /**
   * The number of squares, 64. A function rather than a literal, so that counts over a whole
   * mask are unfolded one square at a time, as a proof asks for them.
   */
  function BoardSize(): (n: bv8)
    ensures n == 64
  {
    64
  }

  /** The squares below n. */
  ghost function Below(n: bv8): (r: set<Square>)
    requires n <= 64
    ensures forall s: Square :: s in r <==> s < n
    decreases n as int
  {
    if n == 0 then {} else Below(n - 1) + {n - 1}
  }

  /** The squares of a mask below n. */
  ghost function SquaresBelow(m: bv64, n: bv8): set<Square>
    requires n <= 64
  {
    set s | s in Below(n) && Has(m, s)
  }

  /** The squares of a mask. */
  ghost function Squares(m: bv64): set<Square>
  {
    SquaresBelow(m, 64)
  }

  /** The squares below n + 1 are those below n, and n itself when it is set. */
  lemma SquaresBelowStep(m: bv64, n: bv8)
    requires 0 < n <= 64
    ensures Has(m, n - 1) ==> SquaresBelow(m, n) == SquaresBelow(m, n - 1) + {n - 1}
    ensures !Has(m, n - 1) ==> SquaresBelow(m, n) == SquaresBelow(m, n - 1)
  {
  }

  lemma {:induction false} CountBelowIsCardinality(m: bv64, n: bv8)
    requires n <= 64
    ensures CountBelow(m, n) == |SquaresBelow(m, n)|
    decreases n as int
  {
    if n > 0 {
      CountBelowIsCardinality(m, n - 1);
      SquaresBelowStep(m, n);
    } else {
      assert SquaresBelow(m, n) == {};
    }
  }

  /** `bin(m).count('1')` counts exactly the squares of the mask. */
  lemma PopCountIsCardinality(m: bv64)
    ensures PopCount(m) == |Squares(m)|
    ensures forall s: Square :: s in Squares(m) <==> Has(m, s)
  {
    CountBelowIsCardinality(m, 64);
  }

  lemma {:induction false} CountBelowAtMost(m: bv64, n: bv8)
    requires n <= 64
    ensures CountBelow(m, n) <= n as int
  {
    if n > 0 {
      CountBelowAtMost(m, n - 1);
    }
  }

  lemma {:induction false} CountBelowOfEmptyPrefix(m: bv64, n: bv8)
    requires n <= 64 && m << (64 - n) == 0
    ensures CountBelow(m, n) == 0
  {
    if n > 0 {
      assert m << (64 - (n - 1)) == 0;
      assert !Has(m, n - 1);
      CountBelowOfEmptyPrefix(m, n - 1);
    }
  }

  lemma {:induction false} CountBelowUpperRow(m: bv64, n: bv8)
    requires 56 <= n <= 64 && m & !UpperRow == 0
    ensures CountBelow(m, n) <= (n - 56) as int
  {
    if n > 56 {
      CountBelowUpperRow(m, n - 1);
    } else {
      CountBelowOfEmptyPrefix(m, n);
    }
  }

  lemma {:induction false} CountBelowBottomRow(m: bv64, n: bv8)
    requires 8 <= n <= 64 && m & !BottomRow == 0
    ensures CountBelow(m, n) <= 8
  {
    if n > 8 {
      assert !Has(m, n - 1);
      CountBelowBottomRow(m, n - 1);
    } else {
      CountBelowAtMost(m, n);
    }
  }

  /** A mask has at most 64 squares set. */
  lemma PopCountAtMost64(m: bv64)
    ensures PopCount(m) <= 64
  {
    CountBelowAtMost(m, 64);
  }

  /** A mask confined to the promotion rank of either side has at most eight squares set. */
  lemma PopCountOfRow(m: bv64)
    ensures PopCount(m & UpperRow) <= 8
    ensures PopCount(m & BottomRow) <= 8
  {
    CountBelowUpperRow(m & UpperRow, 64);
    CountBelowBottomRow(m & BottomRow, 64);
  }

  function Indicator(b: bool): nat { if b then 1 else 0 }

  lemma CountBelowClearStep(m: bv64, s: Square, n: bv8)
    requires 0 < n <= 64
    ensures CountBelow(m & !Bit(s), n) - CountBelow(m & !Bit(s), n - 1) + Indicator(s < n && Has(m, s))
         == Indicator(s < n - 1 && Has(m, s)) + CountBelow(m, n) - CountBelow(m, n - 1)
  {
  }

  lemma {:induction false} CountBelowClear(m: bv64, s: Square, n: bv8)
    requires n <= 64
    ensures CountBelow(m & !Bit(s), n) + Indicator(s < n && Has(m, s)) == CountBelow(m, n)
  {
    if n > 0 {
      CountBelowClear(m, s, n - 1);
      CountBelowClearStep(m, s, n);
    }
  }

  /** Clearing one square removes exactly one from the count when it was set, and nothing otherwise. */
  lemma PopCountClear(m: bv64, s: Square)
    ensures PopCount(m & !Bit(s)) == if Has(m, s) then PopCount(m) - 1 else PopCount(m)
  {
    CountBelowClear(m, s, 64);
  }
}
