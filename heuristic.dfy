/**
 * The search heuristic (chess.py:31-93): how many attacks the mating side has on the squares
 * it scans around the defending king, the promotion potential of its pawns and the number of
 * enemy pieces, weighted into the priority of a node. The weights 1.5, 1 and 0.3 are
 * multiplied by ten, so the model computes 10·h exactly in integers.
 */
module Heuristic {
  import opened Bits
  import opened Engine
  import opened Promotion
  import opened Text

  /** `max(0, c - 1)`: the first coordinate scanned around c. */
  function Lo(c: int): int
  {
    if c - 1 > 0 then c - 1 else 0
  }

  /** `min(7, c + 1)`: the exclusive end of the coordinates scanned around c. */
  function Hi(c: int): int
  {
    if c + 1 < 7 then c + 1 else 7
  }

  /** `tuple_to_num((i, j))` as a square. */
  function SquareAt(i: int, j: int): Square
    requires 0 <= i < 8 && 0 <= j < 8
  {
    TupleToNum((i, j)) as bv8
  }

  /** `len(board.attackers(player, s))` for every square s. */
  function Attacks<P>(rules: Rules<P>, position: P, player: bool): Square -> nat
  {
    s => |rules.attackers(position, player, s)|
  }

  /** The counts on file i, ranks j up to (not including) jHi. */
  function FileCovered(count: Square -> nat, i: int, j: int, jHi: int): nat
    requires 0 <= i < 8 && 0 <= j && jHi <= 8
    decreases jHi - j
  {
    if j >= jHi then 0 else count(SquareAt(i, j)) + FileCovered(count, i, j + 1, jHi)
  }

  /** The counts on files i up to iHi, ranks jLo up to jHi. */
  function BlockCovered(count: Square -> nat, i: int, iHi: int, jLo: int, jHi: int): nat
    requires 0 <= i && iHi <= 8 && 0 <= jLo && jHi <= 8
    decreases iHi - i
  {
    if i >= iHi then 0 else FileCovered(count, i, jLo, jHi) + BlockCovered(count, i + 1, iHi, jLo, jHi)
  }

  /** The total the scan of `mate_fields_covered` adds up around the king. */
  function WindowCovered(count: Square -> nat, king: Square): nat
  {
    var (f, r) := NumToTuple(king as int);
    BlockCovered(count, Lo(f), Hi(f), Lo(r), Hi(r))
  }

  /** Square (i, j) is scanned by the two loops of `mate_fields_covered` for this king. */
  predicate InWindow(king: Square, i: int, j: int)
  {
    var (f, r) := NumToTuple(king as int);
    Lo(f) <= i < Hi(f) && Lo(r) <= j < Hi(r)
  }

  /**
   * `mate_fields_covered` (chess.py:75-81): the mating side's attacks summed over the squares
   * the two `range` loops visit around the defending king.
   */
  method MateFieldsCovered<P>(board: Board<P>, player: bool, kingPosition: Square) returns (fieldsCovered: nat)
    requires board.Valid()
    ensures fieldsCovered == WindowCovered(Attacks(board.rules, board.Top(), player), kingPosition)
  {
    var (f, r) := NumToTuple(kingPosition as int);
    fieldsCovered := BlockAttacks(board, player, Lo(f), Hi(f), Lo(r), Hi(r));
  }

  /** The outer loop of `mate_fields_covered` (chess.py:78-80): the attacks on files iLo to iHi. */
  method BlockAttacks<P>(board: Board<P>, player: bool, iLo: int, iHi: int, jLo: int, jHi: int)
    returns (covered: nat)
    requires board.Valid() && 0 <= iLo && iHi <= 8 && 0 <= jLo <= jHi <= 8
    ensures covered == BlockCovered(Attacks(board.rules, board.Top(), player), iLo, iHi, jLo, jHi)
  {
    covered := 0;
    ghost var count := Attacks(board.rules, board.Top(), player);
    var i := iLo;
    while i < iHi
      invariant iLo <= i && (iLo <= iHi ==> i <= iHi)
      invariant covered + BlockCovered(count, i, iHi, jLo, jHi) == BlockCovered(count, iLo, iHi, jLo, jHi)
    {
      var fileCovered := FileAttacks(board, player, i, jLo, jHi);
      covered := covered + fileCovered;
      i := i + 1;
    }
  }

  /** The inner loop of `mate_fields_covered` (chess.py:79-80): the attacks on one file. */
  method FileAttacks<P>(board: Board<P>, player: bool, i: int, jLo: int, jHi: int) returns (covered: nat)
    requires board.Valid() && 0 <= i < 8 && 0 <= jLo <= jHi <= 8
    ensures covered == FileCovered(Attacks(board.rules, board.Top(), player), i, jLo, jHi)
  {
    covered := 0;
    ghost var count := Attacks(board.rules, board.Top(), player);
    var j := jLo;
    while j < jHi
      invariant jLo <= j <= jHi
      invariant covered + FileCovered(count, i, j, jHi) == FileCovered(count, i, jLo, jHi)
    {
      assert count(SquareAt(i, j)) == |board.rules.attackers(board.Top(), player, SquareAt(i, j))|;
      covered := covered + |board.rules.attackers(board.Top(), player, SquareAt(i, j))|;
      j := j + 1;
    }
  }

  /**
   * The scan covers at most the 2×2 block of the king's square and the squares one file and
   * one rank below it: the exclusive bound of `range` stops one short of the king's file and
   * rank plus one, and the clamp at 7 keeps file h and rank 8 out altogether. For a king
   * away from the edges it is exactly that block.
   */
  lemma WindowShape(king: Square, i: int, j: int)
    ensures var (f, r) := NumToTuple(king as int);
      InWindow(king, i, j) ==> (i == f - 1 || i == f) && (j == r - 1 || j == r) && 0 <= i < 7 && 0 <= j < 7
    ensures var (f, r) := NumToTuple(king as int);
      1 <= f <= 6 && 1 <= r <= 6 ==>
        (InWindow(king, i, j) <==> (i == f - 1 || i == f) && (j == r - 1 || j == r))
  {
  }

  /** The squares of the king's neighbourhood the scan leaves out: the file and rank beyond it. */
  lemma WindowMissesNeighbours(king: Square)
    ensures var (f, r) := NumToTuple(king as int);
      !InWindow(king, f + 1, r) && !InWindow(king, f, r + 1) && !InWindow(king, f + 1, r + 1)
  {
  }

  lemma {:induction false} FileCoveredFrame(c1: Square -> nat, c2: Square -> nat, i: int, j: int, jHi: int)
    requires 0 <= i < 8 && 0 <= j && jHi <= 8
    requires forall k :: j <= k < jHi ==> c1(SquareAt(i, k)) <= c2(SquareAt(i, k))
    ensures FileCovered(c1, i, j, jHi) <= FileCovered(c2, i, j, jHi)
    decreases jHi - j
  {
    if j < jHi {
      FileCoveredFrame(c1, c2, i, j + 1, jHi);
    }
  }

  lemma {:induction false} BlockCoveredFrame(c1: Square -> nat, c2: Square -> nat, i: int, iHi: int, jLo: int, jHi: int)
    requires 0 <= i && iHi <= 8 && 0 <= jLo && jHi <= 8
    requires forall a, b :: i <= a < iHi && jLo <= b < jHi ==> c1(SquareAt(a, b)) <= c2(SquareAt(a, b))
    ensures BlockCovered(c1, i, iHi, jLo, jHi) <= BlockCovered(c2, i, iHi, jLo, jHi)
    decreases iHi - i
  {
    if i < iHi {
      FileCoveredFrame(c1, c2, i, jLo, jHi);
      BlockCoveredFrame(c1, c2, i + 1, iHi, jLo, jHi);
    }
  }

  /**
   * Only the scanned squares count, and more attacks there never lower the total: when every
   * scanned square has at most as many attacks under c1 as under c2, so does the sum.
   */
  lemma WindowMonotone(c1: Square -> nat, c2: Square -> nat, king: Square)
    requires forall i, j :: InWindow(king, i, j) ==> c1(SquareAt(i, j)) <= c2(SquareAt(i, j))
    ensures WindowCovered(c1, king) <= WindowCovered(c2, king)
  {
    var (f, r) := NumToTuple(king as int);
    BlockCoveredFrame(c1, c2, Lo(f), Hi(f), Lo(r), Hi(r));
  }

  /** Two attack counts that agree on the scanned squares give the same total. */
  lemma WindowFrame(c1: Square -> nat, c2: Square -> nat, king: Square)
    requires forall i, j :: InWindow(king, i, j) ==> c1(SquareAt(i, j)) == c2(SquareAt(i, j))
    ensures WindowCovered(c1, king) == WindowCovered(c2, king)
  {
    WindowMonotone(c1, c2, king);
    WindowMonotone(c2, c1, king);
  }

  /** Distinct (file, rank) pairs on the board name distinct squares. */
  lemma SquareAtInjective(i: int, j: int, a: int, b: int)
    requires 0 <= i < 8 && 0 <= j < 8 && 0 <= a < 8 && 0 <= b < 8
    ensures SquareAt(i, j) == SquareAt(a, b) <==> i == a && j == b
  {
    SquareAtValue(i, j);
    SquareAtValue(a, b);
    if SquareAt(i, j) == SquareAt(a, b) {
      TupleToNumRoundTrip(i, j);
      TupleToNumRoundTrip(a, b);
    }
  }

  /** The square of an on-board pair is its index, with no truncation to eight bits. */
  lemma SquareAtValue(i: int, j: int)
    requires 0 <= i < 8 && 0 <= j < 8
    ensures SquareAt(i, j) as int == TupleToNum((i, j))
  {
    assert 0 <= TupleToNum((i, j)) < 64;
  }

  /** One more attack on square (a, b) adds one to a file's sum exactly when (a, b) is on it. */
  lemma {:induction false} FileBump(c1: Square -> nat, c2: Square -> nat, i: int, j: int, jHi: int, a: int, b: int)
    requires 0 <= i < 8 && 0 <= j && jHi <= 8 && 0 <= a < 8 && 0 <= b < 8
    requires forall t :: t != SquareAt(a, b) ==> c2(t) == c1(t)
    requires c2(SquareAt(a, b)) == c1(SquareAt(a, b)) + 1
    ensures FileCovered(c2, i, j, jHi) == FileCovered(c1, i, j, jHi) + (if i == a && j <= b < jHi then 1 else 0)
    decreases jHi - j
  {
    if j < jHi {
      SquareAtInjective(i, j, a, b);
      FileBump(c1, c2, i, j + 1, jHi, a, b);
    }
  }

  /** One more attack on square (a, b) adds one to a block's sum exactly when (a, b) is in it. */
  lemma {:induction false} BlockBump(c1: Square -> nat, c2: Square -> nat, i: int, iHi: int, jLo: int, jHi: int,
                                     a: int, b: int)
    requires 0 <= i && iHi <= 8 && 0 <= jLo && jHi <= 8 && 0 <= a < 8 && 0 <= b < 8
    requires forall t :: t != SquareAt(a, b) ==> c2(t) == c1(t)
    requires c2(SquareAt(a, b)) == c1(SquareAt(a, b)) + 1
    ensures BlockCovered(c2, i, iHi, jLo, jHi)
            == BlockCovered(c1, i, iHi, jLo, jHi) + (if i <= a < iHi && jLo <= b < jHi then 1 else 0)
    decreases iHi - i
  {
    if i < iHi {
      FileBump(c1, c2, i, jLo, jHi, a, b);
      BlockBump(c1, c2, i + 1, iHi, jLo, jHi, a, b);
    }
  }

  /**
   * The scan counts every scanned square once and no other square: one more attack on a
   * single square raises the total by one exactly when the square is in the window.
   */
  lemma WindowCountsEachSquare(c1: Square -> nat, c2: Square -> nat, king: Square, a: int, b: int)
    requires 0 <= a < 8 && 0 <= b < 8
    requires forall t :: t != SquareAt(a, b) ==> c2(t) == c1(t)
    requires c2(SquareAt(a, b)) == c1(SquareAt(a, b)) + 1
    ensures WindowCovered(c2, king) == WindowCovered(c1, king) + (if InWindow(king, a, b) then 1 else 0)
  {
    var (f, r) := NumToTuple(king as int);
    BlockBump(c1, c2, Lo(f), Hi(f), Lo(r), Hi(r), a, b);
  }

  /** A king in the corner h8 has a single scanned square, g7. */
  lemma WindowOfCornerKing(count: Square -> nat)
    ensures WindowCovered(count, 63) == count(54)
  {
    assert NumToTuple(63) == (7, 7);
    assert SquareAt(6, 6) == 54;
  }

  /** `enemy_piece_count`: the number of squares in the enemy mask. */
  function EnemyPieceCount(enemyPieces: bv64): (r: nat)
    ensures r <= 64
  {
    PopCountAtMost64(enemyPieces);
    PopCount(enemyPieces)
  }

  /** The count is the number of squares the enemy mask holds. */
  lemma EnemyPieceCountIsCardinality(enemyPieces: bv64)
    ensures EnemyPieceCount(enemyPieces) == |Squares(enemyPieces)|
    ensures forall s: Square :: s in Squares(enemyPieces) <==> Has(enemyPieces, s)
  {
    PopCountIsCardinality(enemyPieces);
  }

  /** Ten times `calculate_h`: -15 per scanned attack, -10 per promotion, +3 per enemy piece. */
  function ScaledH(mateFields: nat, promotions: nat, enemyCount: nat): int
  {
    -15 * mateFields - 10 * promotions + 3 * enemyCount
  }

  /**
   * `calculate_h` (chess.py:87-93), scaled by ten: the scanned attacks of the position on the
   * board, the promotion potential of the masks over `movesLeft` plies and the enemy count.
   */
  method CalculateH<P>(board: Board<P>, player: bool, kingPosition: Square, kingAttack: bv64,
                       movesLeft: int, peasants: bv64, enemyPieces: bv64, otherPlayerPieces: bv64)
    returns (h: int)
    requires board.Valid()
    ensures h == ScaledH(WindowCovered(Attacks(board.rules, board.Top(), player), kingPosition),
                         Potential(movesLeft, peasants, enemyPieces, otherPlayerPieces, player, kingAttack),
                         EnemyPieceCount(enemyPieces))
  {
    var mateFieldsH := MateFieldsCovered(board, player, kingPosition);
    var promotionPotentialH := PromotionPotential(movesLeft, peasants, enemyPieces, otherPlayerPieces, player, kingAttack);
    h := -15 * mateFieldsH - 10 * promotionPotentialH + 3 * EnemyPieceCount(enemyPieces);
  }

  /**
   * The priority favours the mating side: it never exceeds three per enemy piece (at most 192),
   * and it falls with every scanned attack and every promotion the pawns can reach, which
   * number at most 24 per remaining ply.
   */
  lemma ScaledHBounds(count: Square -> nat, king: Square, movesLeft: int, peasants: bv64,
                      enemyPieces: bv64, otherPlayerPieces: bv64, player: bool, kingAttack: bv64)
    ensures var h := ScaledH(WindowCovered(count, king),
                             Potential(movesLeft, peasants, enemyPieces, otherPlayerPieces, player, kingAttack),
                             EnemyPieceCount(enemyPieces));
      && h <= 3 * EnemyPieceCount(enemyPieces) <= 192
      && (movesLeft >= 0 ==> h >= -15 * WindowCovered(count, king) - 240 * movesLeft)
  {
    PotentialBound(movesLeft, peasants, enemyPieces, otherPlayerPieces, player, kingAttack);
  }
}
