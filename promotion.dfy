/**
 * `promotion_potential` (chess.py:31-73): a simulation, ply by ply, of the mating side's
 * pawns on 64-bit masks. Each ply every pawn either steps one square forward onto an empty
 * square or captures diagonally onto an enemy piece, never onto a square of the king-attack
 * mask; the moves that reach the promotion rank are counted and those pawns leave the board.
 */
module Promotion {
  import opened Bits

  /** The three move masks of one simulated ply: single pushes and the two diagonal captures. */
  datatype PlyMoves = PlyMoves(pushes: bv64, left: bv64, right: bv64)

  /** Every pawn one rank forward: toward rank 8 for White, toward rank 1 for Black. */
  function Advance(pawns: bv64, white: bool): bv64
  {
    if white then pawns << 8 else pawns >> 8
  }

  /** The rank a pawn of the given colour promotes on. */
  function PromotionRow(white: bool): bv64
  {
    if white then UpperRow else BottomRow
  }

  lemma PopCountOfPromotionRow(m: bv64, white: bool)
    ensures PopCount(m & PromotionRow(white)) <= 8
  {
    PopCountOfRow(m);
    if white {
      assert m & PromotionRow(white) == m & UpperRow;
    } else {
      assert m & PromotionRow(white) == m & BottomRow;
    }
  }

  /** The squares a pawn of the given colour may still stand on: all but its promotion rank. */
  function CarryRows(white: bool): bv64
  {
    if white then NoUpperRow else NoBottomRow
  }

  /** One ply of moves (chess.py:37-55). `left` captures toward file h, `right` toward file a. */
  function Ply(pawns: bv64, enemy: bv64, other: bv64, white: bool, kingAttack: bv64): PlyMoves
  {
    var empty := !pawns & !other & !enemy;
    var ahead := Advance(pawns, white);
    PlyMoves(
      ahead & empty & !kingAttack,
      (ahead << 1) & NoRightColumn & enemy & !kingAttack,
      (ahead >> 1) & NoLeftColumn & enemy & !kingAttack)
  }

  /** The pawns carried into the next ply (chess.py:57, 64, 70). */
  function NextPawns(p: PlyMoves, white: bool): bv64
  {
    (p.pushes | p.left | p.right) & CarryRows(white)
  }

  /** What one ply adds to the count (chess.py:60-62, 66-68, 72). */
  function PlyPromotions(p: PlyMoves, white: bool): (r: nat)
    ensures r <= 24
  {
    PopCountOfPromotionRow(p.pushes, white);
    PopCountOfPromotionRow(p.left, white);
    PopCountOfPromotionRow(p.right, white);
    PopCount(p.pushes & PromotionRow(white)) + PopCount(p.left & PromotionRow(white))
      + PopCount(p.right & PromotionRow(white))
  }

  /** The count over k plies, starting from the given pawns; `range(k)` is empty for k <= 0. */
  function Potential(k: int, pawns: bv64, enemy: bv64, other: bv64, white: bool, kingAttack: bv64): nat
    decreases k
  {
    if k <= 0 then 0
    else
      var p := Ply(pawns, enemy, other, white, kingAttack);
      PlyPromotions(p, white) + Potential(k - 1, NextPawns(p, white), enemy, other, white, kingAttack)
  }

  /** `promotion_potential`, with `self.player` and `self.king_attack` passed in. */
  method PromotionPotential(movesLeft: int, peasants: bv64, enemyPieces: bv64, otherPlayerPieces: bv64,
                            white: bool, kingAttack: bv64)
    returns (promotions: nat)
    ensures promotions == Potential(movesLeft, peasants, enemyPieces, otherPlayerPieces, white, kingAttack)
  {
    promotions := 0;
    var tempPeasants := peasants;
    var i := 0;
    while i < movesLeft
      invariant 0 <= i && (movesLeft >= 0 ==> i <= movesLeft)
      invariant promotions + Potential(movesLeft - i, tempPeasants, enemyPieces, otherPlayerPieces, white, kingAttack)
             == Potential(movesLeft, peasants, enemyPieces, otherPlayerPieces, white, kingAttack)
    {
      var moves := Ply(tempPeasants, enemyPieces, otherPlayerPieces, white, kingAttack);
      tempPeasants := NextPawns(moves, white);
      promotions := promotions + PlyPromotions(moves, white);
      i := i + 1;
    }
  }

  /** The pawns that can capture toward file h without leaving the board: those off file h. */
  function CanCaptureLeft(pawns: bv64): bv64 { pawns & NoLeftColumn }

  /** The pawns that can capture toward file a without leaving the board: those off file a. */
  function CanCaptureRight(pawns: bv64): bv64 { pawns & NoRightColumn }

  /** Every push of a ply lands on an empty square straight ahead of a pawn. */
  lemma PushesLandOnEmpty(pawns: bv64, enemy: bv64, other: bv64, white: bool, kingAttack: bv64)
    ensures var p := Ply(pawns, enemy, other, white, kingAttack);
      && p.pushes & (pawns | other | enemy) == 0
      && p.pushes & !Advance(pawns, white) == 0
  {
    PushesLand(Advance(pawns, white), pawns, other, enemy, kingAttack);
  }

  /** Every capture of a ply lands on an enemy piece. */
  lemma CapturesLandOnEnemy(pawns: bv64, enemy: bv64, other: bv64, white: bool, kingAttack: bv64)
    ensures var p := Ply(pawns, enemy, other, white, kingAttack);
      p.left & !enemy == 0 && p.right & !enemy == 0
  {
    var ahead := Advance(pawns, white);
    CapturesLand(ahead << 1, NoRightColumn, enemy, kingAttack);
    CapturesLand(ahead >> 1, NoLeftColumn, enemy, kingAttack);
  }

  /**
   * Every capture toward file h comes diagonally from a pawn off file h, so none wraps from
   * file h to file a.
   */
  lemma LeftCapturesDoNotWrap(pawns: bv64, enemy: bv64, other: bv64, white: bool, kingAttack: bv64)
    ensures Ply(pawns, enemy, other, white, kingAttack).left & !(Advance(CanCaptureLeft(pawns), white) << 1) == 0
  {
    LeftCaptureFromWhite(pawns, enemy, kingAttack);
    LeftCaptureFromBlack(pawns, enemy, kingAttack);
  }

  /**
   * Every capture toward file a comes diagonally from a pawn off file a, so none wraps from
   * file a to file h.
   */
  lemma RightCapturesDoNotWrap(pawns: bv64, enemy: bv64, other: bv64, white: bool, kingAttack: bv64)
    ensures Ply(pawns, enemy, other, white, kingAttack).right & !(Advance(CanCaptureRight(pawns), white) >> 1) == 0
  {
    RightCaptureFromWhite(pawns, enemy, kingAttack);
    RightCaptureFromBlack(pawns, enemy, kingAttack);
  }

  /** No move of a ply lands on the king-attack mask. */
  lemma MovesAvoidKingAttack(pawns: bv64, enemy: bv64, other: bv64, white: bool, kingAttack: bv64)
    ensures var p := Ply(pawns, enemy, other, white, kingAttack);
      (p.pushes | p.left | p.right) & kingAttack == 0
  {
    var ahead := Advance(pawns, white);
    MovesAvoid(ahead & (!pawns & !other & !enemy), ahead << 1, ahead >> 1, enemy, kingAttack);
  }

  lemma PushesLand(ahead: bv64, pawns: bv64, other: bv64, enemy: bv64, kingAttack: bv64)
    ensures ahead & (!pawns & !other & !enemy) & !kingAttack & (pawns | other | enemy) == 0
    ensures ahead & (!pawns & !other & !enemy) & !kingAttack & !ahead == 0
  {
  }

  lemma CapturesLand(shifted: bv64, edge: bv64, enemy: bv64, kingAttack: bv64)
    ensures shifted & edge & enemy & !kingAttack & !enemy == 0
  {
  }

  lemma MovesAvoid(pushes: bv64, leftShifted: bv64, rightShifted: bv64, enemy: bv64, kingAttack: bv64)
    ensures ((pushes & !kingAttack) | (leftShifted & NoRightColumn & enemy & !kingAttack)
             | (rightShifted & NoLeftColumn & enemy & !kingAttack)) & kingAttack == 0
  {
  }

  lemma LeftCaptureFromWhite(pawns: bv64, enemy: bv64, kingAttack: bv64)
    ensures (pawns << 8 << 1) & NoRightColumn & enemy & !kingAttack & !((pawns & NoLeftColumn) << 8 << 1) == 0
  {
  }

  lemma LeftCaptureFromBlack(pawns: bv64, enemy: bv64, kingAttack: bv64)
    ensures (pawns >> 8 << 1) & NoRightColumn & enemy & !kingAttack & !((pawns & NoLeftColumn) >> 8 << 1) == 0
  {
  }

  lemma RightCaptureFromWhite(pawns: bv64, enemy: bv64, kingAttack: bv64)
    ensures (pawns << 8 >> 1) & NoLeftColumn & enemy & !kingAttack & !((pawns & NoRightColumn) << 8 >> 1) == 0
  {
  }

  lemma RightCaptureFromBlack(pawns: bv64, enemy: bv64, kingAttack: bv64)
    ensures (pawns >> 8 >> 1) & NoLeftColumn & enemy & !kingAttack & !((pawns & NoRightColumn) >> 8 >> 1) == 0
  {
  }

  /** The pawns carried into the next ply have none on the promotion rank. */
  lemma NextPawnsOffPromotionRow(p: PlyMoves, white: bool)
    ensures NextPawns(p, white) & PromotionRow(white) == 0
    ensures NextPawns(p, white) | ((p.pushes | p.left | p.right) & PromotionRow(white))
         == p.pushes | p.left | p.right
  {
  }

  /** Counting one more ply never lowers the count. */
  lemma {:induction false} PotentialMonotone(k: int, pawns: bv64, enemy: bv64, other: bv64, white: bool,
                                             kingAttack: bv64)
    ensures Potential(k, pawns, enemy, other, white, kingAttack)
         <= Potential(k + 1, pawns, enemy, other, white, kingAttack)
    decreases k
  {
    if k > 0 {
      var p := Ply(pawns, enemy, other, white, kingAttack);
      PotentialMonotone(k - 1, NextPawns(p, white), enemy, other, white, kingAttack);
    }
  }

  /** Nothing is counted without a ply, and each ply adds at most 24 (three moves per file). */
  lemma {:induction false} PotentialBound(k: int, pawns: bv64, enemy: bv64, other: bv64, white: bool,
                                          kingAttack: bv64)
    ensures k <= 0 ==> Potential(k, pawns, enemy, other, white, kingAttack) == 0
    ensures k >= 0 ==> Potential(k, pawns, enemy, other, white, kingAttack) <= 24 * k
    decreases k
  {
    if k > 0 {
      var p := Ply(pawns, enemy, other, white, kingAttack);
      PotentialBound(k - 1, NextPawns(p, white), enemy, other, white, kingAttack);
    }
  }
}
