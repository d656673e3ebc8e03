/**
 * The three masks the solver keeps beside the rules engine's board (chess.py:121-134,
 * 184-204): the opponent's pieces, the mating side's pawns and the mating side's other
 * pieces; how they are built from the piece map at the root, how one move updates them,
 * and the king-attack mask of the defending king.
 */
module Bitboard {
  import opened Bits
  import opened Chess

  /** The masks of one search node: `peasants`, `enemy_pieces`, `other_player_pieces`. */
  datatype Masks = Masks(peasants: bv64, enemyPieces: bv64, otherPlayerPieces: bv64)

  /** The squares some piece stands on, according to the masks. */
  function Occupied(m: Masks): bv64
  {
    m.peasants | m.enemyPieces | m.otherPlayerPieces
  }

  /** No square is in two of the masks. */
  predicate Disjoint(m: Masks)
  {
    m.peasants & m.enemyPieces == 0 && m.peasants & m.otherPlayerPieces == 0
      && m.enemyPieces & m.otherPlayerPieces == 0
  }

  // The letter sets of chess.py:7-8. Their names are the reverse of python-chess's colours:
  // `BlackPieces` holds White's upper-case letters and `WhitePieces` Black's lower-case ones.
  const BlackPieces: set<char> := {'P', 'N', 'B', 'R', 'Q', 'K'}
  const WhitePieces: set<char> := {'p', 'n', 'b', 'r', 'q', 'k'}

  /** chess.py:188: a piece of the side that is not to move (`player` is True for White). */
  predicate IsEnemy(p: Piece, player: bool)
  {
    (player && Symbol(p) in WhitePieces) || (!player && Symbol(p) in BlackPieces)
  }

  /** chess.py:190: a pawn of the side to move. */
  predicate IsPeasant(p: Piece, player: bool)
  {
    (player && Symbol(p) == 'P') || (!player && Symbol(p) == 'p')
  }

  /** chess.py:192, the `elif` after the pawn test: any other piece of the side to move. */
  predicate IsOther(p: Piece, player: bool)
  {
    !IsPeasant(p, player)
      && ((player && Symbol(p) in BlackPieces) || (!player && Symbol(p) in WhitePieces))
  }

  /**
   * The swapped set names are used consistently: a piece is an enemy exactly when its colour
   * is not the side to move's, and every piece falls in exactly one of the three classes.
   */
  lemma PieceClasses(p: Piece, player: bool)
    ensures IsEnemy(p, player) <==> p.white != player
    ensures IsPeasant(p, player) <==> p.white == player && p.kind == Pawn
    ensures IsOther(p, player) <==> p.white == player && p.kind != Pawn
  {
  }

  /** The three classes of chess.py:188-193, in the order the source tests them. */
  datatype Class = Enemy | Peasant | Other

  predicate InClass(p: Piece, player: bool, c: Class)
  {
    match c
    case Enemy => IsEnemy(p, player)
    case Peasant => IsPeasant(p, player)
    case Other => IsOther(p, player)
  }

  /** `mask` holds exactly the squares outside `pending` whose piece is of class `c`. */
  ghost predicate Tracks(mask: bv64, pieceMap: map<Square, Piece>, pending: set<Square>, player: bool, c: Class)
  {
    forall s: Square :: Has(mask, s) == (s in pieceMap && s !in pending && InClass(pieceMap[s], player, c))
  }

  /** The masks hold, square by square, the classes of the pieces of the piece map. */
  ghost predicate Classifies(m: Masks, pieceMap: map<Square, Piece>, player: bool)
  {
    && Tracks(m.enemyPieces, pieceMap, {}, player, Enemy)
    && Tracks(m.peasants, pieceMap, {}, player, Peasant)
    && Tracks(m.otherPlayerPieces, pieceMap, {}, player, Other)
  }

  /** Handling one more square of the piece map keeps a mask in step with its class. */
  lemma TracksStep(mask: bv64, pieceMap: map<Square, Piece>, pending: set<Square>, player: bool, c: Class, key: Square)
    requires key in pending && key in pieceMap
    requires Tracks(mask, pieceMap, pending, player, c)
    ensures Tracks(if InClass(pieceMap[key], player, c) then mask | Bit(key) else mask,
                   pieceMap, pending - {key}, player, c)
  {
    if InClass(pieceMap[key], player, c) {
      forall s: Square
        ensures Has(mask | Bit(key), s) == (s in pieceMap && s !in pending - {key} && InClass(pieceMap[s], player, c))
      {
        HasSetBit(mask, key, s);
      }
    }
  }

  /** The root classification loop of `solve` (chess.py:184-193), over the piece map. */
  method RootMasks(pieceMap: map<Square, Piece>, player: bool) returns (m: Masks)
    ensures Classifies(m, pieceMap, player)
  {
    var enemyPieces: bv64 := 0;
    var peasants: bv64 := 0;
    var otherPlayerPieces: bv64 := 0;
    var pending := pieceMap.Keys;
    while pending != {}
      invariant pending <= pieceMap.Keys
      invariant Tracks(enemyPieces, pieceMap, pending, player, Enemy)
      invariant Tracks(peasants, pieceMap, pending, player, Peasant)
      invariant Tracks(otherPlayerPieces, pieceMap, pending, player, Other)
      decreases pending
    {
      var key :| key in pending;
      var value := pieceMap[key];
      TracksStep(enemyPieces, pieceMap, pending, player, Enemy, key);
      TracksStep(peasants, pieceMap, pending, player, Peasant, key);
      TracksStep(otherPlayerPieces, pieceMap, pending, player, Other, key);
      if IsEnemy(value, player) {
        enemyPieces := enemyPieces | Bit(key);
      }
      if IsPeasant(value, player) {
        peasants := peasants | Bit(key);
      } else if IsOther(value, player) {
        otherPlayerPieces := otherPlayerPieces | Bit(key);
      }
      pending := pending - {key};
    }
    m := Masks(peasants, enemyPieces, otherPlayerPieces);
  }

  /** Two masks whose squares never coincide share no bit. */
  lemma NoCommonSquare(a: bv64, b: bv64)
    requires forall s: Square :: !(Has(a, s) && Has(b, s))
    ensures a & b == 0
  {
    var both := a & b;
    forall s: Square
      ensures !Has(both, s)
    {
      HasAnd(a, b, s);
    }
    EmptyMask(both);
  }

  /**
   * The root masks partition the occupied squares: no square is in two of them, and a square
   * is in one of them exactly when the piece map has a piece there.
   */
  lemma RootMasksPartition(m: Masks, pieceMap: map<Square, Piece>, player: bool)
    requires Classifies(m, pieceMap, player)
    ensures Disjoint(m)
    ensures forall s: Square :: Has(Occupied(m), s) <==> s in pieceMap
  {
    RootMasksDisjoint(m, pieceMap, player);
    forall s: Square
      ensures Has(Occupied(m), s) <==> s in pieceMap
    {
      RootSquare(m, pieceMap, player, s);
    }
  }

  /** The class memberships of one square under a root classification. */
  lemma RootSquare(m: Masks, pieceMap: map<Square, Piece>, player: bool, s: Square)
    requires Classifies(m, pieceMap, player)
    ensures !(Has(m.peasants, s) && Has(m.enemyPieces, s))
    ensures !(Has(m.peasants, s) && Has(m.otherPlayerPieces, s))
    ensures !(Has(m.enemyPieces, s) && Has(m.otherPlayerPieces, s))
    ensures Has(Occupied(m), s) <==> s in pieceMap
  {
    if s in pieceMap {
      PieceClasses(pieceMap[s], player);
    }
    HasOr(m.peasants, m.enemyPieces, s);
    HasOr(m.peasants | m.enemyPieces, m.otherPlayerPieces, s);
  }

  lemma RootMasksDisjoint(m: Masks, pieceMap: map<Square, Piece>, player: bool)
    requires Classifies(m, pieceMap, player)
    ensures Disjoint(m)
  {
    forall s: Square
      ensures !(Has(m.peasants, s) && Has(m.enemyPieces, s))
      ensures !(Has(m.peasants, s) && Has(m.otherPlayerPieces, s))
      ensures !(Has(m.enemyPieces, s) && Has(m.otherPlayerPieces, s))
    {
      RootSquare(m, pieceMap, player, s);
    }
    NoCommonSquare(m.peasants, m.enemyPieces);
    NoCommonSquare(m.peasants, m.otherPlayerPieces);
    NoCommonSquare(m.enemyPieces, m.otherPlayerPieces);
  }

  /**
   * chess.py:196-204: the squares from which a pawn of the side to move would give check to
   * the defending king on `king`: one rank behind the king in the mover's direction, one file
   * to either side. Bits pushed past square 63 are dropped by the 64-bit column masks.
   */
  function KingAttack(king: Square, player: bool): bv64
  {
    var left := if player then ((Bit(king) >> 8) << 1) else ((Bit(king) << 8) << 1);
    var right := if player then ((Bit(king) >> 8) >> 1) else ((Bit(king) << 8) >> 1);
    (left & NoRightColumn) | (right & NoLeftColumn)
  }

  lemma KingAttackOfWhite(k: Square, s: Square)
    ensures Has(((((1 << k) >> 8) << 1) & NoRightColumn) | ((((1 << k) >> 8) >> 1) & NoLeftColumn), s)
         == (Rank(k) != 0 && Rank(s) == Rank(k) - 1 && (File(s) == File(k) + 1 || File(s) + 1 == File(k)))
  {
  }

  lemma KingAttackOfBlack(k: Square, s: Square)
    ensures Has(((((1 << k) << 8) << 1) & NoRightColumn) | ((((1 << k) << 8) >> 1) & NoLeftColumn), s)
         == (Rank(k) != 7 && Rank(s) == Rank(k) + 1 && (File(s) == File(k) + 1 || File(s) + 1 == File(k)))
  {
  }

  /**
   * A square is in the king-attack mask exactly when it is diagonally adjacent to the king on
   * the rank a pawn of the side to move attacks it from: the rank below for White, above for
   * Black. A king on White's first rank (Black's eighth) has no such square.
   */
  lemma KingAttackSquares(king: Square, player: bool, s: Square)
    ensures Has(KingAttack(king, player), s) <==>
      && (if player then Rank(king) != 0 && Rank(s) == Rank(king) - 1
          else Rank(king) != 7 && Rank(s) == Rank(king) + 1)
      && (File(s) == File(king) + 1 || File(s) + 1 == File(king))
  {
    if player {
      KingAttackOfWhite(king, s);
    } else {
      KingAttackOfBlack(king, s);
    }
  }

  /** The king-attack mask is empty when the king stands where no pawn can attack it from. */
  lemma KingAttackEmpty(king: Square, player: bool)
    requires if player then Rank(king) == 0 else Rank(king) == 7
    ensures KingAttack(king, player) == 0
  {
    forall s: Square
      ensures !Has(KingAttack(king, player), s)
    {
      KingAttackSquares(king, player, s);
    }
    EmptyMask(KingAttack(king, player));
  }

  /**
   * The incremental update of the masks for one move of the side to move (chess.py:121-134):
   * whatever stood on the target square is no longer an enemy; a pawn moves from `from` to
   * `to`, becoming a piece of the other class when it promotes; any other piece of the side to
   * move moves likewise.
   */
  function UpdateMasks(m: Masks, mv: Move): Masks
  {
    var promotes := mv.promotion.Some?;
    Masks(UpdatePeasants(m.peasants, mv.from, mv.to, promotes),
          m.enemyPieces & !Bit(mv.to),
          UpdateOther(m.peasants, m.otherPlayerPieces, mv.from, mv.to, promotes))
  }

  /** chess.py:124-129: the pawn mask after a move from `f` to `t`. */
  function UpdatePeasants(peasants: bv64, f: Square, t: Square, promotes: bool): bv64
  {
    if Bit(f) & peasants == 0 then peasants
    else if promotes then ((peasants & !Bit(f)) | Bit(t)) & !Bit(t)
    else (peasants & !Bit(f)) | Bit(t)
  }

  /** chess.py:128-134: the mask of the other pieces after a move from `f` to `t`. */
  function UpdateOther(peasants: bv64, otherPlayerPieces: bv64, f: Square, t: Square, promotes: bool): bv64
  {
    MoveOther(Promote(peasants, otherPlayerPieces, f, t, promotes), f, t)
  }

  /** chess.py:128-129: a pawn that promotes on `t` becomes one of the other pieces. */
  function Promote(peasants: bv64, otherPlayerPieces: bv64, f: Square, t: Square, promotes: bool): bv64
  {
    if Bit(f) & peasants != 0 && promotes then otherPlayerPieces | Bit(t) else otherPlayerPieces
  }

  /** chess.py:131-133: a piece of the other class on `f` moves to `t`. */
  function MoveOther(other: bv64, f: Square, t: Square): bv64
  {
    if Bit(f) & other != 0 then (other & !Bit(f)) | Bit(t) else other
  }

  /** A piece moved from f to t, square by square. */
  lemma MoveSquare(p: bv64, f: Square, t: Square, s: Square)
    ensures Has((p & !Bit(f)) | Bit(t), s) == ((Has(p, s) && s != f) || s == t)
  {
  }

  /** A piece moved from f to t and then taken off t, square by square. */
  lemma MoveAndDropSquare(p: bv64, f: Square, t: Square, s: Square)
    ensures Has(((p & !Bit(f)) | Bit(t)) & !Bit(t), s) == (Has(p, s) && s != f && s != t)
  {
  }

  /**
   * The pawn mask: when a pawn stands on `f` it leaves it and reaches `t`, unless it promotes,
   * in which case `t` is not a pawn square; otherwise nothing changes.
   */
  lemma PeasantsSquare(p: bv64, f: Square, t: Square, promotes: bool, s: Square)
    ensures !Has(p, f) ==> Has(UpdatePeasants(p, f, t, promotes), s) == Has(p, s)
    ensures Has(p, f) && !promotes ==>
      Has(UpdatePeasants(p, f, t, promotes), s) == ((Has(p, s) && s != f) || s == t)
    ensures Has(p, f) && promotes ==>
      Has(UpdatePeasants(p, f, t, promotes), s) == (Has(p, s) && s != f && s != t)
  {
    BitTest(p, f);
    if Has(p, f) {
      if promotes {
        MoveAndDropSquare(p, f, t, s);
      } else {
        MoveSquare(p, f, t, s);
      }
    }
  }

  /** A piece of the other class on `f` leaves it and reaches `t`; otherwise nothing changes. */
  lemma MoveOtherSquare(o: bv64, f: Square, t: Square, s: Square)
    ensures !Has(o, f) ==> Has(MoveOther(o, f, t), s) == Has(o, s)
    ensures Has(o, f) ==> Has(MoveOther(o, f, t), s) == ((Has(o, s) && s != f) || s == t)
  {
    BitTest(o, f);
    if Has(o, f) {
      MoveSquare(o, f, t, s);
    }
  }

  /** A pawn on `f` that promotes adds `t` to the other pieces; otherwise nothing changes. */
  lemma PromoteSquare(p: bv64, o: bv64, f: Square, t: Square, promotes: bool, s: Square)
    ensures Has(Promote(p, o, f, t, promotes), s) == (Has(o, s) || (Has(p, f) && promotes && s == t))
  {
    BitTest(p, f);
    if Has(p, f) && promotes {
      AddSquare(o, t, s);
    }
  }

  lemma AddSquare(o: bv64, t: Square, s: Square)
    ensures Has(o | Bit(t), s) == (Has(o, s) || s == t)
  {
  }

  /** Without a promotion, the other pieces change exactly as `MoveOther` moves them. */
  lemma NoPromotion(p: bv64, o: bv64, f: Square, t: Square, promotes: bool)
    requires !(Has(p, f) && promotes)
    ensures UpdateOther(p, o, f, t, promotes) == MoveOther(o, f, t)
  {
    BitTest(p, f);
  }

  /** A pawn promoting on `t` from `f` joins the other pieces on `t`. */
  lemma OtherSquarePromotion(p: bv64, o: bv64, f: Square, t: Square, promotes: bool, s: Square)
    requires Has(p, f) && promotes && !Has(o, f) && f != t
    ensures Has(UpdateOther(p, o, f, t, promotes), s) == (Has(o, s) || s == t)
  {
    PromoteSquare(p, o, f, t, promotes, f);
    MoveOtherSquare(Promote(p, o, f, t, promotes), f, t, s);
    PromoteSquare(p, o, f, t, promotes, s);
  }

  /** Squares other than `f` and `t` keep their membership in the other pieces. */
  lemma OtherFrame(p: bv64, o: bv64, f: Square, t: Square, promotes: bool, s: Square)
    requires s != f && s != t
    ensures Has(UpdateOther(p, o, f, t, promotes), s) == Has(o, s)
  {
    PromoteSquare(p, o, f, t, promotes, s);
    MoveOtherSquare(Promote(p, o, f, t, promotes), f, t, s);
  }

  /** Squares other than `f` and `t` keep their membership in the pawns. */
  lemma PeasantsFrame(p: bv64, f: Square, t: Square, promotes: bool, s: Square)
    requires s != f && s != t
    ensures Has(UpdatePeasants(p, f, t, promotes), s) == Has(p, s)
  {
    PeasantsSquare(p, f, t, promotes, s);
  }

  /** The masks are unchanged on every square the move neither leaves nor reaches. */
  lemma UpdateFrame(m: Masks, mv: Move, s: Square)
    requires s != mv.from && s != mv.to
    ensures Has(UpdateMasks(m, mv).peasants, s) == Has(m.peasants, s)
    ensures Has(UpdateMasks(m, mv).enemyPieces, s) == Has(m.enemyPieces, s)
    ensures Has(UpdateMasks(m, mv).otherPlayerPieces, s) == Has(m.otherPlayerPieces, s)
  {
    PeasantsFrame(m.peasants, mv.from, mv.to, mv.promotion.Some?, s);
    EnemyFrame(m, mv, s);
    OtherFrame(m.peasants, m.otherPlayerPieces, mv.from, mv.to, mv.promotion.Some?, s);
  }

  lemma EnemyFrame(m: Masks, mv: Move, s: Square)
    requires s != mv.to
    ensures Has(UpdateMasks(m, mv).enemyPieces, s) == Has(m.enemyPieces, s)
  {
    HasClearBit(m.enemyPieces, mv.to, s);
  }

  /**
   * The target square leaves the enemy mask, and the enemy count drops by one exactly when an
   * enemy piece stood there.
   */
  lemma UpdateCapture(m: Masks, mv: Move)
    ensures !Has(UpdateMasks(m, mv).enemyPieces, mv.to)
    ensures PopCount(UpdateMasks(m, mv).enemyPieces)
         == if Has(m.enemyPieces, mv.to) then PopCount(m.enemyPieces) - 1 else PopCount(m.enemyPieces)
  {
    EnemyCleared(m, mv);
    PopCountClear(m.enemyPieces, mv.to);
  }

  /**
   * A pawn move: the pawn leaves `from` and stands on `to` as a pawn, or, when it promotes, as
   * one of the other pieces.
   */
  lemma UpdateMovesPawn(m: Masks, mv: Move)
    requires Has(m.peasants, mv.from) && !Has(m.otherPlayerPieces, mv.from) && mv.from != mv.to
    ensures !Has(UpdateMasks(m, mv).peasants, mv.from)
    ensures !Has(UpdateMasks(m, mv).otherPlayerPieces, mv.from)
    ensures Has(UpdateMasks(m, mv).peasants, mv.to) == mv.promotion.None?
    ensures Has(UpdateMasks(m, mv).otherPlayerPieces, mv.to) == (mv.promotion.Some? || Has(m.otherPlayerPieces, mv.to))
  {
    var p, o, promotes := m.peasants, m.otherPlayerPieces, mv.promotion.Some?;
    PeasantsSquare(p, mv.from, mv.to, promotes, mv.from);
    PeasantsSquare(p, mv.from, mv.to, promotes, mv.to);
    if promotes {
      OtherSquarePromotion(p, o, mv.from, mv.to, promotes, mv.from);
      OtherSquarePromotion(p, o, mv.from, mv.to, promotes, mv.to);
    } else {
      NoPromotion(p, o, mv.from, mv.to, promotes);
      MoveOtherSquare(o, mv.from, mv.to, mv.from);
      MoveOtherSquare(o, mv.from, mv.to, mv.to);
    }
  }

  /** A move of any other piece: it leaves `from` and stands on `to`; the pawns do not change. */
  lemma UpdateMovesPiece(m: Masks, mv: Move, s: Square)
    requires Has(m.otherPlayerPieces, mv.from) && !Has(m.peasants, mv.from)
    ensures !Has(UpdateMasks(m, mv).otherPlayerPieces, mv.from) || mv.from == mv.to
    ensures Has(UpdateMasks(m, mv).otherPlayerPieces, mv.to)
    ensures Has(UpdateMasks(m, mv).peasants, s) == Has(m.peasants, s)
  {
    var p, o, promotes := m.peasants, m.otherPlayerPieces, mv.promotion.Some?;
    PeasantsSquare(p, mv.from, mv.to, promotes, s);
    NoPromotion(p, o, mv.from, mv.to, promotes);
    MoveOtherSquare(o, mv.from, mv.to, mv.from);
    MoveOtherSquare(o, mv.from, mv.to, mv.to);
  }

  /** The target square is not in the updated enemy mask, whatever stood there. */
  lemma EnemyCleared(m: Masks, mv: Move)
    ensures !Has(UpdateMasks(m, mv).enemyPieces, mv.to)
  {
    HasClearBit(m.enemyPieces, mv.to, mv.to);
  }

  /** In disjoint masks no square is in two of them. */
  lemma DisjointSquare(m: Masks, s: Square)
    requires Disjoint(m)
    ensures !(Has(m.peasants, s) && Has(m.enemyPieces, s))
    ensures !(Has(m.peasants, s) && Has(m.otherPlayerPieces, s))
    ensures !(Has(m.enemyPieces, s) && Has(m.otherPlayerPieces, s))
  {
    HasAnd(m.peasants, m.enemyPieces, s);
    HasAnd(m.peasants, m.otherPlayerPieces, s);
    HasAnd(m.enemyPieces, m.otherPlayerPieces, s);
  }

  /** After a move from a disjoint position, neither of the mover's masks holds `from`. */
  lemma UpdateFromSquare(m: Masks, mv: Move)
    requires Disjoint(m) && mv.from != mv.to
    ensures !Has(UpdateMasks(m, mv).peasants, mv.from)
    ensures !Has(UpdateMasks(m, mv).otherPlayerPieces, mv.from)
  {
    var p, o, promotes := m.peasants, m.otherPlayerPieces, mv.promotion.Some?;
    DisjointSquare(m, mv.from);
    PeasantsSquare(p, mv.from, mv.to, promotes, mv.from);
    if Has(p, mv.from) && promotes {
      OtherSquarePromotion(p, o, mv.from, mv.to, promotes, mv.from);
    } else {
      NoPromotion(p, o, mv.from, mv.to, promotes);
      MoveOtherSquare(o, mv.from, mv.to, mv.from);
    }
  }

  /**
   * After a move to a square the mover did not occupy, the target is no enemy square and is
   * in at most one of the mover's masks.
   */
  lemma UpdateToSquare(m: Masks, mv: Move)
    requires Disjoint(m) && mv.from != mv.to
    requires !Has(m.peasants, mv.to) && !Has(m.otherPlayerPieces, mv.to)
    ensures !Has(UpdateMasks(m, mv).enemyPieces, mv.to)
    ensures !(Has(UpdateMasks(m, mv).peasants, mv.to) && Has(UpdateMasks(m, mv).otherPlayerPieces, mv.to))
  {
    var p, o, promotes := m.peasants, m.otherPlayerPieces, mv.promotion.Some?;
    EnemyCleared(m, mv);
    DisjointSquare(m, mv.from);
    PeasantsSquare(p, mv.from, mv.to, promotes, mv.to);
    if Has(p, mv.from) && promotes {
      OtherSquarePromotion(p, o, mv.from, mv.to, promotes, mv.to);
    } else {
      NoPromotion(p, o, mv.from, mv.to, promotes);
      MoveOtherSquare(o, mv.from, mv.to, mv.to);
    }
  }

  /** Square by square, the updated masks of a disjoint position stay apart. */
  lemma UpdateSquareApart(m: Masks, mv: Move, s: Square)
    requires Disjoint(m) && mv.from != mv.to
    requires !Has(m.peasants, mv.to) && !Has(m.otherPlayerPieces, mv.to)
    ensures !(Has(UpdateMasks(m, mv).peasants, s) && Has(UpdateMasks(m, mv).enemyPieces, s))
    ensures !(Has(UpdateMasks(m, mv).peasants, s) && Has(UpdateMasks(m, mv).otherPlayerPieces, s))
    ensures !(Has(UpdateMasks(m, mv).enemyPieces, s) && Has(UpdateMasks(m, mv).otherPlayerPieces, s))
  {
    if s == mv.to {
      UpdateToSquare(m, mv);
    } else if s == mv.from {
      UpdateFromSquare(m, mv);
    } else {
      UpdateFrame(m, mv, s);
      DisjointSquare(m, s);
    }
  }

  /**
   * A move of the side to move to a square it does not occupy keeps the three masks disjoint
   * (a capture takes the target out of the enemy mask before the mover's masks gain it).
   */
  lemma UpdateDisjoint(m: Masks, mv: Move)
    requires Disjoint(m) && mv.from != mv.to
    requires !Has(m.peasants, mv.to) && !Has(m.otherPlayerPieces, mv.to)
    ensures Disjoint(UpdateMasks(m, mv))
  {
    var r := UpdateMasks(m, mv);
    forall s: Square
      ensures !(Has(r.peasants, s) && Has(r.enemyPieces, s))
      ensures !(Has(r.peasants, s) && Has(r.otherPlayerPieces, s))
      ensures !(Has(r.enemyPieces, s) && Has(r.otherPlayerPieces, s))
    {
      UpdateSquareApart(m, mv, s);
    }
    NoCommonSquare(r.peasants, r.enemyPieces);
    NoCommonSquare(r.peasants, r.otherPlayerPieces);
    NoCommonSquare(r.enemyPieces, r.otherPlayerPieces);
  }
}
