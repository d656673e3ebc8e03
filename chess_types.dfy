/**
 * The value types the solver receives from the python-chess library: pieces, moves and
 * the UCI text of a move. They are data only; the rules engine itself is in module Engine.
 */
module Chess {
  import opened Bits
  import opened Wrappers

  datatype PieceType = Pawn | Knight | Bishop | Rook | Queen | King

  /** A piece; `white` is the colour (True is White, as python-chess's `chess.WHITE`). */
  datatype Piece = Piece(kind: PieceType, white: bool)

  /** The lower-case letter of a piece type. */
  function Letter(k: PieceType): char
  {
    match k
    case Pawn => 'p'
    case Knight => 'n'
    case Bishop => 'b'
    case Rook => 'r'
    case Queen => 'q'
    case King => 'k'
  }

  /** `str(piece)`: upper case for White, lower case for Black. */
  function Symbol(p: Piece): (c: char)
    ensures 'a' <= c <= 'z' <==> !p.white
    ensures 'A' <= c <= 'Z' <==> p.white
  {
    if p.white then (Letter(p.kind) as int - 32) as char else Letter(p.kind)
  }

  /** A move: from-square, to-square and the piece type a pawn promotes to, if any. */
  datatype Move = Move(from: Square, to: Square, promotion: Option<PieceType>)

  /** The two-character algebraic name of a square, such as "e4". */
  function SquareName(s: Square): (r: string)
    ensures |r| == 2 && 'a' <= r[0] <= 'h' && '1' <= r[1] <= '8'
    ensures r[0] as int - 'a' as int == File(s) as int
    ensures r[1] as int - '1' as int == Rank(s) as int
  {
    [('a' as int + File(s) as int) as char, ('1' as int + Rank(s) as int) as char]
  }

  /** `Move.uci()`: from-square name, to-square name, then the promotion letter if any. */
  function Uci(m: Move): string
  {
    SquareName(m.from) + SquareName(m.to) + PromotionSuffix(m.promotion)
  }

  function PromotionSuffix(p: Option<PieceType>): string
  {
    match p
    case None => ""
    case Some(k) => [Letter(k)]
  }
}
