/**
 * The python-chess interface the solver relies on, left abstract: positions are values of
 * an opaque type `P`, and the rules of chess are a record of functions over them. The board
 * the solver drives is a stack of positions on which moves are pushed and popped.
 */
module Engine {
  import opened Bits
  import opened Chess
  import opened Wrappers

  /** The library calls the solver makes, as functions of a position. */
  datatype Rules<!P> = Rules(
    /** `Board.set_fen`: the position a record describes, or None where it raises ValueError. */
    parse: string -> Option<P>,
    /** `Board.fen()`: the record of a position, placement field first. */
    fen: P -> string,
    /** `Board.turn`: True when White is to move. */
    turn: P -> bool,
    /** `Board.king(colour)`: the square of that side's king, or None. */
    king: (P, bool) -> Option<Square>,
    /** `Board.piece_map()`. */
    pieceMap: P -> map<Square, Piece>,
    /** `Board.legal_moves`, in the library's generation order. */
    legalMoves: P -> seq<Move>,
    /** The position after `Board.push(move)`. */
    apply: (P, Move) -> P,
    /** `Board.is_check()`: the side to move is in check. */
    isCheck: P -> bool,
    /** `Board.is_checkmate()`: the side to move is checkmated. */
    isCheckmate: P -> bool,
    /** `Board.attackers(colour, square)`: the squares of that side's pieces attacking the square. */
    attackers: (P, bool, Square) -> set<Square>)

  /** A python-chess board: the current position and the positions its pushed moves left. */
  class Board<P> {
    const rules: Rules<P>
    /** The positions, oldest first; the last one is the current position. */
    var stack: seq<P>

    predicate Valid()
      reads this
    {
      |stack| > 0
    }

    /** The current position. */
    function Top(): P
      reads this
      requires Valid()
    {
      stack[|stack| - 1]
    }

    constructor (rules: Rules<P>, position: P)
      ensures Valid() && this.rules == rules && stack == [position]
    {
      this.rules := rules;
      stack := [position];
    }

    /**
     * `set_fen`: on a record the library accepts, the board holds that position alone (the
     * move stack is cleared); otherwise nothing changes and `ok` is false.
     */
    method SetFen(fen: string) returns (ok: bool)
      modifies this
      ensures ok <==> rules.parse(fen).Some?
      ensures ok ==> stack == [rules.parse(fen).value]
      ensures !ok ==> stack == old(stack)
    {
      match rules.parse(fen)
      case Some(p) =>
        stack := [p];
        ok := true;
      case None =>
        ok := false;
    }

    /** `push`: the position after the move becomes current. */
    method Push(m: Move)
      requires Valid()
      modifies this
      ensures Valid() && stack == old(stack) + [rules.apply(old(Top()), m)]
    {
      stack := stack + [rules.apply(Top(), m)];
    }

    /** `pop`: takes back the last pushed move. */
    method Pop()
      requires |stack| >= 2
      modifies this
      ensures Valid() && stack == old(stack[..|stack| - 1])
    {
      stack := stack[..|stack| - 1];
    }
  }
}
