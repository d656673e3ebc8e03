# Progressive-chess mate solver, modelled in Dafny

`chess.py` holds `Seminar1`, a solver for "mate in N" puzzles in which one side plays all
N moves in a row while the defender stands still. The solver reads N from the last
character of the position record. It runs a best-first search over positions. Beside the
python-chess board it keeps three 64-bit masks: the mating side's pawns ("peasants"), the
defender's pieces ("enemy pieces") and the mating side's other pieces. From these masks, and
from the attacks around the defending king, it scores each child position with a heuristic
`h`.

The model follows the source module by module:

- `Bits`: squares 0..63, masks as `bv64`, the row and column constants, and a population count.
- `Chess`: pieces, their letters, moves and UCI text.
- `Text`: the static helpers `tuple_to_num`, `num_to_tuple`, `fix_fen`, `fix_start_fen` and
  `move_to_str`, the placement field of a record, and the move-count digit.
- `Bitboard`: the root classification of the piece map into the three masks, the king-attack
  mask, and the incremental mask update for one move.
- `Promotion`: `promotion_potential`, a ply-by-ply simulation of the pawns on masks.
- `Heuristic`: `mate_fields_covered`, `enemy_piece_count` and `calculate_h`.
- `Engine`: the python-chess calls the solver makes, as a record of functions over an
  abstract position type. A `Board` class models a board as a stack of positions, with
  `push`, `pop` and `set_fen`.
- `Search`: `add_new_moves` and `solve`, as the `Solver` class with the fields `visited`,
  `queue` and `operationCounter`. The methods are proved against the state functions
  `TryMove` (one iteration of `add_new_moves`), `Expand` (its whole loop) and `Run` (the
  loop of `solve`), and the lemmas state what those functions promise.

Two details of the code decide what the model states:

- The loops of `mate_fields_covered` use `range(max(0, x - 1), min(7, x + 1))`. The
  exclusive bound scans only files and ranks x - 1 and x, so the scan covers at most a
  2×2 block beside the king and never reaches file h or rank 8.
  `Heuristic.WindowShape` and `Heuristic.WindowMissesNeighbours` state the scan as written.
- `board.is_check()` runs after `board.push(move)`, when the defender is to move. So it tests
  the defending king, and a move that gives check before the last move is dropped.
  `Search.Resolve` models that.

A move count of 0 is read like any other digit. The root is then expanded at depth 1, which
never equals the move count, so no child is tested for mate and every quiet child is queued:
the search never stops at a depth, in the source as in the model. For a move count of 1 or
more, every queued node lies below the move count (`Search.ExpandShallow`).

The float weights 1.5, 1 and 0.3 of `calculate_h` become the integer weights 15, 10 and 3.
Every priority is ten times the source's value, which keeps the order of the queue.

## Model

| member | source | states |
|---|---|---|
| Bits.ConstantMasks | chess.py:10-16 | the row and column constants hold exactly rank 8, not rank 8, rank 1, not rank 1, not file a and not file h |
| Bits.PopCountIsCardinality | chess.py:84-85 | counting the '1' digits of a mask gives the number of squares the mask holds |
| Bits.PopCountClear | chess.py:123 | clearing a square lowers the count by one exactly when the square was set |
| Chess.Symbol | chess.py:188-192 | the letter of a piece is lower-case exactly for Black and upper-case exactly for White |
| Chess.SquareName | chess.py:169-171 | the name of a square is a file letter a-h and a rank digit 1-8 that encode its file and rank |
| Text.NumToTuple | chess.py:156-158 | the file is in 0..7, and on the board so is the rank |
| Text.NumToTupleRoundTrip | chess.py:152-158 | `tuple_to_num(num_to_tuple(n)) == n` for every integer n |
| Text.TupleToNumRoundTrip | chess.py:152-158 | `num_to_tuple(tuple_to_num((f, r))) == (f, r)` for every file 0..7 and every rank |
| Text.NumToTupleOfSquare | chess.py:156-158 | `num_to_tuple` of a square is its file and rank |
| Text.FirstField | chess.py:102 | `fen.split(' ')[0]` is a space-free prefix that ends at the first space or at the end |
| Text.FirstFieldOf | chess.py:102 | the first field of `p + " " + rest` is `p` when `p` has no space |
| Text.FixFenFields | chess.py:160-162 | `fix_fen` keeps the placement as the first field and writes the side to move after it |
| Text.ParseMoveCount | chess.py:175 | `int(fen[-1])` yields a digit 0..9 exactly when the text is non-empty and ends in a decimal digit |
| Text.StartFenSplit | chess.py:173-176 | a record ending in digit d gives move count d, and `fix_start_fen` replaces exactly that digit by `- - 0 1` |
| Text.MoveToStrInverse | chess.py:168-171 | `move_to_str` adds one '-' after the first two characters, and removing it gives the UCI text back |
| Text.MoveToStrOfMove | chess.py:168-171 | a move's text is from-square, '-', to-square and promotion letter, with no ';' |
| Text.CountCharAppend | chess.py:103 | separators in a concatenation add up |
| Bitboard.PieceClasses | chess.py:187-193 | with the swapped set names, a piece is an enemy exactly when its colour is not the side to move's; a peasant is a pawn of the side to move; "other" is any other piece of the side to move |
| Bitboard.RootMasks | chess.py:184-193 | each root mask holds exactly the squares of the piece map whose piece is in its class |
| Bitboard.RootSquare | chess.py:184-193 | on each square, no two root masks are set, and one is set exactly when the piece map has a piece there |
| Bitboard.RootMasksDisjoint | chess.py:184-193 | the three root masks share no bit |
| Bitboard.RootMasksPartition | chess.py:184-193 | the root masks are disjoint and together hold exactly the occupied squares |
| Bitboard.KingAttackSquares | chess.py:195-204 | a square is in the king-attack mask iff it is diagonally adjacent to the king on the rank a pawn of the side to move checks it from, and that rank exists |
| Bitboard.KingAttackEmpty | chess.py:195-204 | a king on the mover's own back rank gets an empty king-attack mask |
| Bitboard.PeasantsSquare | chess.py:124-129 | the pawn mask changes only when a pawn stands on the from-square; the pawn then leaves it and stands on the to-square unless it promotes |
| Bitboard.MoveOtherSquare | chess.py:131-134 | a piece of the other class on the from-square leaves it for the to-square; otherwise nothing changes |
| Bitboard.PromoteSquare | chess.py:128-130 | a promoting pawn adds the to-square to the other pieces |
| Bitboard.UpdateFrame | chess.py:121-134 | every square the move neither leaves nor reaches keeps its membership in all three masks |
| Bitboard.UpdateCapture | chess.py:122-123 | the to-square leaves the enemy mask, and the enemy count drops by one exactly when it was set |
| Bitboard.UpdateMovesPawn | chess.py:124-134 | a pawn move empties the from-square; the to-square is a pawn square iff there is no promotion, and becomes an "other" square on promotion |
| Bitboard.UpdateMovesPiece | chess.py:131-134 | a move of another piece empties its from-square, fills its to-square and leaves the pawns alone |
| Bitboard.UpdateFromSquare | chess.py:124-134 | from disjoint masks, neither of the mover's masks keeps the from-square |
| Bitboard.UpdateToSquare | chess.py:121-134 | after a move to a square the mover does not occupy, the to-square is not an enemy and is in at most one of the mover's masks |
| Bitboard.UpdateDisjoint | chess.py:121-134 | a move to a square the mover does not occupy keeps the three masks disjoint |
| Promotion.PlyPromotions | chess.py:59-72 | one ply adds at most 24 promotions |
| Promotion.PromotionPotential | chess.py:31-73 | the loop returns the ply-by-ply count `Potential` over `moves_left` plies, which is 0 for no plies |
| Promotion.PushesLandOnEmpty | chess.py:37-43 | every push lands on an empty square straight ahead of a pawn |
| Promotion.CapturesLandOnEnemy | chess.py:44-51 | every capture lands on an enemy piece |
| Promotion.LeftCapturesDoNotWrap | chess.py:47 | a capture toward file h comes only from a pawn off file h, so nothing wraps around the board edge |
| Promotion.RightCapturesDoNotWrap | chess.py:50 | a capture toward file a comes only from a pawn off file a |
| Promotion.MovesAvoidKingAttack | chess.py:53-55 | no simulated move lands on the king-attack mask |
| Promotion.NextPawnsOffPromotionRow | chess.py:57-70 | the pawns carried into the next ply are off the promotion rank, and they are exactly the moved pawns that did not promote |
| Promotion.PotentialMonotone | chess.py:36-72 | one more ply never lowers the count |
| Promotion.PotentialBound | chess.py:36-72 | no plies count 0, and k plies count at most 24k |
| Heuristic.MateFieldsCovered | chess.py:75-81 | the scan returns the sum of `len(board.attackers(player, s))` over the window around the king |
| Heuristic.BlockAttacks | chess.py:78-80 | the outer loop adds up the attacks over its block of files and ranks |
| Heuristic.FileAttacks | chess.py:79-80 | the inner loop adds up the attacks over one file |
| Heuristic.WindowShape | chess.py:77-79 | the window lies within files and ranks x - 1 and x of the king and off file h and rank 8, and away from the edges it is exactly that 2×2 block |
| Heuristic.WindowMissesNeighbours | chess.py:78-79 | the squares right of, above and diagonally above-right of the king are never scanned |
| Heuristic.WindowMonotone | chess.py:75-81 | more attacks on the scanned squares never lower the total |
| Heuristic.WindowFrame | chess.py:75-81 | attacks outside the window do not matter |
| Heuristic.SquareAtInjective | chess.py:152-154 | distinct (file, rank) pairs on the board give distinct squares |
| Heuristic.WindowCountsEachSquare | chess.py:75-81 | one more attack on a single square raises the total by exactly one when the square is scanned and leaves it unchanged otherwise, so each scanned square counts once |
| Heuristic.WindowOfCornerKing | chess.py:75-81 | for a king on h8 the scan covers g7 alone |
| Heuristic.EnemyPieceCount | chess.py:84-85 | the count is at most 64 |
| Heuristic.EnemyPieceCountIsCardinality | chess.py:84-85 | the count is the number of squares in the enemy mask |
| Heuristic.CalculateH | chess.py:87-93 | ten times `h` is -15 per scanned attack, -10 per promotion and +3 per enemy piece |
| Heuristic.ScaledHBounds | chess.py:87-93 | ten times `h` is at most 3 per enemy piece (192), and at least -15 per scanned attack - 240 per remaining ply |
| Search.MinIndex | chess.py:214 | the popped entry is one that no other entry precedes by (priority, counter) |
| Search.TryMoveDedup | chess.py:104-108 | a move changes nothing exactly when its placement is recorded at depth g or less; otherwise the placement is recorded at g |
| Search.TryMoveVisited | chess.py:104-108 | a move never forgets a placement and never raises a recorded depth |
| Search.TryMoveSolution | chess.py:110-112 | a mate is returned iff the placement is new, g is the move count and the child is checkmate; it is the path and the move without the trailing ';' |
| Search.TryMoveQueue | chess.py:117-148 | a child is queued iff it is new, short of the move count and not in check; it gets the next counter, depth g and one more ';', and otherwise queue and counter are unchanged |
| Search.ChildPathSeparators | chess.py:103 | extending a path adds exactly one ';' |
| Search.TryMoveAppended | chess.py:96-148 | one move appends at most its own child, as `Appended` describes |
| Search.AppendedTrans | chess.py:96-148 | the appends of consecutive moves at the same depth compose |
| Search.ExpandQueue | chess.py:95-150 | `add_new_moves` only appends: consecutive counters, depth g, one more ';' than the parent |
| Search.ExpandVisited | chess.py:95-150 | over a whole expansion no recorded depth rises and no placement is forgotten |
| Search.ExpandSolution | chess.py:95-150 | a solution comes only at depth g equal to the move count, and it is the path followed by one of the moves, which mates |
| Search.ExpandFindsFirstMate | chess.py:96-112 | at depth g equal to the move count, the first mating move whose placement is new and differs from every earlier move's is the solution returned: the path and that move |
| Search.RootWellFormed | chess.py:207-212 | the root queue is well formed: its path has g = 0 separators |
| Search.RemoveKeepsWellFormed | chess.py:214 | popping any entry keeps the queue well formed |
| Search.AppendKeepsWellFormed | chess.py:140-148 | an expansion of a well-formed node keeps the queue well formed, with counters increasing along the queue |
| Search.RemoveKeepsShallow | chess.py:214 | popping any entry keeps every queued node below the move count |
| Search.ExpandShallow | chess.py:110-117 | an expansion at a depth up to the move count queues only nodes below it, since at the move count each child is tested for mate and never queued |
| Search.ExpandFacts | chess.py:213-221 | an expansion of a queued node keeps the queue well formed, and a mate it returns has move-count - 1 separators and ends with a legal mating move |
| Search.Popped | chess.py:214 | `heappop` keeps the visited table and the counter and takes out exactly the entry `MinIndex` picks |
| Search.Run | chess.py:211-221 | the loop of `solve` never reports a bad move count or a missing king; it reports an empty queue only when the queue is empty and runs out of fuel only with entries left |
| Search.RunStep | chess.py:213-221 | one iteration as `Visited` describes it is the first step of the run: its outcome ends the run, or the run goes on from the new state with one iteration fewer |
| Search.RunEnds | chess.py:213 | on an empty queue the run ends with no solution, and with no fuel left it ends out of fuel |
| Search.Solver.constructor | chess.py:18-29 | the solver starts with nothing visited, an empty queue, counter 0 and weight 0 |
| Search.Solver.AddNewMoves | chess.py:95-150 | state and result as `Expand` says; the board is back where it started, unless a mate was found, when the mating move is still pushed |
| Search.Solver.HandleMove | chess.py:96-148 | one iteration changes the state as `TryMove` says and pops the move on every exit but a mate |
| Search.Solver.FinishMove | chess.py:110-148 | once the placement is recorded, the state changes as `Resolve` says |
| Search.Solver.TerminalMove | chess.py:110-115 | at the last move, the result is `new_path[:-1]` iff the child is checkmate, and otherwise the move is popped |
| Search.Solver.QuietMove | chess.py:117-148 | a child in check is dropped, and any other child is queued as `Enqueue` says |
| Search.Solver.QueueChild | chess.py:140-148 | the counter goes up by one and the child's entry is appended |
| Search.Solver.NewEntry | chess.py:142-148 | the entry built on the board is the one `Enqueue` appends |
| Search.Solver.ChildPriority | chess.py:121-139 | the masks are `UpdateMasks` of the parent's, and the priority is `g * g_weight + calculate_h`, scaled by ten |
| Search.Solver.PopMin | chess.py:214 | `heappop` removes and returns the entry `MinIndex` picks |
| Search.Solver.Solve | chess.py:173-221 | `BadMoveCount` exactly when the text does not end in a digit, and otherwise the move count is that digit; `BadFen` when the library rejects the completed record; `NoKing` exactly when the record is accepted and the defender has no king; otherwise the side to move, the king's square and `KingAttack` of it are left in the fields; a solution has move-count - 1 separators and ends with a legal mating move from some position |
| Search.Solver.Start | chess.py:175-212 | `BadFen` exactly when the library rejects the completed record, `NoKing` exactly when it is accepted and the defender has no king; otherwise the board holds that position, the fields hold the side to move, the defending king's square and its `KingAttack` mask, and the queue holds the root alone: priority 0, counter 0, the completed record, depth 0, empty path, and masks that classify the piece map as `RootMasks` does |
| Search.Solver.Search | chess.py:213-221 | the final state and the outcome are those of `Run` from the starting state; `Exhausted` leaves the queue empty and `OutOfFuel` leaves entries; the queue stays well formed and, for a move count of 1 or more, below the move count; every solution has move-count - 1 separators and ends with a legal mating move |
| Search.Solver.Iterate | chess.py:213-221 | one iteration is the first step of `Run`: it ends the run with its outcome, or the run from the new state with one iteration fewer is the run from the old one |
| Search.Solver.VisitNode | chess.py:215-221 | a record the library rejects gives `BadFen` and no change; otherwise the state is `Expand` over the legal moves of the record's position, and a mate found there is the outcome; queued nodes stay below the move count |
| Search.Solver.Visit | chess.py:213-221 | the node expanded is the one `MinIndex` picks, and the state is what `Visited` says for the queue without it; the queue stays well formed and below the move count, and a solution has move-count - 1 separators and ends with a legal mating move from the popped record's position |
| Search.Solver.ExpandNode | chess.py:215-218 | the state and result are `Expand` over the legal moves of the node's position; the queue stays well formed and below the move count, and a mate has the length asked for and ends with a legal mating move |

## Left out

- python-chess is not part of this model. Parsing and printing records, legal-move
  generation, `push`, `is_check`, `is_checkmate`, `king`, `piece_map` and `attackers` are
  the fields of `Engine.Rules`, which are left abstract. `Engine.Board` is a stack of
  positions.
- `print(solution)` (chess.py:220) is output and is left out.
- The `heapq` heap is not modelled. The queue is a sequence in push order, and
  `Search.Solver.PopMin` removes the entry the heap would pop.
- Search.Solver.ChildPriority: the priority is ten times the exact value of the float expression. A float
  rounding that orders two nearly equal priorities differently is not modelled.
- Search.Solver.Solve: the loop is bounded by `fuel` iterations and returns `OutOfFuel`
  when they run out. Whether the search terminates depends on the rules engine, so the
  model does not promise it, and it does not promise that a mate is found when one exists.
- Search.Solver.Solve: the source raises exceptions, and the model returns outcomes:
  `BadMoveCount` for IndexError or ValueError from `int(fen[-1])`, `BadFen` for ValueError
  from `set_fen`, and `NoKing` for the TypeError of `1 << None`.
- Text.ParseMoveCount: only the ASCII digits 0-9 are read. Python's `int` also accepts
  other Unicode decimal digits.
- Search.Solver.Solve: a solution is proved to end with a mating move from some position. The
  outcome of `Solve` is not stated as `Run` of the root state; `Search.Solver.Search` states
  that, and in `Run` the mating move comes from the position of a popped record.
- Search.Solver.Solve: `self.__init__()` is modelled by resetting the fields at the start of
  `Solve`. The float weights of `__init__` are constants in `Heuristic.ScaledH`.
- Bitboard.UpdateMasks: like the source, the update does not clear the square of a pawn
  taken en passant and does not move the rook when the king castles. In the source neither
  move occurs: every record the board is set from ends in `- - 0 1` (chess.py:162, 166), so
  it has no castling rights and no en-passant square, and each expansion pushes one move
  from such a record. `Engine.Rules` leaves move generation abstract, so the model does not
  prove that the masks match the board; its lemmas are about the masks as computed.
