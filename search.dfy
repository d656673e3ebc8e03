/**
 * The best-first search of `Seminar1` (chess.py:95-150, 177-221): the expansion of one node,
 * which pushes each legal move, drops positions already reached at the same or a smaller
 * depth, returns a mate found at the required depth and queues every other quiet child with
 * its heuristic priority; the priority queue; and the driver `solve`.
 */
module Search {
  import opened Bits
  import opened Chess
  import opened Wrappers
  import opened Text
  import opened Bitboard
  import opened Engine
  import opened Promotion
  import opened Heuristic

  /** The record a queue entry carries (chess.py:142-147, 207-212). */
  datatype Node = Node(fen: string, g: int, path: string, masks: Masks)

  /**
   * A heap entry `[priority, counter, node]`. The priority is ten times the source's float
   * `g * g_weight + h`, which keeps its order.
   */
  datatype Entry = Entry(priority: int, counter: int, node: Node)

  /** The solver's fixed settings during a search. */
  datatype Context<!P> = Context(rules: Rules<P>, moveCount: int, player: bool,
                                kingPosition: Square, kingAttack: bv64, gWeight: int)

  /** The solver's changing state: the visited table, the queue in push order, the counter. */
  datatype State = State(visited: map<string, int>, queue: seq<Entry>, counter: int)

  /** The state after some moves, and the solution path if one of them mated. */
  datatype Step = Step(state: State, solution: Option<string>)

  /** The dedup key of the position after a move: the placement field of its record. */
  function Key<P>(c: Context<P>, position: P, m: Move): string
  {
    FirstField(c.rules.fen(c.rules.apply(position, m)))
  }

  /** `move_to_str(move) + ';'` appended to the path. */
  function ExtendPath(path: string, m: Move): string
  {
    path + MoveToStr(Uci(m)) + ";"
  }

  /** The scaled heuristic of a quiet child (chess.py:120-140). */
  function ChildH<P>(c: Context<P>, child: P, g: int, masks: Masks): int
  {
    ScaledH(WindowCovered(Attacks(c.rules, child, c.player), c.kingPosition),
            Potential(c.moveCount - g, masks.peasants, masks.enemyPieces, masks.otherPlayerPieces,
                      c.player, c.kingAttack),
            EnemyPieceCount(masks.enemyPieces))
  }

  /** `ChildH` from the terms `calculate_h` is given on the board. */
  lemma ChildHOf<P>(c: Context<P>, child: P, g: int, masks: Masks, rules: Rules<P>, white: bool,
                    kingPosition: Square, kingAttack: bv64, movesLeft: int, h: int)
    requires c.rules == rules && c.player == white && c.kingPosition == kingPosition && c.kingAttack == kingAttack
    requires movesLeft == c.moveCount - g
    requires h == ScaledH(WindowCovered(Attacks(rules, child, white), kingPosition),
                          Potential(movesLeft, masks.peasants, masks.enemyPieces, masks.otherPlayerPieces,
                                    white, kingAttack),
                          EnemyPieceCount(masks.enemyPieces))
    ensures ChildH(c, child, g, masks) == h
  {
  }

  /** The queue entry for a quiet child (chess.py:120-147). */
  function ChildEntry<P>(c: Context<P>, position: P, m: Move, g: int, path: string, start: Masks, counter: int): Entry
  {
    var masks := UpdateMasks(start, m);
    Entry(10 * (g * c.gWeight) + ChildH(c, c.rules.apply(position, m), g, masks), counter,
          Node(FixFen(Key(c, position, m), c.player), g, ExtendPath(path, m), masks))
  }

  /** The entry `add_new_moves` builds from its parts is `ChildEntry`. */
  lemma ChildEntryOf<P>(c: Context<P>, position: P, m: Move, g: int, path: string, start: Masks, counter: int,
                        priority: int, masks: Masks, top: P, shortFen: string, newPath: string)
    requires top == c.rules.apply(position, m) && masks == UpdateMasks(start, m)
    requires priority == 10 * (g * c.gWeight) + ChildH(c, top, g, masks)
    requires shortFen == Key(c, position, m) && newPath == ExtendPath(path, m)
    ensures Entry(priority, counter, Node(FixFen(shortFen, c.player), g, newPath, masks))
         == ChildEntry(c, position, m, g, path, start, counter)
  {
  }

  /** One iteration of the loop of `add_new_moves` (chess.py:96-148), on the state. */
  function TryMove<P>(c: Context<P>, st: State, position: P, m: Move, g: int, path: string, start: Masks): Step
  {
    var key := Key(c, position, m);
    if key in st.visited && st.visited[key] <= g then Step(st, None)
    else Resolve(c, st.(visited := st.visited[key := g]), position, m, g, path, start)
  }

  /**
   * The rest of an iteration once the child's key is recorded (chess.py:114-148): the
   * depth-exact terminal test, the check prune, and queueing the child.
   */
  function Resolve<P>(c: Context<P>, st: State, position: P, m: Move, g: int, path: string, start: Masks): Step
  {
    var child := c.rules.apply(position, m);
    if g == c.moveCount then
      if c.rules.isCheckmate(child) then Step(st, Some(path + MoveToStr(Uci(m)))) else Step(st, None)
    else if c.rules.isCheck(child) then Step(st, None)
    else Step(Enqueue(c, st, position, m, g, path, start), None)
  }

  /** The state with the child queued under the next counter (chess.py:141-147). */
  function Enqueue<P>(c: Context<P>, st: State, position: P, m: Move, g: int, path: string, start: Masks): State
  {
    st.(queue := st.queue + [ChildEntry(c, position, m, g, path, start, st.counter + 1)], counter := st.counter + 1)
  }

  /** Queueing an entry built as `ChildEntry` describes is `Enqueue`. */
  lemma EnqueueOf<P>(c: Context<P>, st: State, position: P, m: Move, g: int, path: string, start: Masks, e: Entry)
    requires e == ChildEntry(c, position, m, g, path, start, st.counter + 1)
    ensures Enqueue(c, st, position, m, g, path, start) == State(st.visited, st.queue + [e], st.counter + 1)
  {
  }

  /** The whole loop of `add_new_moves`: the moves in order, stopping at the first mate. */
  function Expand<P>(c: Context<P>, st: State, position: P, moves: seq<Move>, g: int, path: string, start: Masks): Step
    decreases |moves|
  {
    if moves == [] then Step(st, None)
    else
      var s := TryMove(c, st, position, moves[0], g, path, start);
      if s.solution.Some? then s else Expand(c, s.state, position, moves[1..], g, path, start)
  }

  /** `a` comes out of the heap before `b`: lists compare by priority, then by counter. */
  predicate Before(a: Entry, b: Entry)
  {
    a.priority < b.priority || (a.priority == b.priority && a.counter < b.counter)
  }

  /** The position of the entry `heappop` returns: one that no other entry comes before. */
  function MinIndex(q: seq<Entry>): (i: nat)
    requires |q| > 0
    ensures i < |q|
    ensures forall j :: 0 <= j < |q| ==> !Before(q[j], q[i])
  {
    if |q| == 1 then 0
    else
      var k := MinIndex(q[1..]);
      if Before(q[k + 1], q[0]) then k + 1 else 0
  }

  /** The outcome of `solve`. */
  datatype Outcome =
    | Solved(path: string)
    | Exhausted        // the queue ran empty: `solve` returns None
    | BadMoveCount     // the text is empty or does not end in a digit (IndexError, ValueError)
    | BadFen           // the library rejects a record (ValueError from set_fen)
    | NoKing           // the defending side has no king (TypeError on `1 << None`)
    | OutOfFuel        // the bound on iterations ran out

  /** The iteration for move i of a loop that has not stopped yet. */
  lemma ExpandAt<P>(c: Context<P>, st: State, position: P, moves: seq<Move>, i: int, g: int, path: string, start: Masks)
    requires 0 <= i < |moves|
    ensures var s := TryMove(c, st, position, moves[i], g, path, start);
      Expand(c, st, position, moves[i..], g, path, start)
        == if s.solution.Some? then s else Expand(c, s.state, position, moves[i + 1..], g, path, start)
  {
    assert moves[i..][0] == moves[i] && moves[i..][1..] == moves[i + 1..];
  }

  /**
   * The dedup test of chess.py:105-109: a move is dropped, with no change at all, exactly when
   * its position is recorded at depth g or less; otherwise the position is recorded at g
   * before any of the later tests can prune it.
   */
  lemma TryMoveDedup<P>(c: Context<P>, st: State, position: P, m: Move, g: int, path: string, start: Masks)
    ensures var key := Key(c, position, m);
      var r := TryMove(c, st, position, m, g, path, start);
      (key in st.visited && st.visited[key] <= g) <==> (r.state == st && r.solution.None?)
    ensures var key := Key(c, position, m);
      !(key in st.visited && st.visited[key] <= g) ==> TryMove(c, st, position, m, g, path, start).state.visited == st.visited[key := g]
  {
    var key := Key(c, position, m);
    if !(key in st.visited && st.visited[key] <= g) {
      assert key in st.visited[key := g] && st.visited[key := g][key] == g;
    }
  }

  /** A move never raises the depth recorded for a position, and never forgets one. */
  lemma TryMoveVisited<P>(c: Context<P>, st: State, position: P, m: Move, g: int, path: string, start: Masks)
    ensures var r := TryMove(c, st, position, m, g, path, start).state;
      forall k :: k in st.visited ==> k in r.visited && r.visited[k] <= st.visited[k]
  {
  }

  /**
   * A mate is returned exactly for a new position at the required depth in which the side to
   * move is mated; the text is the path and the move, without the trailing ';', so it has as
   * many separators as the path.
   */
  lemma TryMoveSolution<P>(c: Context<P>, st: State, position: P, m: Move, g: int, path: string, start: Masks)
    ensures var key := Key(c, position, m);
      var r := TryMove(c, st, position, m, g, path, start);
      r.solution.Some? <==>
        !(key in st.visited && st.visited[key] <= g) && g == c.moveCount && c.rules.isCheckmate(c.rules.apply(position, m))
    ensures var r := TryMove(c, st, position, m, g, path, start);
      r.solution.Some? ==>
        && r.solution.value == path + MoveToStr(Uci(m))
        && CountChar(r.solution.value, ';') == CountChar(path, ';')
        && r.solution.value[|r.solution.value| - 1] != ';'
  {
    var text := path + MoveToStr(Uci(m));
    MoveToStrOfMove(m);
    CountCharAppend(path, MoveToStr(Uci(m)), ';');
    MoveToStrInverse(Uci(m));
    assert text[|text| - 1] in MoveToStr(Uci(m));
  }

  /**
   * A child is queued exactly when it is new, short of the required depth and not in check;
   * it then takes the next counter, the depth g and one more separator in its path, and the
   * queue and the counter change in no other way.
   */
  lemma TryMoveQueue<P>(c: Context<P>, st: State, position: P, m: Move, g: int, path: string, start: Masks)
    ensures var key := Key(c, position, m);
      var r := TryMove(c, st, position, m, g, path, start).state;
      var queued := !(key in st.visited && st.visited[key] <= g) && g != c.moveCount
                    && !c.rules.isCheck(c.rules.apply(position, m));
      && (queued ==> r.queue == st.queue + [ChildEntry(c, position, m, g, path, start, st.counter + 1)]
                     && r.counter == st.counter + 1)
      && (!queued ==> r.queue == st.queue && r.counter == st.counter)
    ensures var e := ChildEntry(c, position, m, g, path, start, st.counter + 1);
      e.counter == st.counter + 1 && e.node.g == g
      && CountChar(e.node.path, ';') == CountChar(path, ';') + 1
  {
    ChildPathSeparators(path, m);
  }

  /** Extending a path adds exactly one separator: the one written after the move. */
  lemma ChildPathSeparators(path: string, m: Move)
    ensures CountChar(ExtendPath(path, m), ';') == CountChar(path, ';') + 1
  {
    MoveToStrOfMove(m);
    CountCharAppend(path, MoveToStr(Uci(m)), ';');
    CountCharAppend(path + MoveToStr(Uci(m)), ";", ';');
    assert CountChar(";", ';') == 1;
  }

  /** What a whole expansion adds to the queue: consecutive counters, depth g, one more ';'. */
  ghost predicate Appended<P>(c: Context<P>, st: State, r: State, g: int, path: string)
  {
    && |st.queue| <= |r.queue| && r.queue[..|st.queue|] == st.queue
    && r.counter == st.counter + (|r.queue| - |st.queue|)
    && (|r.queue| > |st.queue| ==> g != c.moveCount)
    && forall k :: |st.queue| <= k < |r.queue| ==>
         && r.queue[k].counter == st.counter + 1 + (k - |st.queue|)
         && r.queue[k].node.g == g
         && CountChar(r.queue[k].node.path, ';') == CountChar(path, ';') + 1
  }

  /** A single move appends at most its own child, as `Appended` describes. */
  lemma TryMoveAppended<P>(c: Context<P>, st: State, position: P, m: Move, g: int, path: string, start: Masks)
    ensures Appended(c, st, TryMove(c, st, position, m, g, path, start).state, g, path)
  {
    TryMoveQueue(c, st, position, m, g, path, start);
  }

  /** Two expansions at the same depth from the same path compose. */
  lemma AppendedTrans<P>(c: Context<P>, st: State, mid: State, r: State, g: int, path: string)
    requires Appended(c, st, mid, g, path) && Appended(c, mid, r, g, path)
    ensures Appended(c, st, r, g, path)
  {
    assert r.queue[..|st.queue|] == r.queue[..|mid.queue|][..|st.queue|];
    forall k | |st.queue| <= k < |r.queue|
      ensures r.queue[k].counter == st.counter + 1 + (k - |st.queue|)
      ensures r.queue[k].node.g == g
      ensures CountChar(r.queue[k].node.path, ';') == CountChar(path, ';') + 1
    {
      if k < |mid.queue| {
        assert r.queue[k] == mid.queue[k];
      }
    }
  }

  /** `add_new_moves` only appends to the queue, as `Appended` describes. */
  lemma {:induction false} ExpandQueue<P>(c: Context<P>, st: State, position: P, moves: seq<Move>, g: int,
                                           path: string, start: Masks)
    ensures Appended(c, st, Expand(c, st, position, moves, g, path, start).state, g, path)
    decreases |moves|
  {
    if moves != [] {
      var s := TryMove(c, st, position, moves[0], g, path, start);
      TryMoveAppended(c, st, position, moves[0], g, path, start);
      if s.solution.None? {
        ExpandQueue(c, s.state, position, moves[1..], g, path, start);
        AppendedTrans(c, st, s.state, Expand(c, s.state, position, moves[1..], g, path, start).state, g, path);
      }
    } else {
      assert st.queue[..|st.queue|] == st.queue;
    }
  }

  /** Over a whole expansion no recorded depth goes up and no position is forgotten. */
  lemma {:induction false} ExpandVisited<P>(c: Context<P>, st: State, position: P, moves: seq<Move>, g: int,
                                             path: string, start: Masks)
    ensures var r := Expand(c, st, position, moves, g, path, start).state;
      forall k :: k in st.visited ==> k in r.visited && r.visited[k] <= st.visited[k]
    decreases |moves|
  {
    if moves != [] {
      var s := TryMove(c, st, position, moves[0], g, path, start);
      TryMoveVisited(c, st, position, moves[0], g, path, start);
      if s.solution.None? {
        ExpandVisited(c, s.state, position, moves[1..], g, path, start);
      }
    }
  }

  /**
   * A solution comes only from an expansion at the required depth, and it is the path
   * followed by one of the moves, whose position is a checkmate.
   */
  lemma {:induction false} ExpandSolution<P>(c: Context<P>, st: State, position: P, moves: seq<Move>, g: int,
                                              path: string, start: Masks)
    ensures var e := Expand(c, st, position, moves, g, path, start);
      e.solution.Some? ==>
        && g == c.moveCount
        && CountChar(e.solution.value, ';') == CountChar(path, ';')
        && exists i :: 0 <= i < |moves| && e.solution.value == path + MoveToStr(Uci(moves[i]))
                     && c.rules.isCheckmate(c.rules.apply(position, moves[i]))
    decreases |moves|
  {
    if moves != [] {
      var s := TryMove(c, st, position, moves[0], g, path, start);
      TryMoveSolution(c, st, position, moves[0], g, path, start);
      if s.solution.None? {
        ExpandSolution(c, s.state, position, moves[1..], g, path, start);
        var e := Expand(c, s.state, position, moves[1..], g, path, start);
        if e.solution.Some? {
          var i :| 0 <= i < |moves[1..]| && e.solution.value == path + MoveToStr(Uci(moves[1..][i]))
                   && c.rules.isCheckmate(c.rules.apply(position, moves[1..][i]));
          assert moves[1..][i] == moves[i + 1];
        }
      }
    }
  }

  /**
   * The converse of `ExpandSolution`: at the required depth, the first mating move whose
   * position is new, and whose placement no earlier move shares, is the solution returned.
   */
  lemma {:induction false} ExpandFindsFirstMate<P>(c: Context<P>, st: State, position: P, moves: seq<Move>, i: int,
                                                   g: int, path: string, start: Masks)
    requires 0 <= i < |moves| && g == c.moveCount
    requires !(Key(c, position, moves[i]) in st.visited && st.visited[Key(c, position, moves[i])] <= g)
    requires forall j :: 0 <= j < i ==> Key(c, position, moves[j]) != Key(c, position, moves[i])
    requires forall j :: 0 <= j < i ==> !c.rules.isCheckmate(c.rules.apply(position, moves[j]))
    requires c.rules.isCheckmate(c.rules.apply(position, moves[i]))
    ensures Expand(c, st, position, moves, g, path, start).solution == Some(path + MoveToStr(Uci(moves[i])))
    decreases i
  {
    TryMoveSolution(c, st, position, moves[0], g, path, start);
    if i > 0 {
      var s := TryMove(c, st, position, moves[0], g, path, start);
      TryMoveDedup(c, st, position, moves[0], g, path, start);
      assert moves[1..][i - 1] == moves[i];
      forall j | 0 <= j < i - 1
        ensures Key(c, position, moves[1..][j]) != Key(c, position, moves[i])
        ensures !c.rules.isCheckmate(c.rules.apply(position, moves[1..][j]))
      {
        assert moves[1..][j] == moves[j + 1];
      }
      ExpandFindsFirstMate(c, s.state, position, moves[1..], i - 1, g, path, start);
    }
  }

  /** Every queued path has one ';' per move, and the counters increase along the queue. */
  ghost predicate WellFormed(q: seq<Entry>, counter: int)
  {
    && (forall k :: 0 <= k < |q| ==> CountChar(q[k].node.path, ';') == q[k].node.g && q[k].counter <= counter)
    && (forall a, b :: 0 <= a < b < |q| ==> q[a].counter < q[b].counter)
  }

  /** The queue `solve` starts from, the root alone, is well formed. */
  lemma RootWellFormed(fen: string, masks: Masks)
    ensures WellFormed([Entry(0, 0, Node(fen, 0, "", masks))], 0)
  {
    assert CountChar("", ';') == 0;
  }

  /** Taking any entry out of a well-formed queue leaves it well formed. */
  lemma RemoveKeepsWellFormed(q: seq<Entry>, counter: int, i: int)
    requires WellFormed(q, counter) && 0 <= i < |q|
    ensures WellFormed(q[..i] + q[i + 1..], counter)
  {
    var r := q[..i] + q[i + 1..];
    assert forall k :: 0 <= k < |r| ==> r[k] == if k < i then q[k] else q[k + 1];
  }

  /**
   * An expansion of a node whose path has g - 1 separators keeps the queue well formed: the
   * new entries carry paths of g separators and counters above every earlier one.
   */
  lemma AppendKeepsWellFormed<P>(c: Context<P>, st: State, r: State, g: int, path: string)
    requires WellFormed(st.queue, st.counter) && Appended(c, st, r, g, path)
    requires CountChar(path, ';') + 1 == g
    ensures WellFormed(r.queue, r.counter)
  {
    forall a, b | 0 <= a < b < |r.queue|
      ensures r.queue[a].counter < r.queue[b].counter
    {
      if b < |st.queue| {
        assert r.queue[a] == st.queue[a] && r.queue[b] == st.queue[b];
      } else if a < |st.queue| {
        assert r.queue[a] == st.queue[a];
      }
    }
    forall k | 0 <= k < |r.queue|
      ensures CountChar(r.queue[k].node.path, ';') == r.queue[k].node.g && r.queue[k].counter <= r.counter
    {
      if k < |st.queue| {
        assert r.queue[k] == st.queue[k];
      }
    }
  }

  /** Every queued node is short of the required depth `n`. */
  ghost predicate Shallow(q: seq<Entry>, n: int)
  {
    forall k :: 0 <= k < |q| ==> q[k].node.g < n
  }

  /** Taking any entry out of a queue of shallow nodes leaves it shallow. */
  lemma RemoveKeepsShallow(q: seq<Entry>, n: int, i: int)
    requires Shallow(q, n) && 0 <= i < |q|
    ensures Shallow(q[..i] + q[i + 1..], n)
  {
    var r := q[..i] + q[i + 1..];
    assert forall k :: 0 <= k < |r| ==> r[k] == if k < i then q[k] else q[k + 1];
  }

  /**
   * Children are queued only short of the required depth (chess.py:110-117): expanding at a
   * depth g up to the required one keeps every queued node below it, since at that depth
   * each child is tested for mate and never queued.
   */
  lemma ExpandShallow<P>(c: Context<P>, st: State, position: P, moves: seq<Move>, g: int, path: string, start: Masks)
    requires Shallow(st.queue, c.moveCount) && g <= c.moveCount
    ensures Shallow(Expand(c, st, position, moves, g, path, start).state.queue, c.moveCount)
  {
    var r := Expand(c, st, position, moves, g, path, start).state;
    ExpandQueue(c, st, position, moves, g, path, start);
    forall k | 0 <= k < |r.queue|
      ensures r.queue[k].node.g < c.moveCount
    {
      if k < |st.queue| {
        assert r.queue[k] == st.queue[k];
      }
    }
  }

  /**
   * An expansion of a node of a well-formed queue keeps the queue well formed, and a mate it
   * returns has one ';' fewer than the number of moves asked for and ends with a mating move.
   */
  lemma ExpandFacts<P>(c: Context<P>, st: State, position: P, moves: seq<Move>, g: int, path: string,
                       start: Masks)
    requires WellFormed(st.queue, st.counter) && CountChar(path, ';') + 1 == g
    requires moves == c.rules.legalMoves(position)
    ensures var e := Expand(c, st, position, moves, g, path, start);
      && WellFormed(e.state.queue, e.state.counter)
      && (e.solution.Some? ==>
            CountChar(e.solution.value, ';') + 1 == c.moveCount && MatesFrom(c.rules, position, e.solution.value))
  {
    var e := Expand(c, st, position, moves, g, path, start);
    ExpandQueue(c, st, position, moves, g, path, start);
    AppendKeepsWellFormed(c, st, e.state, g, path);
    ExpandSolution(c, st, position, moves, g, path, start);
    if e.solution.Some? {
      var k :| 0 <= k < |moves| && e.solution.value == path + MoveToStr(Uci(moves[k]))
               && c.rules.isCheckmate(c.rules.apply(position, moves[k]));
      assert EndsWith(e.solution.value, MoveToStr(Uci(moves[k])));
    }
  }

  /** `text` ends with `suffix`. */
  predicate EndsWith(text: string, suffix: string)
  {
    |suffix| <= |text| && text[|text| - |suffix|..] == suffix
  }

  /** `text` ends with the rendering of a legal move from `position` that mates. */
  ghost predicate MatesFrom<P>(rules: Rules<P>, position: P, text: string)
  {
    exists m: Move :: m in rules.legalMoves(position) && rules.isCheckmate(rules.apply(position, m))
                      && EndsWith(text, MoveToStr(Uci(m)))
  }

  /**
   * One iteration of the loop of `solve` from state `st` on `node` ends in state `r` with
   * `outcome`: a rejected record gives `BadFen` and no change; otherwise the state is the
   * expansion of the node's position, and a mate found there is the outcome.
   */
  ghost predicate Visited<P>(c: Context<P>, st: State, node: Node, r: State, outcome: Option<Outcome>)
  {
    var parsed := c.rules.parse(node.fen);
    if parsed.None? then outcome == Some(BadFen) && r == st
    else
      var e := Expand(c, st, parsed.value, c.rules.legalMoves(parsed.value), node.g + 1, node.path, node.masks);
      r == e.state && outcome == if e.solution.Some? && e.solution.value != [] then Some(Solved(e.solution.value)) else None
  }

  /** A position from which the text ends with a mating move is a witness for `exists`. */
  lemma MatesFromWitness<P>(rules: Rules<P>, position: P, text: string)
    requires MatesFrom(rules, position, text)
    ensures exists p: P :: MatesFrom(rules, p, text)
  {
  }

  /** The state once `heappop` has taken out the entry that comes first. */
  function Popped(st: State): (r: State)
    requires |st.queue| > 0
    ensures r.visited == st.visited && r.counter == st.counter && |r.queue| == |st.queue| - 1
    ensures multiset(r.queue) + multiset{st.queue[MinIndex(st.queue)]} == multiset(st.queue)
  {
    var i := MinIndex(st.queue);
    assert st.queue == st.queue[..i] + [st.queue[i]] + st.queue[i + 1..];
    st.(queue := st.queue[..i] + st.queue[i + 1..])
  }

  /**
   * The loop of `solve` (chess.py:213-221) run from state `st` for at most `fuel` iterations:
   * an empty queue ends it with no solution, and otherwise `Iteration` takes the first entry.
   */
  ghost function Run<P>(c: Context<P>, st: State, fuel: nat): (r: (State, Outcome))
    ensures r.1 != BadMoveCount && r.1 != NoKing
    ensures r.1 == Exhausted ==> r.0.queue == []
    ensures r.1 == OutOfFuel ==> |r.0.queue| > 0
    decreases fuel, 1, 0
  {
    if |st.queue| == 0 then (st, Exhausted)
    else if fuel == 0 then (st, OutOfFuel)
    else Iteration(c, st, fuel)
  }

  /**
   * One iteration of that loop and the rest of the run: the first entry is popped, and a
   * record the library rejects ends the run; otherwise `Advance` expands the node.
   */
  ghost function Iteration<P>(c: Context<P>, st: State, fuel: nat): (r: (State, Outcome))
    requires |st.queue| > 0 && fuel > 0
    ensures r.1 != BadMoveCount && r.1 != NoKing
    ensures r.1 == Exhausted ==> r.0.queue == []
    ensures r.1 == OutOfFuel ==> |r.0.queue| > 0
    decreases fuel, 0, 1
  {
    var node := st.queue[MinIndex(st.queue)].node;
    var parsed := c.rules.parse(node.fen);
    if parsed.None? then (Popped(st), BadFen)
    else Advance(c, Popped(st), node, parsed.value, fuel)
  }

  /**
   * The expansion of a popped node on the legal moves of its position, and the rest of the
   * run: a mate found there ends the run, and otherwise the loop goes on from the new state.
   */
  ghost function Advance<P>(c: Context<P>, st: State, node: Node, position: P, fuel: nat): (r: (State, Outcome))
    requires fuel > 0
    ensures r.1 != BadMoveCount && r.1 != NoKing
    ensures r.1 == Exhausted ==> r.0.queue == []
    ensures r.1 == OutOfFuel ==> |r.0.queue| > 0
    decreases fuel, 0, 0
  {
    var e := Expand(c, st, position, c.rules.legalMoves(position), node.g + 1, node.path, node.masks);
    if e.solution.Some? && e.solution.value != [] then (e.state, Solved(e.solution.value))
    else Run(c, e.state, fuel - 1)
  }

  /** The run stops with no solution on an empty queue, and out of fuel on any other. */
  lemma RunEnds<P>(c: Context<P>, st: State, fuel: nat)
    requires |st.queue| == 0 || fuel == 0
    ensures Run(c, st, fuel) == (st, if |st.queue| == 0 then Exhausted else OutOfFuel)
  {
  }

  /** One iteration as `Visited` describes it is the first step of `Run`. */
  lemma RunStep<P>(c: Context<P>, st: State, fuel: nat, r: State, outcome: Option<Outcome>)
    requires |st.queue| > 0 && fuel > 0
    requires Visited(c, Popped(st), st.queue[MinIndex(st.queue)].node, r, outcome)
    ensures Run(c, st, fuel) == if outcome.Some? then (r, outcome.value) else Run(c, r, fuel - 1)
  {
    var node := st.queue[MinIndex(st.queue)].node;
    assert Run(c, st, fuel) == Iteration(c, st, fuel);
    if c.rules.parse(node.fen).Some? {
      assert Iteration(c, st, fuel) == Advance(c, Popped(st), node, c.rules.parse(node.fen).value, fuel);
    }
  }

  /** `board.king(not board.turn)`: the square of the defending king, if there is one. */
  function KingOf<P>(rules: Rules<P>, position: P): Option<Square>
  {
    rules.king(position, !rules.turn(position))
  }

  class Solver {
    var visited: map<string, int>
    /** `priority_nodes`, kept in push order; `PopMin` finds the entry the heap would pop. */
    var queue: seq<Entry>
    var operationCounter: int
    var moveCount: int
    var player: bool
    var kingPosition: Square
    var kingAttack: bv64
    var gWeight: int

    function Settings<P>(rules: Rules<P>): Context<P>
      reads this`moveCount, this`player, this`kingPosition, this`kingAttack, this`gWeight
    {
      Context(rules, moveCount, player, kingPosition, kingAttack, gWeight)
    }

    function Snapshot(): State
      reads this`visited, this`queue, this`operationCounter
    {
      State(visited, queue, operationCounter)
    }

    constructor ()
      ensures visited == map[] && queue == [] && operationCounter == 0 && gWeight == 0
    {
      visited := map[];
      queue := [];
      operationCounter := 0;
      moveCount := 0;
      player := false;
      kingPosition := 0;
      kingAttack := 0;
      gWeight := 0;
    }

    /**
     * `add_new_moves` (chess.py:95-150): the state ends as `Expand` says, and the board is
     * back where it started unless a mate was found, in which case the mating move is still
     * pushed.
     */
    method AddNewMoves<P>(board: Board<P>, moves: seq<Move>, g: int, path: string, start: Masks)
      returns (solution: Option<string>)
      requires board.Valid()
      modifies this`visited, this`queue, this`operationCounter, board
      ensures var e := Expand(Settings(board.rules), old(Snapshot()), old(board.Top()), moves, g, path, start);
        Snapshot() == e.state && solution == e.solution
      ensures solution.None? ==> board.stack == old(board.stack)
      ensures solution.Some? ==>
        exists m :: m in moves && board.stack == old(board.stack) + [board.rules.apply(old(board.Top()), m)]
    {
      ghost var c := Settings(board.rules);
      ghost var position := board.Top();
      ghost var stack := board.stack;
      ghost var st0 := Snapshot();
      for i := 0 to |moves|
        invariant Settings(board.rules) == c && board.stack == stack
        invariant Expand(c, Snapshot(), position, moves[i..], g, path, start)
               == Expand(c, st0, position, moves, g, path, start)
      {
        ghost var st := Snapshot();
        ExpandAt(c, st, position, moves, i, g, path, start);
        solution := HandleMove(board, moves[i], g, path, start);
        if solution.Some? {
          return;
        }
      }
      solution := None;
    }

    /**
     * One iteration of the loop of `add_new_moves` (chess.py:96-148): the state changes as
     * `TryMove` says; the move is taken back on every exit except the one that returns a mate.
     */
    method HandleMove<P>(board: Board<P>, move: Move, g: int, path: string, start: Masks)
      returns (solution: Option<string>)
      requires board.Valid()
      modifies this`visited, this`queue, this`operationCounter, board
      ensures var s := TryMove(Settings(board.rules), old(Snapshot()), old(board.Top()), move, g, path, start);
        Snapshot() == s.state && solution == s.solution
      ensures solution.None? ==> board.stack == old(board.stack)
      ensures solution.Some? ==> board.stack == old(board.stack) + [board.rules.apply(old(board.Top()), move)]
    {
      ghost var c := Settings(board.rules);
      ghost var position := board.Top();
      board.Push(move);
      var fen := board.rules.fen(board.Top());
      var shortFen := FirstField(fen);
      var newPath := path + MoveToStr(Uci(move)) + ";";
      ghost var child := c.rules.apply(position, move);
      assert board.Top() == child && shortFen == Key(c, position, move);
      if shortFen in visited && visited[shortFen] <= g {
        board.Pop();
        return None;
      }
      visited := visited[shortFen := g];
      solution := FinishMove(board, c, position, move, g, path, start, shortFen, newPath);
    }

    /**
     * The rest of an iteration once the new position is recorded (chess.py:114-148): the
     * state changes as `Resolve` says.
     */
    method FinishMove<P>(board: Board<P>, ghost c: Context<P>, ghost position: P, move: Move, g: int, path: string,
                         start: Masks, shortFen: string, newPath: string)
      returns (solution: Option<string>)
      requires c == Settings(board.rules)
      requires |board.stack| >= 2 && board.Top() == c.rules.apply(position, move)
      requires board.stack[|board.stack| - 2] == position
      requires shortFen == Key(c, position, move) && newPath == ExtendPath(path, move)
      modifies this`visited, this`queue, this`operationCounter, board
      ensures var s := Resolve(c, old(Snapshot()), position, move, g, path, start);
        Snapshot() == s.state && solution == s.solution
      ensures solution.None? ==> board.stack == old(board.stack[..|board.stack| - 1])
      ensures solution.Some? ==> board.stack == old(board.stack)
    {
      if g == moveCount {
        solution := TerminalMove(board, move, path, newPath);
      } else {
        QuietMove(board, c, position, move, g, path, start, shortFen, newPath);
        board.Pop();
        solution := None;
      }
    }

    /**
     * The depth-exact terminal test (chess.py:114-119): at the last move the path is a
     * solution when the move mates, and the move is taken back otherwise.
     */
    method TerminalMove<P>(board: Board<P>, move: Move, path: string, newPath: string)
      returns (solution: Option<string>)
      requires |board.stack| >= 2 && newPath == ExtendPath(path, move)
      modifies board
      ensures solution == if board.rules.isCheckmate(old(board.Top())) then Some(path + MoveToStr(Uci(move))) else None
      ensures solution.None? ==> board.stack == old(board.stack[..|board.stack| - 1])
      ensures solution.Some? ==> board.stack == old(board.stack)
    {
      if board.rules.isCheckmate(board.Top()) {
        assert newPath[..|newPath| - 1] == path + MoveToStr(Uci(move));
        return Some(newPath[..|newPath| - 1]);
      }
      board.Pop();
      return None;
    }

    /**
     * A move short of the last (chess.py:120-147): a move that leaves the defender in check is
     * dropped, any other child is queued.
     */
    method QuietMove<P>(board: Board<P>, ghost c: Context<P>, ghost position: P, move: Move, g: int, path: string,
                        start: Masks, shortFen: string, newPath: string)
      requires board.Valid() && c == Settings(board.rules) && board.Top() == c.rules.apply(position, move)
      requires shortFen == Key(c, position, move) && newPath == ExtendPath(path, move)
      modifies this`queue, this`operationCounter
      ensures Snapshot() == if c.rules.isCheck(board.Top()) then old(Snapshot())
                            else Enqueue(c, old(Snapshot()), position, move, g, path, start)
    {
      if !board.rules.isCheck(board.Top()) {
        QueueChild(board, c, position, move, g, path, start, shortFen, newPath);
      }
    }

    /**
     * The tail of an iteration that queues the child on the board (chess.py:120-147): the
     * entry `ChildEntry` describes, under the next counter.
     */
    method QueueChild<P>(board: Board<P>, ghost c: Context<P>, ghost position: P, move: Move, g: int, path: string,
                         start: Masks, shortFen: string, newPath: string)
      requires board.Valid() && c == Settings(board.rules) && board.Top() == c.rules.apply(position, move)
      requires shortFen == Key(c, position, move) && newPath == ExtendPath(path, move)
      modifies this`queue, this`operationCounter
      ensures Snapshot() == Enqueue(c, old(Snapshot()), position, move, g, path, start)
    {
      ghost var st := Snapshot();
      var counter := operationCounter + 1;
      var entry := NewEntry(board, c, position, move, g, path, start, shortFen, newPath, counter, st);
      operationCounter := counter;
      queue := queue + [entry];
    }

    /** The entry chess.py:141-147 pushes for the child on the board. */
    method NewEntry<P>(board: Board<P>, ghost c: Context<P>, ghost position: P, move: Move, g: int, path: string,
                       start: Masks, shortFen: string, newPath: string, counter: int, ghost st: State)
      returns (entry: Entry)
      requires board.Valid() && c == Settings(board.rules) && board.Top() == c.rules.apply(position, move)
      requires shortFen == Key(c, position, move) && newPath == ExtendPath(path, move)
      requires counter == st.counter + 1
      ensures Enqueue(c, st, position, move, g, path, start) == State(st.visited, st.queue + [entry], counter)
    {
      var priority, masks := ChildPriority(board, move, g, start);
      entry := Entry(priority, counter, Node(FixFen(shortFen, player), g, newPath, masks));
      ChildEntryOf(c, position, move, g, path, start, counter, priority, masks, board.Top(), shortFen, newPath);
      EnqueueOf(c, st, position, move, g, path, start, entry);
    }

    /**
     * The masks and priority of the child on the board (chess.py:120-140): the masks after the
     * move, then `g * g_weight + calculate_h(...)`, scaled by ten.
     */
    method ChildPriority<P>(board: Board<P>, move: Move, g: int, start: Masks) returns (priority: int, masks: Masks)
      requires board.Valid()
      ensures masks == UpdateMasks(start, move)
      ensures priority == 10 * (g * gWeight) + ChildH(Settings(board.rules), board.Top(), g, masks)
    {
      ghost var c := Settings(board.rules);
      masks := UpdateMasks(start, move);
      var movesLeft := moveCount - g;
      var h := CalculateH(board, player, kingPosition, kingAttack, movesLeft,
                          masks.peasants, masks.enemyPieces, masks.otherPlayerPieces);
      priority := 10 * (g * gWeight) + h;
      ChildHOf(c, board.Top(), g, masks, board.rules, player, kingPosition, kingAttack, movesLeft, h);
    }

    /**
     * `solve` (chess.py:172-221), started from the library's initial board `initial` and
     * bounded by `fuel` iterations of the search loop. The set-up fails exactly on a bad
     * move-count character, a record the library rejects, or a missing defending king; it
     * leaves the side to move, the defending king and its king-attack mask in the fields. A
     * solution has exactly the number of moves the text asks for, and its last move is the
     * rendering of a legal mating move.
     */
    method Solve<P>(rules: Rules<P>, initial: P, fen: string, fuel: nat) returns (outcome: Outcome)
      modifies this
      ensures ParseMoveCount(fen).None? <==> outcome == BadMoveCount
      ensures ParseMoveCount(fen).Some? ==> moveCount == ParseMoveCount(fen).value
      ensures ParseMoveCount(fen).Some? && rules.parse(FixStartFen(fen)).None? ==> outcome == BadFen
      ensures outcome == NoKing <==>
        && ParseMoveCount(fen).Some? && rules.parse(FixStartFen(fen)).Some?
        && KingOf(rules, rules.parse(FixStartFen(fen)).value).None?
      ensures ParseMoveCount(fen).Some? && rules.parse(FixStartFen(fen)).Some?
              && KingOf(rules, rules.parse(FixStartFen(fen)).value).Some? ==>
        && player == rules.turn(rules.parse(FixStartFen(fen)).value)
        && KingOf(rules, rules.parse(FixStartFen(fen)).value) == Some(kingPosition)
        && kingAttack == KingAttack(kingPosition, player)
      ensures outcome.Solved? ==>
        && ParseMoveCount(fen) == Some(moveCount) && moveCount >= 1
        && CountChar(outcome.path, ';') + 1 == moveCount
        && exists p: P :: MatesFrom(rules, p, outcome.path)
    {
      visited := map[];
      queue := [];
      operationCounter := 0;
      kingPosition := 0;
      player := false;
      gWeight := 0;
      kingAttack := 0;
      var count := ParseMoveCount(fen);
      if count.None? {
        return BadMoveCount;
      }
      moveCount := count.value;
      var board, failure := Start(rules, initial, fen);
      if failure.Some? {
        return failure.value;
      }
      outcome := Search(board, fuel);
    }

    /**
     * The set-up of `solve` (chess.py:175-210) once the move count is read: the board from the
     * completed record, the side to move, the defending king, the root masks, the squares
     * from which a pawn attacks that king, and the root node queued.
     */
    method Start<P>(rules: Rules<P>, initial: P, fen: string) returns (board: Board<P>, failure: Option<Outcome>)
      requires queue == [] && operationCounter == 0
      modifies this`player, this`kingPosition, this`kingAttack, this`queue
      ensures fresh(board)
      ensures failure.Some? ==> failure.value == BadFen || failure.value == NoKing
      ensures failure == Some(BadFen) <==> rules.parse(FixStartFen(fen)).None?
      ensures failure == Some(NoKing) <==>
        rules.parse(FixStartFen(fen)).Some? && KingOf(rules, rules.parse(FixStartFen(fen)).value).None?
      ensures failure.None? ==>
        && board.Valid() && board.rules == rules && board.stack == [rules.parse(FixStartFen(fen)).value]
        && player == rules.turn(board.Top())
        && KingOf(rules, board.Top()) == Some(kingPosition)
        && kingAttack == KingAttack(kingPosition, player)
        && |queue| == 1 && queue[0].priority == 0 && queue[0].counter == 0
        && queue[0].node.fen == FixStartFen(fen) && queue[0].node.g == 0 && queue[0].node.path == ""
        && Classifies(queue[0].node.masks, rules.pieceMap(board.Top()), player)
        && WellFormed(queue, operationCounter)
    {
      var startFen := FixStartFen(fen);
      board := new Board(rules, initial);
      var ok := board.SetFen(startFen);
      if !ok {
        return board, Some(BadFen);
      }
      player := rules.turn(board.Top());
      var king := rules.king(board.Top(), !player);
      var masks := RootMasks(rules.pieceMap(board.Top()), player);
      if king.None? {
        return board, Some(NoKing);
      }
      kingPosition := king.value;
      kingAttack := KingAttack(kingPosition, player);
      queue := [Entry(0, 0, Node(startFen, 0, "", masks))];
      RootWellFormed(startFen, masks);
      failure := None;
    }

    /**
     * The loop of `solve` (chess.py:211-221), bounded by `fuel` iterations: the state and the
     * outcome are those of `Run`, and the queue stays well formed and short of the required
     * depth.
     */
    method Search<P>(board: Board<P>, fuel: nat) returns (outcome: Outcome)
      requires board.Valid() && WellFormed(queue, operationCounter)
      requires moveCount >= 1 ==> Shallow(queue, moveCount)
      modifies this`visited, this`queue, this`operationCounter, board
      ensures Run(Settings(board.rules), old(Snapshot()), fuel) == (Snapshot(), outcome)
      ensures outcome == Exhausted ==> queue == []
      ensures outcome == OutOfFuel ==> |queue| > 0
      ensures WellFormed(queue, operationCounter)
      ensures moveCount >= 1 ==> Shallow(queue, moveCount)
      ensures outcome != BadMoveCount && outcome != NoKing
      ensures outcome.Solved? ==>
        CountChar(outcome.path, ';') + 1 == moveCount && exists p: P :: MatesFrom(board.rules, p, outcome.path)
    {
      ghost var c := Settings(board.rules);
      ghost var st0 := Snapshot();
      var remaining := fuel;
      while |queue| > 0
        invariant board.Valid() && WellFormed(queue, operationCounter)
        invariant moveCount >= 1 ==> Shallow(queue, moveCount)
        invariant Settings(board.rules) == c
        invariant Run(c, Snapshot(), remaining) == Run(c, st0, fuel)
        decreases remaining
      {
        if remaining == 0 {
          RunEnds(c, Snapshot(), remaining);
          return OutOfFuel;
        }
        remaining := remaining - 1;
        ghost var record := queue[MinIndex(queue)].node.fen;
        var step := Iterate(board, c, Snapshot(), remaining + 1);
        if step.Some? {
          if step.value.Solved? {
            MatesFromWitness(board.rules, board.rules.parse(record).value, step.value.path);
          }
          return step.value;
        }
      }
      RunEnds(c, Snapshot(), remaining);
      return Exhausted;
    }

    /**
     * One iteration of the loop of `solve` (chess.py:213-221) as the first step of `Run`: the
     * iteration ends the run with its outcome, or the run goes on from the new state with one
     * iteration fewer.
     */
    method Iterate<P>(board: Board<P>, ghost c: Context<P>, ghost st: State, ghost fuel: nat)
      returns (outcome: Option<Outcome>)
      requires board.Valid() && |queue| > 0 && WellFormed(queue, operationCounter) && fuel > 0
      requires moveCount >= 1 ==> Shallow(queue, moveCount)
      requires c == Settings(board.rules) && st == Snapshot()
      modifies this`visited, this`queue, this`operationCounter, board
      ensures Run(c, st, fuel) == if outcome.Some? then (Snapshot(), outcome.value) else Run(c, Snapshot(), fuel - 1)
      ensures board.Valid()
      ensures WellFormed(queue, operationCounter)
      ensures moveCount >= 1 ==> Shallow(queue, moveCount)
      ensures outcome.None? || outcome == Some(BadFen)
        || (outcome.value.Solved? && CountChar(outcome.value.path, ';') + 1 == moveCount
            && board.rules.parse(old(queue)[MinIndex(old(queue))].node.fen).Some?
            && MatesFrom(board.rules, board.rules.parse(old(queue)[MinIndex(old(queue))].node.fen).value,
                         outcome.value.path))
    {
      outcome := Visit(board);
      RunStep(c, st, fuel, Snapshot(), outcome);
    }

    /**
     * One iteration of the loop of `solve` (chess.py:213-221): pop the best node, set its
     * position and expand it, as `VisitNode` says, from the queue without that node.
     */
    method Visit<P>(board: Board<P>) returns (outcome: Option<Outcome>)
      requires board.Valid() && |queue| > 0 && WellFormed(queue, operationCounter)
      requires moveCount >= 1 ==> Shallow(queue, moveCount)
      modifies this`visited, this`queue, this`operationCounter, board
      ensures var i := MinIndex(old(queue));
        var rest := State(old(visited), old(queue)[..i] + old(queue)[i + 1..], old(operationCounter));
        Visited(Settings(board.rules), rest, old(queue)[i].node, Snapshot(), outcome)
      ensures board.Valid()
      ensures WellFormed(queue, operationCounter)
      ensures moveCount >= 1 ==> Shallow(queue, moveCount)
      ensures outcome.None? || outcome == Some(BadFen)
        || (outcome.value.Solved? && CountChar(outcome.value.path, ';') + 1 == moveCount
            && MatesFrom(board.rules, board.rules.parse(old(queue)[MinIndex(old(queue))].node.fen).value,
                         outcome.value.path))
    {
      ghost var i := MinIndex(queue);
      RemoveKeepsWellFormed(queue, operationCounter, i);
      if moveCount >= 1 {
        RemoveKeepsShallow(queue, moveCount, i);
      }
      var entry := PopMin();
      outcome := VisitNode(board, entry.node);
    }

    /**
     * The body of the loop of `solve` once a node is popped (chess.py:215-221): a record the
     * library rejects ends the search; otherwise the node's position is expanded on its legal
     * moves, and a mate found there is the outcome.
     */
    method VisitNode<P>(board: Board<P>, node: Node) returns (outcome: Option<Outcome>)
      requires board.Valid() && WellFormed(queue, operationCounter) && CountChar(node.path, ';') == node.g
      requires moveCount >= 1 ==> Shallow(queue, moveCount) && node.g < moveCount
      modifies this`visited, this`queue, this`operationCounter, board
      ensures Visited(Settings(board.rules), old(Snapshot()), node, Snapshot(), outcome)
      ensures board.Valid()
      ensures WellFormed(queue, operationCounter)
      ensures moveCount >= 1 ==> Shallow(queue, moveCount)
      ensures outcome.None? || outcome == Some(BadFen)
        || (outcome.value.Solved? && CountChar(outcome.value.path, ';') + 1 == moveCount
            && MatesFrom(board.rules, board.rules.parse(node.fen).value, outcome.value.path))
    {
      var parsed := board.SetFen(node.fen);
      if !parsed {
        return Some(BadFen);
      }
      ghost var position := board.Top();
      var solution := ExpandNode(board, node);
      if solution.Some? && solution.value != [] {
        return Some(Solved(solution.value));
      }
      outcome := None;
    }

    /**
     * `add_new_moves` on the legal moves of the node's position (chess.py:215-218), with what
     * the search loop relies on: the queue stays well formed, and a mate has the length asked
     * for and ends with a mating move.
     */
    method ExpandNode<P>(board: Board<P>, node: Node) returns (solution: Option<string>)
      requires board.Valid() && WellFormed(queue, operationCounter) && CountChar(node.path, ';') == node.g
      requires moveCount >= 1 ==> Shallow(queue, moveCount) && node.g < moveCount
      modifies this`visited, this`queue, this`operationCounter, board
      ensures var e := Expand(Settings(board.rules), old(Snapshot()), old(board.Top()),
                              board.rules.legalMoves(old(board.Top())), node.g + 1, node.path, node.masks);
        Snapshot() == e.state && solution == e.solution
      ensures board.Valid()
      ensures WellFormed(queue, operationCounter)
      ensures moveCount >= 1 ==> Shallow(queue, moveCount)
      ensures solution.Some? ==>
        CountChar(solution.value, ';') + 1 == moveCount && MatesFrom(board.rules, old(board.Top()), solution.value)
    {
      var legalMoves := board.rules.legalMoves(board.Top());
      ghost var c := Settings(board.rules);
      ghost var st := Snapshot();
      ghost var position := board.Top();
      solution := AddNewMoves(board, legalMoves, node.g + 1, node.path, node.masks);
      ExpandFacts(c, st, position, legalMoves, node.g + 1, node.path, node.masks);
      if moveCount >= 1 {
        ExpandShallow(c, st, position, legalMoves, node.g + 1, node.path, node.masks);
      }
    }

    /** `heappop`: removes and returns the entry that comes first. */
    method PopMin() returns (e: Entry)
      requires |queue| > 0
      modifies this`queue
      ensures var i := MinIndex(old(queue));
        e == old(queue)[i] && queue == old(queue)[..i] + old(queue)[i + 1..]
    {
      var i := MinIndex(queue);
      e := queue[i];
      queue := queue[..i] + queue[i + 1..];
    }
  }
}
