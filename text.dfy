/**
 * The square-index and string helpers of the solver (chess.py:152-175): conversion between
 * a square index and a (file, rank) pair, the rebuilding of a position record's trailing
 * fields in Forsyth-Edwards Notation (section 16.1 of the PGN standard), the rendering of a
 * move, and the reading of the move count that ends the solver's input.
 */
module Text {
  import opened Bits
  import opened Chess
  import opened Wrappers

  /** `tuple_to_num`: the index of square (file, rank). */
  function TupleToNum(t: (int, int)): int
  {
    t.1 * 8 + t.0
  }

  /**
   * `num_to_tuple`: the (file, rank) pair of an index. Python's `%` and `//` floor; with the
   * positive divisor 8 they agree with Dafny's Euclidean `%` and `/` on every integer.
   */
  function NumToTuple(n: int): (t: (int, int))
    ensures 0 <= t.0 < 8
    ensures 0 <= n < 64 ==> 0 <= t.1 < 8
  {
    (n % 8, n / 8)
  }

  /** Every index is recovered from its (file, rank) pair. */
  lemma NumToTupleRoundTrip(n: int)
    ensures TupleToNum(NumToTuple(n)) == n
  {
  }

  /** Every pair with a file in 0..7 is recovered from its index, whatever the rank. */
  lemma TupleToNumRoundTrip(f: int, r: int)
    requires 0 <= f < 8
    ensures NumToTuple(TupleToNum((f, r))) == (f, r)
  {
    var n := r * 8 + f;
    assert n == 8 * r + f;
    assert n / 8 == r && n % 8 == f;
  }

  /** On a board square the pair is the square's file and rank. */
  lemma NumToTupleOfSquare(s: Square)
    ensures NumToTuple(s as int) == (File(s) as int, Rank(s) as int)
  {
  }

  /** `fen.split(' ')[0]`: the text before the first space (the whole text when it has none). */
  function FirstField(s: string): (r: string)
    ensures ' ' !in r
    ensures r <= s
    ensures |r| < |s| ==> s[|r|] == ' '
  {
    if s == [] || s[0] == ' ' then [] else [s[0]] + FirstField(s[1..])
  }

  /** The first field of a text that starts with a space-free field and a space is that field. */
  lemma {:induction false} FirstFieldOf(p: string, rest: string)
    requires ' ' !in p
    ensures FirstField(p + " " + rest) == p
  {
    if p != [] {
      assert (p + " " + rest)[1..] == p[1..] + " " + rest;
      FirstFieldOf(p[1..], rest);
    }
  }

  /** The side-to-move field that `fix_fen` writes. */
  function SideField(white: bool): string
  {
    if white then " w " else " b "
  }

  /**
   * `fix_fen`: a full position record rebuilt from a placement field, with the solver's side
   * to move, no castling rights, no en-passant square, and the move clocks reset.
   */
  function FixFen(placement: string, white: bool): string
  {
    placement + SideField(white) + "- - 0 1"
  }

  /**
   * The placement field survives `fix_fen` (it is the dedup key read back from the
   * record), and the record names the solver's side to move as its second field.
   */
  lemma FixFenFields(placement: string, white: bool)
    requires ' ' !in placement
    ensures FirstField(FixFen(placement, white)) == placement
    ensures FixFen(placement, white)[|placement| + 1] == if white then 'w' else 'b'
  {
    assert FixFen(placement, white) == placement + " " + ((if white then "w " else "b ") + "- - 0 1");
    FirstFieldOf(placement, (if white then "w " else "b ") + "- - 0 1");
  }

  /** Python's `s[:-1]`: everything but the last character (nothing, for the empty text). */
  function DropLast(s: string): string
  {
    if s == [] then [] else s[..|s| - 1]
  }

  /** `fix_start_fen`: replaces the final move-count character by the four trailing fields. */
  function FixStartFen(fen: string): string
  {
    DropLast(fen) + "- - 0 1"
  }

  /**
   * `int(fen[-1])`: the required mate length. The empty text raises IndexError and a last
   * character that is not a decimal digit raises ValueError; both are None here.
   */
  function ParseMoveCount(fen: string): (r: Option<nat>)
    ensures r.Some? ==> r.value <= 9
    ensures r.Some? <==> |fen| > 0 && '0' <= fen[|fen| - 1] <= '9'
  {
    if fen == [] then None
    else if '0' <= fen[|fen| - 1] <= '9' then Some(fen[|fen| - 1] as int - '0' as int)
    else None
  }

  /**
   * The solver's input is a position record whose last character is the mate length:
   * `solve` reads that digit and `fix_start_fen` keeps exactly the text before it.
   */
  lemma StartFenSplit(body: string, d: char)
    requires '0' <= d <= '9'
    ensures ParseMoveCount(body + [d]) == Some(d as int - '0' as int)
    ensures FixStartFen(body + [d]) == body + "- - 0 1"
  {
    assert (body + [d])[..|body|] == body;
  }

  /** `move_to_str`: the UCI text with '-' inserted after its first two characters. */
  function MoveToStr(uci: string): string
  {
    Take(uci, 2) + "-" + Skip(uci, 2)
  }

  /** Python's `s[:k]`, which stops at the end of a short text. */
  function Take(s: string, k: nat): string
  {
    if k <= |s| then s[..k] else s
  }

  /** Python's `s[k:]`, which is empty past the end of a short text. */
  function Skip(s: string, k: nat): string
  {
    if k <= |s| then s[k..] else []
  }

  /**
   * `move_to_str` loses nothing: removing the '-' it inserts gives the UCI text back, and the
   * '-' stands after the from-square (after the whole text, when that is shorter than two).
   */
  lemma MoveToStrInverse(uci: string)
    ensures var k := if |uci| < 2 then |uci| else 2;
      var r := MoveToStr(uci);
      |r| == |uci| + 1 && r[k] == '-' && r[..k] + r[k + 1..] == uci
  {
    var k := if |uci| < 2 then |uci| else 2;
    var r := MoveToStr(uci);
    assert r[..k] == Take(uci, 2);
    assert r[k + 1..] == Skip(uci, 2);
    assert Take(uci, 2) + Skip(uci, 2) == uci;
  }

  /** The number of occurrences of c in s. */
  function CountChar(s: string, c: char): nat
  {
    if s == [] then 0 else (if s[0] == c then 1 else 0) + CountChar(s[1..], c)
  }

  lemma {:induction false} CountCharAppend(a: string, b: string, c: char)
    ensures CountChar(a + b, c) == CountChar(a, c) + CountChar(b, c)
  {
    if a != [] {
      assert (a + b)[1..] == a[1..] + b;
      CountCharAppend(a[1..], b, c);
    } else {
      assert a + b == b;
    }
  }

  lemma {:induction false} CountCharAbsent(s: string, c: char)
    requires c !in s
    ensures CountChar(s, c) == 0
  {
    if s != [] {
      assert s[0] != c && c !in s[1..] by { assert s == [s[0]] + s[1..]; }
      CountCharAbsent(s[1..], c);
    }
  }

  /**
   * The notation of a real move: from-square, '-', to-square, then the promotion letter.
   * It is never empty and holds no ';', the separator of a solution path.
   */
  lemma MoveToStrOfMove(m: Move)
    ensures MoveToStr(Uci(m)) == SquareName(m.from) + "-" + SquareName(m.to) + PromotionSuffix(m.promotion)
    ensures ';' !in MoveToStr(Uci(m)) && CountChar(MoveToStr(Uci(m)), ';') == 0
  {
    var u := Uci(m);
    assert u[..2] == SquareName(m.from);
    assert u[2..] == SquareName(m.to) + PromotionSuffix(m.promotion);
    CountCharAbsent(MoveToStr(u), ';');
  }
}
