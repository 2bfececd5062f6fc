// Legal moves (genLegalMoves, cloneAndMove): a pseudo-move is legal when the
// mover's king is not in check on the board that results from playing it.
//
// The resulting board is MovedBoard: the piece goes to the destination, the
// origin is emptied, and a pawn reaching the far rank (row 0 for white, row 7
// for black) becomes a queen of its side. The same three cell assignments are
// made by cloneAndMove, by the simulation inside genLegalMoves and by doMove.

module Legal {
  import opened Chessboard
  import opened MoveGen
  import opened Check

  /** A pawn that arrives on its far rank. */
  predicate Promotes(sq: Square, toRow: int) {
    && sq.Occupied? && sq.piece.kind == Pawn
    && ((sq.piece.side == White && toRow == 0) || (sq.piece.side == Black && toRow == 7))
  }

  /** The board after moving whatever stands on `from` to `to`, in the source's assignment order. */
  function MovedBoard(b: Board, from: Coord, to: Coord): (b': Board)
    ensures b'[to.r][to.c] ==
      if Promotes(b[from.r][from.c], to.r) then Occupied(Piece(Queen, b[from.r][from.c].piece.side))
      else if from == to then Empty
      else b[from.r][from.c]
    ensures from != to ==> b'[from.r][from.c] == Empty
    ensures forall r, c :: InBounds(r, c) && Pos(r, c) != from && Pos(r, c) != to ==> b'[r][c] == b[r][c]
  {
    var piece := b[from.r][from.c];
    var b1 := SetSq(b, to.r, to.c, piece);
    var b2 := SetSq(b1, from.r, from.c, Empty);
    if Promotes(piece, to.r) then SetSq(b2, to.r, to.c, Occupied(Piece(Queen, piece.piece.side))) else b2
  }

  /** cloneAndMove's result: the simulated board and what stood on the destination. */
  datatype Simulation = Simulation(board: Board, captured: Square)

  function CloneAndMove(b: Board, from: Coord, to: Coord): (s: Simulation)
    ensures s.captured == b[to.r][to.c]
    ensures s.board == MovedBoard(b, from, to)
  {
    Simulation(MovedBoard(b, from, to), b[to.r][to.c])
  }

  /** The move m of the piece on (r, c) leaves that piece's side out of check. */
  predicate Safe(b: Board, r: int, c: int, m: Move)
    requires InBounds(r, c)
  {
    && InBounds(m.r, m.c) && b[r][c].Occupied?
    && !InCheck(MovedBoard(b, Pos(r, c), Pos(m.r, m.c)), b[r][c].piece.side)
  }

  /** The moves of ms that are safe, in their original order. */
  function KeepSafe(b: Board, r: int, c: int, ms: seq<Move>): seq<Move>
    requires InBounds(r, c)
  {
    if ms == [] then []
    else KeepSafe(b, r, c, ms[..|ms| - 1]) + (if Safe(b, r, c, ms[|ms| - 1]) then [ms[|ms| - 1]] else [])
  }

  /** genLegalMoves(r, c) as a function of the board. */
  function LegalMoves(b: Board, r: int, c: int): seq<Move>
    requires InBounds(r, c)
  {
    KeepSafe(b, r, c, PseudoMoves(b, r, c))
  }

  /** xs is obtained from ys by deleting elements (order kept). */
  predicate SubsequenceOf(xs: seq<Move>, ys: seq<Move>)
    decreases |ys|
  {
    if xs == [] then true
    else if ys == [] then false
    else if xs[|xs| - 1] == ys[|ys| - 1] then SubsequenceOf(xs[..|xs| - 1], ys[..|ys| - 1])
    else SubsequenceOf(xs, ys[..|ys| - 1])
  }

  lemma {:induction false} KeepSafeMembers(b: Board, r: int, c: int, ms: seq<Move>, m: Move)
    requires InBounds(r, c)
    ensures m in KeepSafe(b, r, c, ms) <==> m in ms && Safe(b, r, c, m)
    decreases |ms|
  {
    if ms != [] {
      KeepSafeMembers(b, r, c, ms[..|ms| - 1], m);
      assert ms == ms[..|ms| - 1] + [ms[|ms| - 1]];
    }
  }

  lemma {:induction false} KeepSafeOrder(b: Board, r: int, c: int, ms: seq<Move>)
    requires InBounds(r, c)
    ensures SubsequenceOf(KeepSafe(b, r, c, ms), ms)
    decreases |ms|
  {
    if ms != [] {
      var init := ms[..|ms| - 1];
      KeepSafeOrder(b, r, c, init);
      var ks := KeepSafe(b, r, c, init);
      if Safe(b, r, c, ms[|ms| - 1]) {
        var xs := ks + [ms[|ms| - 1]];
        assert xs[..|xs| - 1] == ks;
      } else {
        assert KeepSafe(b, r, c, ms) == ks;
        SubsequenceSkip(ks, ms);
      }
    }
  }

  /** Dropping the last element of ys does not matter when xs does not use it. */
  lemma {:induction false} SubsequenceSkip(xs: seq<Move>, ys: seq<Move>)
    requires ys != [] && SubsequenceOf(xs, ys[..|ys| - 1])
    ensures SubsequenceOf(xs, ys)
    decreases |ys|, 0
  {
    var init := ys[..|ys| - 1];
    if xs != [] && xs[|xs| - 1] == ys[|ys| - 1] {
      // xs's last element is matched inside init; move that match out.
      SubsequenceDropLast(xs, init);
    }
  }

  /** A subsequence minus its last element is still a subsequence. */
  lemma {:induction false} SubsequenceDropLast(xs: seq<Move>, ys: seq<Move>)
    requires xs != [] && SubsequenceOf(xs, ys)
    ensures SubsequenceOf(xs[..|xs| - 1], ys)
    decreases |ys|, 1
  {
    if ys != [] {
      if xs[|xs| - 1] == ys[|ys| - 1] {
        SubsequenceSkip(xs[..|xs| - 1], ys);
      } else {
        SubsequenceDropLast(xs, ys[..|ys| - 1]);
        SubsequenceSkip(xs[..|xs| - 1], ys);
      }
    }
  }

  /**
    * The legal moves are exactly the pseudo-moves after which the mover is not
    * in check, in the order genPseudoMoves produced them.
    */
  lemma LegalMovesRule(b: Board, r: int, c: int, m: Move)
    requires InBounds(r, c)
    ensures m in LegalMoves(b, r, c) <==>
      && m in PseudoMoves(b, r, c)
      && InBounds(m.r, m.c) && b[r][c].Occupied?
      && !InCheck(MovedBoard(b, Pos(r, c), Pos(m.r, m.c)), b[r][c].piece.side)
    ensures SubsequenceOf(LegalMoves(b, r, c), PseudoMoves(b, r, c))
  {
    KeepSafeMembers(b, r, c, PseudoMoves(b, r, c), m);
    KeepSafeOrder(b, r, c, PseudoMoves(b, r, c));
    if m in PseudoMoves(b, r, c) {
      PseudoMovesSound(b, r, c, m);
    }
  }

  /** A legal move lands on the board, on an empty or enemy square, and never on its own origin. */
  lemma LegalMoveLands(b: Board, r: int, c: int, m: Move)
    requires InBounds(r, c) && m in LegalMoves(b, r, c)
    ensures b[r][c].Occupied? && Lands(b, b[r][c].piece.side, m)
    ensures Pos(m.r, m.c) != Pos(r, c)
  {
    LegalMovesRule(b, r, c, m);
    PseudoMovesSound(b, r, c, m);
  }

  /** An empty square has no legal moves. */
  lemma EmptySquareHasNoMoves(b: Board, r: int, c: int)
    requires InBounds(r, c) && b[r][c].Empty?
    ensures LegalMoves(b, r, c) == []
  {
  }

  // ---------------------------------------------------------------------
  // genLegalMoves as the source runs it.

  /** The per-move copy of genLegalMoves (and the body of cloneAndMove): copy, move, promote. */
  method Simulate(board: Board, from: Coord, to: Coord) returns (copy: Board)
    ensures copy == MovedBoard(board, from, to)
  {
    copy := board;
    var savedFrom := copy[from.r][from.c];
    copy := SetSq(copy, to.r, to.c, savedFrom);
    copy := SetSq(copy, from.r, from.c, Empty);
    if savedFrom.Occupied? && savedFrom.piece.kind == Pawn {
      if (savedFrom.piece.side == White && to.r == 0) || (savedFrom.piece.side == Black && to.r == 7) {
        copy := SetSq(copy, to.r, to.c, Occupied(Piece(Queen, savedFrom.piece.side)));
      }
    }
  }

  /** Filters the pseudo-moves by simulating each one on a copy of the board. */
  method GenLegalMoves(board: Board, r: int, c: int) returns (legal: seq<Move>)
    requires InBounds(r, c)
    ensures legal == LegalMoves(board, r, c)
  {
    var pseudo := GenPseudoMoves(board, r, c);
    var piece := board[r][c];
    var side := SideOf(piece);
    legal := [];
    for i := 0 to |pseudo|
      invariant legal == KeepSafe(board, r, c, pseudo[..i])
    {
      var mv := pseudo[i];
      PseudoMovesSound(board, r, c, mv);
      var copy := Simulate(board, Pos(r, c), Pos(mv.r, mv.c));
      var inCheck := KingInCheckForBoard(copy, side.value);
      if !inCheck {
        legal := legal + [mv];
      }
      assert pseudo[..i + 1][..i] == pseudo[..i];
    }
    assert pseudo[..|pseudo|] == pseudo;
  }
}
