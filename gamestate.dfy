// The game as a value: the board, the side to move, the selection with its
// cached legal moves, the move history and the two capture lists. doMove,
// undo, init and the click handler become functions from state to state;
// the Session class runs the same transitions in place.

module GameState {
  import opened Chessboard
  import opened Check
  import opened Legal

  /** One entry of moveHistory (the display label is left out). */
  datatype HistoryRecord = HistoryRecord(from: Coord, to: Coord, piece: Square, captured: Square, side: Side)

  datatype State = State(
    board: Board,
    turn: Side,
    selected: Option<Coord>,
    legalMoves: seq<Move>,
    history: seq<HistoryRecord>,
    capturedWhite: seq<Piece>,
    capturedBlack: seq<Piece>)

  /** init: the start position, white to move, nothing selected, recorded or captured. */
  function Initial(): (s: State)
    ensures s.board == START && s.turn == White
    ensures s.selected == None && s.legalMoves == [] && s.history == [] && Captured(s) == []
    ensures Coherent(s)
  {
    State(START, White, None, [], [], [], [])
  }

  /** All captured pieces, white list first. */
  function Captured(s: State): seq<Piece> {
    s.capturedWhite + s.capturedBlack
  }

  // ---------------------------------------------------------------------
  // doMove

  /** The piece a capture of `target` adds to the list of `side`: the piece when it is of that side. */
  function CapturedOf(target: Square, side: Side): seq<Piece> {
    if target.Occupied? && target.piece.side == side then [target.piece] else []
  }

  /** doMove(from, to): capture bookkeeping, the move with promotion, one history record, the turn flip. */
  function Applied(s: State, from: Coord, to: Coord): (t: State)
    ensures t.board == MovedBoard(s.board, from, to)
    ensures t.turn == Opponent(s.turn)
    ensures t.history == s.history + [HistoryRecord(from, to, s.board[from.r][from.c], s.board[to.r][to.c], s.turn)]
    ensures t.capturedWhite == s.capturedWhite + CapturedOf(s.board[to.r][to.c], White)
    ensures t.capturedBlack == s.capturedBlack + CapturedOf(s.board[to.r][to.c], Black)
    ensures t.selected == s.selected && t.legalMoves == s.legalMoves
    ensures multiset(Captured(t)) ==
      multiset(Captured(s)) + (if s.board[to.r][to.c].Occupied? then multiset{s.board[to.r][to.c].piece} else multiset{})
    ensures forall p :: p in t.capturedWhite ==> p in s.capturedWhite || p.side == White
    ensures forall p :: p in t.capturedBlack ==> p in s.capturedBlack || p.side == Black
  {
    var piece := s.board[from.r][from.c];
    var target := s.board[to.r][to.c];
    s.(board := MovedBoard(s.board, from, to),
       capturedWhite := if target.Occupied? && target.piece.side == White then s.capturedWhite + [target.piece] else s.capturedWhite,
       capturedBlack := if target.Occupied? && target.piece.side == Black then s.capturedBlack + [target.piece] else s.capturedBlack,
       history := s.history + [HistoryRecord(from, to, piece, target, s.turn)],
       turn := Opponent(s.turn))
  }

  // ---------------------------------------------------------------------
  // undo

  /** lastIndexOf: the position of the last x in xs, -1 when there is none. */
  function LastIndexOf(xs: seq<Piece>, x: Piece): (i: int)
    ensures -1 <= i < |xs|
    ensures i == -1 <==> x !in xs
    ensures i >= 0 ==> xs[i] == x && forall j :: i < j < |xs| ==> xs[j] != x
  {
    if xs == [] then -1
    else if xs[|xs| - 1] == x then |xs| - 1
    else LastIndexOf(xs[..|xs| - 1], x)
  }

  /** `idx = lastIndexOf(x); if (idx >= 0) splice(idx, 1)`: drops the last x, if any. */
  function RemoveLast(xs: seq<Piece>, x: Piece): (ys: seq<Piece>)
    ensures x in xs ==> multiset(ys) == multiset(xs) - multiset{x}
    ensures x !in xs ==> ys == xs
    ensures x in xs ==> exists i :: 0 <= i < |xs| && xs[i] == x && x !in xs[i + 1..] && ys == xs[..i] + xs[i + 1..]
  {
    var i := LastIndexOf(xs, x);
    if i >= 0 then
      assert xs == xs[..i] + [xs[i]] + xs[i + 1..];
      xs[..i] + xs[i + 1..]
    else xs
  }

  /** The entry just appended is the one removed. */
  lemma RemoveLastAppended(xs: seq<Piece>, x: Piece)
    ensures RemoveLast(xs + [x], x) == xs
  {
    assert (xs + [x])[..|xs|] == xs;
  }

  /** undo: pops the last record and puts back the moved piece and what it captured; the turn is not touched. */
  function Undone(s: State): (t: State)
    ensures t.turn == s.turn
    ensures s.history == [] ==> t == s
    ensures s.history != [] ==> t.history == s.history[..|s.history| - 1] && t.selected == None && t.legalMoves == []
    ensures s.history != [] ==>
      var last := s.history[|s.history| - 1];
      && t.board == SetSq(SetSq(s.board, last.from.r, last.from.c, last.piece), last.to.r, last.to.c, last.captured)
      && t.capturedWhite == (if last.captured.Occupied? && last.captured.piece.side == White
                             then RemoveLast(s.capturedWhite, last.captured.piece) else s.capturedWhite)
      && t.capturedBlack == (if last.captured.Occupied? && last.captured.piece.side == Black
                             then RemoveLast(s.capturedBlack, last.captured.piece) else s.capturedBlack)
  {
    if s.history == [] then s
    else
      var last := s.history[|s.history| - 1];
      var b1 := SetSq(s.board, last.from.r, last.from.c, last.piece);
      var b2 := SetSq(b1, last.to.r, last.to.c, last.captured);
      var cap := last.captured;
      s.(board := b2,
         history := s.history[..|s.history| - 1],
         capturedWhite := if cap.Occupied? && cap.piece.side == White then RemoveLast(s.capturedWhite, cap.piece) else s.capturedWhite,
         capturedBlack := if cap.Occupied? && cap.piece.side == Black then RemoveLast(s.capturedBlack, cap.piece) else s.capturedBlack,
         selected := None,
         legalMoves := [])
  }

  /**
    * Undoing a move restores the board (promotion included), the history and
    * both capture lists; the selection is cleared and the turn stays with the
    * side that did not move.
    */
  lemma UndoAfterApply(s: State, from: Coord, to: Coord)
    ensures Undone(Applied(s, from, to)) == s.(turn := Opponent(s.turn), selected := None, legalMoves := [])
  {
    var t := Applied(s, from, to);
    var target := s.board[to.r][to.c];
    if target.Occupied? {
      RemoveLastAppended(if target.piece.side == White then s.capturedWhite else s.capturedBlack, target.piece);
    }
    assert t.history[..|t.history| - 1] == s.history;
    PutBack(s.board, from, to);
  }

  /** Writing back the mover's original piece and then the captured square undoes MovedBoard. */
  lemma PutBack(b: Board, from: Coord, to: Coord)
    ensures SetSq(SetSq(MovedBoard(b, from, to), from.r, from.c, b[from.r][from.c]), to.r, to.c, b[to.r][to.c]) == b
  {
    var u := SetSq(SetSq(MovedBoard(b, from, to), from.r, from.c, b[from.r][from.c]), to.r, to.c, b[to.r][to.c]);
    SameSquares(u, b);
  }

  /**
    * A pawn reaching its far rank becomes a queen of its side; the record
    * keeps the pawn, so undo puts the pawn back on its origin.
    */
  lemma PromotionUndone(s: State, from: Coord, to: Coord)
    requires s.board[from.r][from.c].Occupied? && s.board[from.r][from.c].piece.kind == Pawn
    requires (s.board[from.r][from.c].piece.side == White && to.r == 0) || (s.board[from.r][from.c].piece.side == Black && to.r == 7)
    ensures Applied(s, from, to).board[to.r][to.c] == Occupied(Piece(Queen, s.board[from.r][from.c].piece.side))
    ensures Applied(s, from, to).history[|s.history|].piece == s.board[from.r][from.c]
    ensures Undone(Applied(s, from, to)).board[from.r][from.c] == Occupied(Piece(Pawn, s.board[from.r][from.c].piece.side))
  {
    UndoAfterApply(s, from, to);
  }

  /** With nothing to undo, undo changes nothing. */
  lemma UndoNothing(s: State)
    requires s.history == []
    ensures Undone(s) == s
  {
  }

  // ---------------------------------------------------------------------
  // The click handler's selection logic.

  /** legalMoves.find(m => m.r === r && m.c === c) found something. */
  predicate HasTarget(ms: seq<Move>, r: int, c: int) {
    exists i :: 0 <= i < |ms| && ms[i].r == r && ms[i].c == c
  }

  /** onSquareClick(r, c) without the rendering. */
  function Clicked(s: State, r: int, c: int): (t: State)
    requires InBounds(r, c)
    ensures var plays := s.selected.Some? && HasTarget(s.legalMoves, r, c);
      && (plays ==> t == Applied(s, s.selected.value, Pos(r, c)).(selected := None, legalMoves := []))
      && (plays ==> |t.history| == |s.history| + 1 && t.turn == Opponent(s.turn))
      && (!plays ==> t.board == s.board && t.turn == s.turn && t.history == s.history)
      && (!plays ==> t.capturedWhite == s.capturedWhite && t.capturedBlack == s.capturedBlack)
      && (t.selected.Some? && t.selected.value == Pos(r, c) <==> !plays && s.board[r][c].Occupied? && s.board[r][c].piece.side == s.turn)
      && (!(t.selected.Some? && t.selected.value == Pos(r, c)) ==> t.selected == None && t.legalMoves == [])
  {
    if s.selected.Some? && HasTarget(s.legalMoves, r, c) then
      Applied(s, s.selected.value, Pos(r, c)).(selected := None, legalMoves := [])
    else if s.board[r][c].Occupied? && s.board[r][c].piece.side == s.turn then
      s.(selected := Some(Pos(r, c)), legalMoves := LegalMoves(s.board, r, c))
    else
      s.(selected := None, legalMoves := [])
  }

  /** The selection is either empty with no moves, or a piece of the side to move with its legal moves. */
  predicate Coherent(s: State) {
    match s.selected
    case None => s.legalMoves == []
    case Some(p) =>
      && s.board[p.r][p.c].Occupied? && s.board[p.r][p.c].piece.side == s.turn
      && s.legalMoves == LegalMoves(s.board, p.r, p.c)
  }

  /** Every click leaves a coherent selection, whatever state it starts from. */
  lemma ClickedCoherent(s: State, r: int, c: int)
    requires InBounds(r, c)
    ensures Coherent(Clicked(s, r, c))
  {
  }

  /** init and undo leave a coherent selection too (undo with nothing to undo keeps the old one). */
  lemma InitialAndUndoCoherent(s: State)
    requires Coherent(s)
    ensures Coherent(Initial())
    ensures Coherent(Undone(s))
  {
  }

  /**
    * A click that executes a move plays a legal move of the side to move: the
    * piece on the selected square belongs to that side, the destination is one
    * of its legal moves, the mover is not in check afterwards, the record names
    * the mover and the turn passes to the other side.
    */
  lemma ClickedMoveIsLegal(s: State, r: int, c: int)
    requires InBounds(r, c) && Coherent(s)
    requires s.selected.Some? && HasTarget(s.legalMoves, r, c)
    ensures var from := s.selected.value;
      && s.board[from.r][from.c].Occupied? && s.board[from.r][from.c].piece.side == s.turn
      && (exists m :: m in LegalMoves(s.board, from.r, from.c) && m.r == r && m.c == c)
      && !InCheck(Clicked(s, r, c).board, s.turn)
      && Clicked(s, r, c).turn == Opponent(s.turn)
      && Clicked(s, r, c).history[|s.history|].side == s.turn
  {
    var from := s.selected.value;
    var i :| 0 <= i < |s.legalMoves| && s.legalMoves[i].r == r && s.legalMoves[i].c == c;
    var m := s.legalMoves[i];
    LegalMovesRule(s.board, from.r, from.c, m);
  }
}
