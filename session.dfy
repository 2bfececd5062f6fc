// The page's global game state as an object: the board is an 8x8 array that
// doMove and undo update cell by cell, the history and capture lists are
// sequences that they push to, pop and splice, and the click handler keeps
// the selection. Each method is proved to perform the matching transition of
// GameState on State(), the value the object currently represents.

module Session {
  import opened Chessboard
  import opened Legal
  import opened GameState

  class Game {
    var board: array2<Square>
    var turn: Side
    var selected: Option<Coord>
    var legalMoves: seq<Move>
    var moveHistory: seq<HistoryRecord>
    var capturedWhite: seq<Piece>
    var capturedBlack: seq<Piece>

    /** The contents of `board` as a value. */
    ghost var cells: Board

    ghost predicate Valid()
      reads `board, `cells, board
    {
      && board.Length0 == 8 && board.Length1 == 8
      && forall r, c :: 0 <= r < 8 && 0 <= c < 8 ==> board[r, c] == cells[r][c]
    }

    /** The game this object represents. */
    ghost function State(): State
      reads this
    {
      GameState.State(cells, turn, selected, legalMoves, moveHistory, capturedWhite, capturedBlack)
    }

    /** cloneStart: a fresh array holding the start position. */
    static method CloneStart() returns (b: array2<Square>)
      ensures fresh(b) && b.Length0 == 8 && b.Length1 == 8
      ensures forall r, c :: 0 <= r < 8 && 0 <= c < 8 ==> b[r, c] == START[r][c]
    {
      b := new Square[8, 8]((r, c) requires 0 <= r < 8 && 0 <= c < 8 => START[r][c]);
    }

    /** The page load, which calls init. */
    constructor ()
      ensures Valid() && State() == Initial()
    {
      var b := CloneStart();
      board := b;
      cells := START;
      turn := White;
      selected := None;
      legalMoves := [];
      moveHistory := [];
      capturedWhite := [];
      capturedBlack := [];
    }

    /** init (the restart button): a new start board and everything else reset. */
    method Init()
      modifies this
      ensures Valid() && State() == Initial() && fresh(board)
    {
      board := CloneStart();
      cells := START;
      turn := White;
      selected := None;
      legalMoves := [];
      moveHistory := [];
      capturedWhite := [];
      capturedBlack := [];
    }

    /** `board.map(row => row.slice())`: a copy of the board as a value. */
    method Snapshot() returns (b: Board)
      requires Valid()
      ensures b == cells
    {
      var a := board;
      var rows := seq(8, r requires 0 <= r < 8 reads a => seq(8, c requires 0 <= c < 8 reads a => a[r, c]));
      b := rows;
      SameSquares(b, cells);
    }

    /** Writes one square of the array and of its ghost copy. */
    method Put(r: int, c: int, x: Square)
      requires Valid() && InBounds(r, c)
      modifies board, `cells
      ensures Valid() && cells == SetSq(old(cells), r, c, x)
    {
      board[r, c] := x;
      cells := SetSq(cells, r, c, x);
    }

    /** doMove(from, to). */
    method DoMove(from: Coord, to: Coord)
      requires Valid()
      modifies this, board
      ensures Valid() && board == old(board)
      ensures State() == Applied(old(State()), from, to)
    {
      var piece := board[from.r, from.c];
      var target := board[to.r, to.c];
      if target.Occupied? {
        Capture(target.piece);
      }
      MovePiece(from, to);
      moveHistory := moveHistory + [HistoryRecord(from, to, piece, target, turn)];
      turn := Opponent(turn);
    }

    /** doMove's capture bookkeeping: p joins the list of its own side. */
    method Capture(p: Piece)
      modifies `capturedWhite, `capturedBlack
      ensures capturedWhite == if p.side == White then old(capturedWhite) + [p] else old(capturedWhite)
      ensures capturedBlack == if p.side == Black then old(capturedBlack) + [p] else old(capturedBlack)
    {
      if p.side == White {
        capturedWhite := capturedWhite + [p];
      } else {
        capturedBlack := capturedBlack + [p];
      }
    }

    /** doMove's cell assignments: the piece moves, its origin empties, a pawn on the far rank becomes a queen. */
    method MovePiece(from: Coord, to: Coord)
      requires Valid()
      modifies board, `cells
      ensures Valid() && cells == MovedBoard(old(cells), from, to)
    {
      var piece := board[from.r, from.c];
      Put(to.r, to.c, piece);
      Put(from.r, from.c, Empty);
      if piece.Occupied? && piece.piece.kind == Pawn {
        if (piece.piece.side == White && to.r == 0) || (piece.piece.side == Black && to.r == 7) {
          Put(to.r, to.c, Occupied(Piece(Queen, piece.piece.side)));
        }
      }
    }

    /** undo (the undo button). */
    method Undo()
      requires Valid()
      modifies this, board
      ensures Valid() && board == old(board)
      ensures State() == Undone(old(State()))
    {
      if |moveHistory| == 0 {
        return;
      }
      var last := moveHistory[|moveHistory| - 1];
      moveHistory := moveHistory[..|moveHistory| - 1];
      PutBackSquares(last);
      if last.captured.Occupied? {
        Uncapture(last.captured.piece);
      }
      selected := None;
      legalMoves := [];
    }

    /** undo's board writes: the recorded piece back on its origin, then the captured square on the destination. */
    method PutBackSquares(last: HistoryRecord)
      requires Valid()
      modifies board, `cells
      ensures Valid()
      ensures cells == SetSq(SetSq(old(cells), last.from.r, last.from.c, last.piece), last.to.r, last.to.c, last.captured)
    {
      Put(last.from.r, last.from.c, last.piece);
      Put(last.to.r, last.to.c, last.captured);
    }

    /** undo's capture-list repair: the last entry equal to p leaves the list of p's side. */
    method Uncapture(p: Piece)
      modifies `capturedWhite, `capturedBlack
      ensures capturedWhite == if p.side == White then RemoveLast(old(capturedWhite), p) else old(capturedWhite)
      ensures capturedBlack == if p.side == Black then RemoveLast(old(capturedBlack), p) else old(capturedBlack)
    {
      if p.side == White {
        var idx := LastIndexOf(capturedWhite, p);
        if idx >= 0 {
          capturedWhite := capturedWhite[..idx] + capturedWhite[idx + 1..];
        }
      } else {
        var idx := LastIndexOf(capturedBlack, p);
        if idx >= 0 {
          capturedBlack := capturedBlack[..idx] + capturedBlack[idx + 1..];
        }
      }
    }

    /** onSquareClick for the square (r, c), without the rendering. */
    method OnSquareClick(r: int, c: int)
      requires Valid() && InBounds(r, c)
      modifies this, board
      ensures Valid() && board == old(board)
      ensures State() == Clicked(old(State()), r, c)
    {
      var piece := board[r, c];
      if selected.Some? {
        if HasTarget(legalMoves, r, c) {
          DoMove(selected.value, Pos(r, c));
          selected := None;
          legalMoves := [];
          return;
        }
      }
      if piece.Occupied? && piece.piece.side == turn {
        selected := Some(Pos(r, c));
        var snapshot := Snapshot();
        legalMoves := GenLegalMoves(snapshot, r, c);
      } else {
        selected := None;
        legalMoves := [];
      }
    }
  }
}
