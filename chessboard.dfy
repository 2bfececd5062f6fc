// Pieces, squares and the 8x8 board of the chess engine.
//
// Row 0 is black's back rank (rank 8), row 7 is white's (rank 1); column 0 is
// file a. The source stores a square as a one-letter string whose case gives
// the side ("" for an empty square); here a square is a tagged value and the
// letter encoding is kept only to relate the two (Letter / FromLetter).

module Chessboard {

  datatype Option<T> = None | Some(value: T)

  datatype Side = White | Black

  datatype Kind = Pawn | Knight | Bishop | Rook | Queen | King

  datatype Piece = Piece(kind: Kind, side: Side)

  datatype Square = Empty | Occupied(piece: Piece)

  /** A square of the board by row and column (the source's {r, c}). */
  datatype Pos = Pos(r: int, c: int)

  /** A position known to be on the board. */
  type Coord = p: Pos | InBounds(p.r, p.c) witness Pos(0, 0)

  /** A generated move as the source builds it: destination and capture flag. */
  datatype Move = Move(r: int, c: int, capture: bool)

  predicate IsBoard(b: seq<seq<Square>>) {
    |b| == 8 && forall r :: 0 <= r < 8 ==> |b[r]| == 8
  }

  type Board = b: seq<seq<Square>> | IsBoard(b) witness seq(8, _ => seq(8, _ => Empty))

  predicate InBounds(r: int, c: int) {
    0 <= r < 8 && 0 <= c < 8
  }

  /** sideOf: the side owning a square, none for an empty one. */
  function SideOf(sq: Square): (s: Option<Side>)
    ensures s.None? <==> sq.Empty?
    ensures s.Some? ==> s.value == sq.piece.side
  {
    match sq
    case Empty => None
    case Occupied(p) => Some(p.side)
  }

  function Opponent(s: Side): (o: Side)
    ensures o != s
  {
    if s == White then Black else White
  }

  predicate PieceAt(b: Board, r: int, c: int, p: Piece) {
    InBounds(r, c) && b[r][c] == Occupied(p)
  }

  predicate EmptyAt(b: Board, r: int, c: int) {
    InBounds(r, c) && b[r][c].Empty?
  }

  /** The board with one square replaced (one cell assignment of the source). */
  function SetSq(b: Board, r: int, c: int, x: Square): (b': Board)
    requires InBounds(r, c)
    ensures b'[r][c] == x
    ensures forall r', c' :: InBounds(r', c') && (r' != r || c' != c) ==> b'[r'][c'] == b[r'][c']
  {
    b[r := b[r][c := x]]
  }

  /** Two boards with the same 64 squares are the same board. */
  lemma SameSquares(a: Board, b: Board)
    requires forall r, c :: InBounds(r, c) ==> a[r][c] == b[r][c]
    ensures a == b
  {
    forall r | 0 <= r < 8
      ensures a[r] == b[r]
    {
      assert forall c :: 0 <= c < 8 ==> a[r][c] == b[r][c];
    }
  }

  // ---------------------------------------------------------------------
  // The source's one-letter encoding: upper case for white, lower case for
  // black, "" for an empty square.

  function KindLetter(k: Kind): char {
    match k
    case Pawn => 'p'
    case Knight => 'n'
    case Bishop => 'b'
    case Rook => 'r'
    case Queen => 'q'
    case King => 'k'
  }

  predicate IsUpper(ch: char) {
    'A' <= ch <= 'Z'
  }

  function Letter(sq: Square): (s: string)
    ensures sq.Empty? <==> s == ""
    ensures sq.Occupied? ==> |s| == 1 && (sq.piece.side == White <==> IsUpper(s[0]))
  {
    match sq
    case Empty => ""
    case Occupied(Piece(k, White)) => [(KindLetter(k) as int - 32) as char]
    case Occupied(Piece(k, Black)) => [KindLetter(k)]
  }

  function KindOfLetter(ch: char): Option<Kind> {
    match ch
    case 'p' => Some(Pawn)
    case 'n' => Some(Knight)
    case 'b' => Some(Bishop)
    case 'r' => Some(Rook)
    case 'q' => Some(Queen)
    case 'k' => Some(King)
    case _ => None
  }

  /** Decodes a board cell of the source; None for a string that is not one. */
  function FromLetter(s: string): Option<Square> {
    if s == "" then Some(Empty)
    else if |s| != 1 then None
    else if IsUpper(s[0]) then
      match KindOfLetter((s[0] as int + 32) as char)
      case Some(k) => Some(Occupied(Piece(k, White)))
      case None => None
    else
      match KindOfLetter(s[0])
      case Some(k) => Some(Occupied(Piece(k, Black)))
      case None => None
  }

  /** Every square survives the trip through the source's letter encoding. */
  lemma LetterRoundTrip(sq: Square)
    ensures FromLetter(Letter(sq)) == Some(sq)
  {
    match sq
    case Empty =>
    case Occupied(Piece(k, s)) =>
      assert KindOfLetter(KindLetter(k)) == Some(k) by { match k { case _ => } }
  }

  /** Distinct squares have distinct letters, and only letters decode. */
  lemma FromLetterInverse(s: string, sq: Square)
    requires FromLetter(s) == Some(sq)
    ensures Letter(sq) == s
  {
    if s != "" {
      var ch := if IsUpper(s[0]) then (s[0] as int + 32) as char else s[0];
      match KindOfLetter(ch) {
        case Some(k) =>
          assert KindLetter(k) == ch by { match ch { case _ => } }
        case None =>
      }
    }
  }

  // ---------------------------------------------------------------------
  // The starting position (START).

  function BackRank(s: Side): seq<Square> {
    [Occupied(Piece(Rook, s)), Occupied(Piece(Knight, s)), Occupied(Piece(Bishop, s)),
     Occupied(Piece(Queen, s)), Occupied(Piece(King, s)), Occupied(Piece(Bishop, s)),
     Occupied(Piece(Knight, s)), Occupied(Piece(Rook, s))]
  }

  function PawnRank(s: Side): seq<Square> {
    var p := Occupied(Piece(Pawn, s)); [p, p, p, p, p, p, p, p]
  }

  const EmptyRank: seq<Square> := [Empty, Empty, Empty, Empty, Empty, Empty, Empty, Empty]

  const START: Board := [BackRank(Black), PawnRank(Black), EmptyRank, EmptyRank,
                         EmptyRank, EmptyRank, PawnRank(White), BackRank(White)]
}
