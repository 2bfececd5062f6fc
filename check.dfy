// Check detection (kingInCheckForBoard): is the king of `side` attacked on a
// given board? The board is a value: the detector reads it and cannot change
// it, so it is safe to ask about hypothetical boards.
//
// InCheck states the answer the way the source computes it: find the first
// king of the side in row-major order (no king counts as being in check), then
// look outward from it for the five attacker patterns. KingInCheckForBoard
// runs the source's loops and is proved to return InCheck.

module Check {
  import opened Chessboard
  import opened MoveGen

  /** (r1, c1) comes strictly before (r2, c2) in row-major order. */
  predicate Before(r1: int, c1: int, r2: int, c2: int) {
    r1 < r2 || (r1 == r2 && c1 < c2)
  }

  /** The first square holding p at or after (r, c) in row-major order. */
  function FindFrom(b: Board, p: Piece, r: int, c: int): (k: Option<Pos>)
    requires 0 <= r <= 8 && 0 <= c <= 8
    ensures k.Some? ==> PieceAt(b, k.value.r, k.value.c, p) && !Before(k.value.r, k.value.c, r, c)
    ensures forall r', c' ::
      InBounds(r', c') && !Before(r', c', r, c) && (k.Some? ==> Before(r', c', k.value.r, k.value.c))
      ==> b[r'][c'] != Occupied(p)
    decreases 8 - r, 8 - c
  {
    if r == 8 then None
    else if c == 8 then FindFrom(b, p, r + 1, 0)
    else if b[r][c] == Occupied(p) then Some(Pos(r, c))
    else FindFrom(b, p, r, c + 1)
  }

  /** The king of `side` the detector works with: the first one in row-major order, if any. */
  function FindKing(b: Board, side: Side): (k: Option<Pos>)
    ensures k.Some? ==> PieceAt(b, k.value.r, k.value.c, Piece(King, side))
    ensures k.Some? ==> forall r, c :: InBounds(r, c) && Before(r, c, k.value.r, k.value.c) ==>
      b[r][c] != Occupied(Piece(King, side))
    ensures k.None? <==> forall r, c :: InBounds(r, c) ==> b[r][c] != Occupied(Piece(King, side))
  {
    FindFrom(b, Piece(King, side), 0, 0)
  }

  /** An enemy pawn on one of the two squares from which it captures onto k. */
  predicate PawnThreat(b: Board, k: Pos, opp: Side) {
    || PieceAt(b, k.r - PawnDir(opp), k.c - 1, Piece(Pawn, opp))
    || PieceAt(b, k.r - PawnDir(opp), k.c + 1, Piece(Pawn, opp))
  }

  /** Piece p on one of the squares k + ds[i]. */
  predicate OffsetThreat(b: Board, k: Pos, ds: seq<Delta>, p: Piece) {
    exists i :: 0 <= i < |ds| && PieceAt(b, k.r + ds[i].0, k.c + ds[i].1, p)
  }

  /** The first occupied square of the ray starting at (r, c); Empty if the ray leaves the board first. */
  function FirstOccupied(b: Board, r: int, c: int, dr: int, dc: int): Square
    requires IsDir(dr, dc)
    decreases if InBounds(r, c) then Room(r, dr) + Room(c, dc) else 0
  {
    if !InBounds(r, c) then Empty
    else if b[r][c].Empty? then FirstOccupied(b, r + dr, c + dc, dr, dc)
    else b[r][c]
  }

  /** The first occupied square seen from k in direction d. */
  function FirstSeen(b: Board, k: Pos, d: Delta): Square
    requires IsDir(d.0, d.1)
  {
    FirstOccupied(b, k.r + d.0, k.c + d.1, d.0, d.1)
  }

  /** The square holds an enemy piece of the given kind or an enemy queen. */
  predicate Slider(sq: Square, kind: Kind, opp: Side) {
    sq == Occupied(Piece(kind, opp)) || sq == Occupied(Piece(Queen, opp))
  }

  /** Along one of the directions, the first occupied square is an enemy `kind` or queen. */
  predicate SlideThreat(b: Board, k: Pos, ds: seq<Delta>, kind: Kind, opp: Side)
    requires AllDirs(ds)
  {
    exists i :: 0 <= i < |ds| && Slider(FirstSeen(b, k, ds[i]), kind, opp)
  }

  /** The five attacker patterns, looked for outward from k. */
  predicate Threatened(b: Board, k: Pos, opp: Side) {
    || PawnThreat(b, k, opp)
    || OffsetThreat(b, k, KnightDeltas, Piece(Knight, opp))
    || SlideThreat(b, k, DiagDirs, Bishop, opp)
    || SlideThreat(b, k, OrthDirs, Rook, opp)
    || OffsetThreat(b, k, KingDeltas, Piece(King, opp))
  }

  /** kingInCheckForBoard(bd, side) as a predicate. */
  predicate InCheck(b: Board, side: Side) {
    match FindKing(b, side)
    case None => true
    case Some(k) => Threatened(b, k, Opponent(side))
  }

  /** A side without a king on the board is treated as being in check. */
  lemma NoKingMeansCheck(b: Board, side: Side)
    requires forall r, c :: InBounds(r, c) ==> b[r][c] != Occupied(Piece(King, side))
    ensures InCheck(b, side)
  {
  }

  // ---------------------------------------------------------------------
  // The detector as the source runs it.

  /** The nested row/column search for the king, with its two breaks. */
  method LocateKing(bd: Board, side: Side) returns (kr: int, kc: int)
    ensures kr == -1 <==> FindKing(bd, side).None?
    ensures kr != -1 ==> FindKing(bd, side) == Some(Pos(kr, kc))
  {
    kr, kc := -1, -1;
    var king := Piece(King, side);
    var r := 0;
    while r < 8
      invariant 0 <= r <= 8
      invariant kr == -1 ==> FindKing(bd, side) == FindFrom(bd, king, r, 0)
      invariant kr != -1 ==> FindKing(bd, side) == Some(Pos(kr, kc))
    {
      var c := 0;
      while c < 8
        invariant 0 <= c <= 8
        invariant kr == -1 ==> FindKing(bd, side) == FindFrom(bd, king, r, c)
        invariant kr != -1 ==> FindKing(bd, side) == Some(Pos(kr, kc))
      {
        if bd[r][c] == Occupied(king) {
          kr, kc := r, c;
          break;
        }
        c := c + 1;
      }
      if kr != -1 {
        break;
      }
      r := r + 1;
    }
  }

  method PawnAttack(bd: Board, kr: int, kc: int, opp: Side) returns (hit: bool)
    ensures hit == PawnThreat(bd, Pos(kr, kc), opp)
  {
    var pawnDir := if opp == White then -1 else 1;
    assert pawnDir == PawnDir(opp);
    var pawnCols := [kc - 1, kc + 1];
    for i := 0 to |pawnCols|
      invariant forall j :: 0 <= j < i ==> !PieceAt(bd, kr - pawnDir, pawnCols[j], Piece(Pawn, opp))
    {
      var pr, pc := kr - pawnDir, pawnCols[i];
      if InBounds(pr, pc) && bd[pr][pc].Occupied? && bd[pr][pc].piece.side == opp && bd[pr][pc].piece.kind == Pawn {
        return true;
      }
    }
    assert !PieceAt(bd, kr - pawnDir, pawnCols[0], Piece(Pawn, opp));
    assert !PieceAt(bd, kr - pawnDir, pawnCols[1], Piece(Pawn, opp));
    return false;
  }

  /** The knight scan: `for (const d of knightD)`. */
  method OffsetAttack(bd: Board, kr: int, kc: int, ds: seq<Delta>, p: Piece) returns (hit: bool)
    ensures hit == OffsetThreat(bd, Pos(kr, kc), ds, p)
  {
    for i := 0 to |ds|
      invariant forall j :: 0 <= j < i ==> !PieceAt(bd, kr + ds[j].0, kc + ds[j].1, p)
    {
      var rr, cc := kr + ds[i].0, kc + ds[i].1;
      if InBounds(rr, cc) && bd[rr][cc].Occupied? && bd[rr][cc].piece.side == p.side && bd[rr][cc].piece.kind == p.kind {
        return true;
      }
    }
    return false;
  }

  /** One ray walked outward from the king until the first occupied square. */
  method RayAttack(bd: Board, kr: int, kc: int, d: Delta, kind: Kind, opp: Side) returns (hit: bool)
    requires IsDir(d.0, d.1)
    ensures hit == Slider(FirstSeen(bd, Pos(kr, kc), d), kind, opp)
  {
    var rr, cc := kr + d.0, kc + d.1;
    while InBounds(rr, cc)
      invariant FirstOccupied(bd, rr, cc, d.0, d.1) == FirstSeen(bd, Pos(kr, kc), d)
      decreases if InBounds(rr, cc) then Room(rr, d.0) + Room(cc, d.1) else 0
    {
      if bd[rr][cc].Occupied? {
        if bd[rr][cc].piece.side == opp {
          var t := bd[rr][cc].piece.kind;
          if t == kind || t == Queen {
            return true;
          }
        }
        break;
      }
      rr, cc := rr + d.0, cc + d.1;
    }
    return false;
  }

  /** The diagonal and orthogonal scans: `for (const d of diagDirs)` / `ortDirs`. */
  method SlideAttack(bd: Board, kr: int, kc: int, ds: seq<Delta>, kind: Kind, opp: Side) returns (hit: bool)
    requires AllDirs(ds)
    ensures hit == SlideThreat(bd, Pos(kr, kc), ds, kind, opp)
  {
    for i := 0 to |ds|
      invariant forall j :: 0 <= j < i ==> !Slider(FirstSeen(bd, Pos(kr, kc), ds[j]), kind, opp)
    {
      hit := RayAttack(bd, kr, kc, ds[i], kind, opp);
      if hit {
        return;
      }
    }
    return false;
  }

  /** The adjacent-king scan over the nested dr/dc loops. */
  method KingAttack(bd: Board, kr: int, kc: int, opp: Side) returns (hit: bool)
    ensures hit == OffsetThreat(bd, Pos(kr, kc), KingDeltas, Piece(King, opp))
  {
    var p := Piece(King, opp);
    for dr := -1 to 2
      invariant forall j :: 0 <= j < KingIndex(dr, -1) ==> !PieceAt(bd, kr + KingDeltas[j].0, kc + KingDeltas[j].1, p)
    {
      for dc := -1 to 2
        invariant forall j :: 0 <= j < KingIndex(dr, dc) ==> !PieceAt(bd, kr + KingDeltas[j].0, kc + KingDeltas[j].1, p)
      {
        if !(dr == 0 && dc == 0) {
          KingDeltaAt(dr, dc);
          var rr, cc := kr + dr, kc + dc;
          if InBounds(rr, cc) && bd[rr][cc].Occupied? && bd[rr][cc].piece.side == opp && bd[rr][cc].piece.kind == King {
            return true;
          }
        }
      }
    }
    return false;
  }

  /** kingInCheckForBoard: true when the side has no king or its king is attacked. */
  method KingInCheckForBoard(bd: Board, side: Side) returns (inCheck: bool)
    ensures inCheck == InCheck(bd, side)
  {
    var kr, kc := LocateKing(bd, side);
    if kr == -1 {
      return true;
    }
    var opp := Opponent(side);
    inCheck := PawnAttack(bd, kr, kc, opp);
    if inCheck {
      return;
    }
    inCheck := OffsetAttack(bd, kr, kc, KnightDeltas, Piece(Knight, opp));
    if inCheck {
      return;
    }
    inCheck := SlideAttack(bd, kr, kc, DiagDirs, Bishop, opp);
    if inCheck {
      return;
    }
    inCheck := SlideAttack(bd, kr, kc, OrthDirs, Rook, opp);
    if inCheck {
      return;
    }
    inCheck := KingAttack(bd, kr, kc, opp);
  }
}
