// Check detection against move generation: the five patterns that
// kingInCheckForBoard looks for outward from the king are exactly the ways an
// enemy piece can capture on the king's square by its own pseudo-moves. So the
// detector agrees with "some enemy piece has a pseudo-move onto the king".

module Attacks {
  import opened Chessboard
  import opened MoveGen
  import opened Check

  function Neg(d: Delta): Delta {
    (-d.0, -d.1)
  }

  /** Some piece on the board has a capturing pseudo-move onto k. */
  predicate Attacked(b: Board, k: Pos) {
    exists sr, sc :: 0 <= sr < 8 && 0 <= sc < 8 && Move(k.r, k.c, true) in PseudoMoves(b, sr, sc)
  }

  // ---------------------------------------------------------------------
  // Symmetry of the offset and direction tables.

  lemma StepDeltasSymmetric(kind: Kind)
    ensures |StepDeltas(kind)| == 8
    ensures forall i :: 0 <= i < 8 ==> StepDeltas(kind)[7 - i] == Neg(StepDeltas(kind)[i])
  {
  }

  lemma DirsSymmetric()
    ensures forall d :: d in DiagDirs ==> Neg(d) in DiagDirs && IsDir(d.0, d.1)
    ensures forall d :: d in OrthDirs ==> Neg(d) in OrthDirs && IsDir(d.0, d.1)
    ensures forall k :: k == Bishop || k == Queen ==> forall d :: d in DiagDirs ==> d in SliderDirs(k)
    ensures forall k :: k == Rook || k == Queen ==> forall d :: d in OrthDirs ==> d in SliderDirs(k)
    ensures forall d :: d in SliderDirs(Bishop) ==> d in DiagDirs
    ensures forall d :: d in SliderDirs(Rook) ==> d in OrthDirs
    ensures forall d :: d in SliderDirs(Queen) ==> d in DiagDirs || d in OrthDirs
  {
  }

  // ---------------------------------------------------------------------
  // Paths along a ray.

  lemma OffsetStep(x: int, dx: int, j: int)
    requires -1 <= dx <= 1
    ensures Offset(x + dx, dx, j) == Offset(x, dx, j + 1)
  {
  }

  /** The j-th square of the ray from (r, c) is on the board and empty. */
  predicate FreeAt(b: Board, r: int, c: int, dr: int, dc: int, j: int) {
    EmptyAt(b, Offset(r, dr, j), Offset(c, dc, j))
  }

  /** A clear path is n empty squares, one per step. */
  lemma {:induction false} ClearPathSquares(b: Board, r: int, c: int, dr: int, dc: int, n: nat)
    requires IsDir(dr, dc)
    ensures ClearPath(b, r, c, dr, dc, n) <==> forall j :: 0 <= j < n ==> FreeAt(b, r, c, dr, dc, j)
    decreases n
  {
    if n > 0 {
      var r1, c1 := r + dr, c + dc;
      ClearPathSquares(b, r1, c1, dr, dc, n - 1);
      forall j | 0 <= j < n - 1
        ensures FreeAt(b, r1, c1, dr, dc, j) == FreeAt(b, r, c, dr, dc, j + 1)
      {
        OffsetStep(r, dr, j);
        OffsetStep(c, dc, j);
      }
      if forall j :: 0 <= j < n ==> FreeAt(b, r, c, dr, dc, j) {
        assert FreeAt(b, r, c, dr, dc, 0);
      }
      if ClearPath(b, r, c, dr, dc, n) {
        forall j | 0 <= j < n
          ensures FreeAt(b, r, c, dr, dc, j)
        {
          if j > 0 {
            assert FreeAt(b, r1, c1, dr, dc, j - 1);
          }
        }
      }
    }
  }

  /** Walked backwards from the square after its end, a clear path is still clear. */
  lemma ClearPathReversed(b: Board, r: int, c: int, dr: int, dc: int, n: nat)
    requires IsDir(dr, dc) && ClearPath(b, r, c, dr, dc, n)
    ensures ClearPath(b, Offset(r, dr, n) - dr, Offset(c, dc, n) - dc, -dr, -dc, n)
  {
    var r', c' := Offset(r, dr, n) - dr, Offset(c, dc, n) - dc;
    var dr', dc' := -dr, -dc;
    ClearPathSquares(b, r, c, dr, dc, n);
    ClearPathSquares(b, r', c', dr', dc', n);
    forall j | 0 <= j < n
      ensures FreeAt(b, r', c', dr', dc', j)
    {
      assert FreeAt(b, r, c, dr, dc, n - 1 - j);
    }
  }

  /** The first occupied square of a ray lies n steps out, past a clear path. */
  lemma {:induction false} FirstOccupiedIsReached(b: Board, r: int, c: int, dr: int, dc: int) returns (n: nat)
    requires IsDir(dr, dc) && FirstOccupied(b, r, c, dr, dc).Occupied?
    ensures ClearPath(b, r, c, dr, dc, n)
    ensures InBounds(Offset(r, dr, n), Offset(c, dc, n))
    ensures b[Offset(r, dr, n)][Offset(c, dc, n)] == FirstOccupied(b, r, c, dr, dc)
    decreases if InBounds(r, c) then Room(r, dr) + Room(c, dc) else 0
  {
    if b[r][c].Empty? {
      var n' := FirstOccupiedIsReached(b, r + dr, c + dc, dr, dc);
      OffsetStep(r, dr, n');
      OffsetStep(c, dc, n');
      n := n' + 1;
    } else {
      n := 0;
    }
  }

  /** An occupied square past a clear path is the first occupied square of the ray. */
  lemma {:induction false} ReachedIsFirstOccupied(b: Board, r: int, c: int, dr: int, dc: int, n: nat)
    requires IsDir(dr, dc) && ClearPath(b, r, c, dr, dc, n)
    requires InBounds(Offset(r, dr, n), Offset(c, dc, n)) && b[Offset(r, dr, n)][Offset(c, dc, n)].Occupied?
    ensures FirstOccupied(b, r, c, dr, dc) == b[Offset(r, dr, n)][Offset(c, dc, n)]
    decreases n
  {
    if n > 0 {
      OffsetStep(r, dr, n - 1);
      OffsetStep(c, dc, n - 1);
      ReachedIsFirstOccupied(b, r + dr, c + dc, dr, dc, n - 1);
    }
  }

  // ---------------------------------------------------------------------
  // Each detector pattern is an enemy capture, and back.

  lemma PawnThreatIsAttack(b: Board, k: Coord, side: Side)
    requires b[k.r][k.c].Occupied? && b[k.r][k.c].piece.side == side
    requires PawnThreat(b, k, Opponent(side))
    ensures Attacked(b, k)
  {
    var opp := Opponent(side);
    var m := Move(k.r, k.c, true);
    var sr := k.r - PawnDir(opp);
    var sc := if PieceAt(b, sr, k.c - 1, Piece(Pawn, opp)) then k.c - 1 else k.c + 1;
    PawnMoveRules(b, sr, sc, opp, m);
    assert InBounds(sr, sc) && m in PseudoMoves(b, sr, sc);
  }

  lemma StepThreatIsAttack(b: Board, k: Coord, side: Side, kind: Kind)
    requires b[k.r][k.c].Occupied? && b[k.r][k.c].piece.side == side
    requires kind == Knight || kind == King
    requires OffsetThreat(b, k, StepDeltas(kind), Piece(kind, Opponent(side)))
    ensures Attacked(b, k)
  {
    var opp := Opponent(side);
    var ds := StepDeltas(kind);
    var m := Move(k.r, k.c, true);
    var i :| 0 <= i < |ds| && PieceAt(b, k.r + ds[i].0, k.c + ds[i].1, Piece(kind, opp));
    var sr, sc := k.r + ds[i].0, k.c + ds[i].1;
    assert InBounds(sr, sc) && b[sr][sc] == Occupied(Piece(kind, opp));
    StepDeltasSymmetric(kind);
    assert StepHits(ds, 7 - i, sr, sc, m);
    StepperMoveRules(b, sr, sc, kind, opp, m);
    assert InBounds(sr, sc) && m in PseudoMoves(b, sr, sc);
  }

  /**
    * Seen from k, the first occupied square in direction d holds a piece
    * whose ray in the opposite direction runs back over the same empty
    * squares onto k.
    */
  lemma SeenPieceSlidesBack(b: Board, k: Coord, d: Delta, opp: Side) returns (sr: int, sc: int, n: nat)
    requires IsDir(d.0, d.1) && FirstSeen(b, k, d).Occupied?
    requires b[k.r][k.c].Occupied? && b[k.r][k.c].piece.side != opp
    ensures InBounds(sr, sc) && b[sr][sc] == FirstSeen(b, k, d)
    ensures SlidesTo(b, opp, sr, sc, Neg(d), n, Move(k.r, k.c, true))
  {
    n := FirstOccupiedIsReached(b, k.r + d.0, k.c + d.1, d.0, d.1);
    sr, sc := Offset(k.r + d.0, d.0, n), Offset(k.c + d.1, d.1, n);
    ClearPathReversed(b, k.r + d.0, k.c + d.1, d.0, d.1, n);
  }

  /** A piece whose ray reaches k, walked back from k, is the first occupied square seen. */
  lemma SlidingPieceIsSeen(b: Board, k: Coord, sr: int, sc: int, e: Delta, n: nat, opp: Side)
    requires IsDir(e.0, e.1) && InBounds(sr, sc) && b[sr][sc].Occupied?
    requires SlidesTo(b, opp, sr, sc, e, n, Move(k.r, k.c, true))
    ensures FirstSeen(b, k, Neg(e)) == b[sr][sc]
  {
    ClearPathReversed(b, sr + e.0, sc + e.1, e.0, e.1, n);
    var d := Neg(e);
    assert Offset(k.r + d.0, d.0, n) == sr && Offset(k.c + d.1, d.1, n) == sc;
    ReachedIsFirstOccupied(b, k.r + d.0, k.c + d.1, d.0, d.1, n);
  }

  lemma SlideThreatIsAttack(b: Board, k: Coord, side: Side, kind: Kind, ds: seq<Delta>)
    requires b[k.r][k.c].Occupied? && b[k.r][k.c].piece.side == side
    requires (kind == Bishop && ds == DiagDirs) || (kind == Rook && ds == OrthDirs)
    requires AllDirs(ds) && SlideThreat(b, k, ds, kind, Opponent(side))
    ensures Attacked(b, k)
  {
    var opp := Opponent(side);
    var m := Move(k.r, k.c, true);
    var i :| 0 <= i < |ds| && Slider(FirstSeen(b, k, ds[i]), kind, opp);
    var sr, sc, n := SeenPieceSlidesBack(b, k, ds[i], opp);
    var attacker := b[sr][sc].piece.kind;
    DirsSymmetric();
    var e := Neg(ds[i]);
    assert e in SliderDirs(attacker);
    var j :| 0 <= j < |SliderDirs(attacker)| && SliderDirs(attacker)[j] == e;
    SliderMoveRules(b, sr, sc, attacker, opp, m);
    assert InBounds(sr, sc) && m in PseudoMoves(b, sr, sc);
  }

  lemma AttackIsThreat(b: Board, k: Coord, side: Side, sr: int, sc: int)
    requires b[k.r][k.c].Occupied? && b[k.r][k.c].piece.side == side
    requires InBounds(sr, sc) && Move(k.r, k.c, true) in PseudoMoves(b, sr, sc)
    ensures Threatened(b, k, Opponent(side))
  {
    var m := Move(k.r, k.c, true);
    PseudoMovesSound(b, sr, sc, m);
    var Piece(kind, opp) := b[sr][sc].piece;
    assert opp == Opponent(side);
    match kind
    case Pawn =>
      PawnMoveRules(b, sr, sc, opp, m);
      assert PawnThreat(b, k, opp);
    case Knight =>
      StepAttackIsThreat(b, k, sr, sc, kind, opp);
    case King =>
      StepAttackIsThreat(b, k, sr, sc, kind, opp);
    case _ =>
      SlideAttackIsThreat(b, k, sr, sc, kind, opp);
  }

  lemma StepAttackIsThreat(b: Board, k: Coord, sr: int, sc: int, kind: Kind, opp: Side)
    requires kind == Knight || kind == King
    requires InBounds(sr, sc) && b[sr][sc] == Occupied(Piece(kind, opp))
    requires Move(k.r, k.c, true) in PseudoMoves(b, sr, sc)
    ensures OffsetThreat(b, k, StepDeltas(kind), Piece(kind, opp))
  {
    var ds := StepDeltas(kind);
    var m := Move(k.r, k.c, true);
    StepperMoveRules(b, sr, sc, kind, opp, m);
    var i :| StepHits(ds, i, sr, sc, m);
    StepDeltasSymmetric(kind);
    assert PieceAt(b, k.r + ds[7 - i].0, k.c + ds[7 - i].1, Piece(kind, opp));
  }

  lemma SlideAttackIsThreat(b: Board, k: Coord, sr: int, sc: int, kind: Kind, opp: Side)
    requires kind == Bishop || kind == Rook || kind == Queen
    requires InBounds(sr, sc) && b[sr][sc] == Occupied(Piece(kind, opp))
    requires Move(k.r, k.c, true) in PseudoMoves(b, sr, sc)
    ensures SlideThreat(b, k, DiagDirs, Bishop, opp) || SlideThreat(b, k, OrthDirs, Rook, opp)
  {
    var m := Move(k.r, k.c, true);
    SliderMoveRules(b, sr, sc, kind, opp, m);
    SliderDirsAreDirs(kind);
    var i, n: nat :| 0 <= i < |SliderDirs(kind)| && SlidesTo(b, opp, sr, sc, SliderDirs(kind)[i], n, m);
    SlidingPieceIsSeen(b, k, sr, sc, SliderDirs(kind)[i], n, opp);
    SeenSliderThreatens(b, k, SliderDirs(kind)[i], kind, opp);
  }

  /** A bishop, rook or queen seen from k against one of its own directions is one of the slide patterns. */
  lemma SeenSliderThreatens(b: Board, k: Coord, e: Delta, kind: Kind, opp: Side)
    requires kind == Bishop || kind == Rook || kind == Queen
    requires e in SliderDirs(kind) && IsDir(e.0, e.1)
    requires FirstSeen(b, k, Neg(e)) == Occupied(Piece(kind, opp))
    ensures SlideThreat(b, k, DiagDirs, Bishop, opp) || SlideThreat(b, k, OrthDirs, Rook, opp)
  {
    var d := Neg(e);
    DirsSymmetric();
    if e in DiagDirs && kind != Rook {
      var j :| 0 <= j < |DiagDirs| && DiagDirs[j] == d;
      assert Slider(FirstSeen(b, k, DiagDirs[j]), Bishop, opp);
    } else {
      var j :| 0 <= j < |OrthDirs| && OrthDirs[j] == d;
      assert Slider(FirstSeen(b, k, OrthDirs[j]), Rook, opp);
    }
  }

  /**
    * The detector's five patterns around a piece of `side` hold exactly when
    * some piece (necessarily of the other side) has a capturing pseudo-move
    * onto its square.
    */
  lemma ThreatenedIffAttacked(b: Board, k: Coord, side: Side)
    requires b[k.r][k.c].Occupied? && b[k.r][k.c].piece.side == side
    ensures Threatened(b, k, Opponent(side)) <==> Attacked(b, k)
  {
    var opp := Opponent(side);
    if Threatened(b, k, opp) {
      if PawnThreat(b, k, opp) {
        PawnThreatIsAttack(b, k, side);
      } else if OffsetThreat(b, k, KnightDeltas, Piece(Knight, opp)) {
        StepThreatIsAttack(b, k, side, Knight);
      } else if SlideThreat(b, k, DiagDirs, Bishop, opp) {
        SlideThreatIsAttack(b, k, side, Bishop, DiagDirs);
      } else if SlideThreat(b, k, OrthDirs, Rook, opp) {
        SlideThreatIsAttack(b, k, side, Rook, OrthDirs);
      } else {
        StepThreatIsAttack(b, k, side, King);
      }
    }
    if Attacked(b, k) {
      var sr, sc :| InBounds(sr, sc) && Move(k.r, k.c, true) in PseudoMoves(b, sr, sc);
      AttackIsThreat(b, k, side, sr, sc);
    }
  }

  /**
    * kingInCheckForBoard answers true exactly when the side has no king, or
    * some enemy piece could capture its (first) king by a pseudo-move.
    */
  lemma InCheckIffAttacked(b: Board, side: Side)
    ensures InCheck(b, side) <==> FindKing(b, side).None? || Attacked(b, FindKing(b, side).value)
  {
    match FindKing(b, side)
    case None =>
    case Some(k) =>
      ThreatenedIffAttacked(b, k, side);
  }
}
