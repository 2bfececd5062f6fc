// Pseudo-legal move generation (genPseudoMoves): the moves a piece could make
// by its movement pattern and the occupancy of the board, ignoring check.
//
// The functions below state what the generator produces, piece by piece and in
// the source's order; GenPseudoMoves follows the source's loops and is proved
// to produce exactly that list.

module MoveGen {
  import opened Chessboard

  type Delta = (int, int)

  /** The row step of a pawn: white moves toward row 0, black toward row 7. */
  function PawnDir(side: Side): int {
    if side == White then -1 else 1
  }

  /** The row from which a pawn may advance two squares. */
  function StartRow(side: Side): int {
    if side == White then 6 else 1
  }

  const KnightDeltas: seq<Delta> := [(-2, -1), (-2, 1), (-1, -2), (-1, 2), (1, -2), (1, 2), (2, -1), (2, 1)]

  /** The eight neighbours in the order of the source's nested dr/dc loops. */
  const KingDeltas: seq<Delta> := [(-1, -1), (-1, 0), (-1, 1), (0, -1), (0, 1), (1, -1), (1, 0), (1, 1)]

  const DiagDirs: seq<Delta> := [(-1, -1), (-1, 1), (1, -1), (1, 1)]

  const OrthDirs: seq<Delta> := [(-1, 0), (1, 0), (0, -1), (0, 1)]

  /** Ray directions of a sliding piece: diagonals first, then orthogonals. */
  function SliderDirs(k: Kind): seq<Delta> {
    (if k == Bishop || k == Queen then DiagDirs else []) +
    (if k == Rook || k == Queen then OrthDirs else [])
  }

  /**
    * A move is well formed for a piece of `side`: it is on the board, its
    * destination is empty or holds a piece of the other side, and it is
    * flagged as a capture exactly when the destination is occupied.
    */
  predicate Lands(b: Board, side: Side, m: Move) {
    && InBounds(m.r, m.c)
    && (b[m.r][m.c].Empty? || b[m.r][m.c].piece.side != side)
    && (m.capture <==> b[m.r][m.c].Occupied?)
  }

  /** addIf: the square, if it is on the board and not held by `side`. */
  function AddIf(b: Board, side: Side, r: int, c: int): seq<Move> {
    if InBounds(r, c) && (b[r][c].Empty? || b[r][c].piece.side != side)
    then [Move(r, c, b[r][c].Occupied?)]
    else []
  }

  /** addIf applied to each offset in turn (knight and king). */
  function Steps(b: Board, side: Side, r: int, c: int, ds: seq<Delta>): seq<Move>
  {
    if ds == [] then []
    else
      var d := ds[|ds| - 1];
      Steps(b, side, r, c, ds[..|ds| - 1]) + AddIf(b, side, r + d.0, c + d.1)
  }

  /** The diagonal capture of a pawn onto (rr, cc): only onto an enemy piece. */
  function PawnCapture(b: Board, side: Side, rr: int, cc: int): seq<Move> {
    if InBounds(rr, cc) && b[rr][cc].Occupied? && b[rr][cc].piece.side != side
    then [Move(rr, cc, true)]
    else []
  }

  /** The moves in `pushes` followed by the diagonal captures onto row rr, one per column step. */
  function PawnCaptures(b: Board, side: Side, rr: int, c: int, pushes: seq<Move>, dcs: seq<int>): seq<Move>
  {
    if dcs == [] then pushes
    else PawnCaptures(b, side, rr, c, pushes, dcs[..|dcs| - 1]) + PawnCapture(b, side, rr, c + dcs[|dcs| - 1])
  }

  /** The one-square advance: only onto an empty square. */
  function PawnPush(b: Board, r: int, c: int, side: Side): seq<Move> {
    var dir := PawnDir(side);
    if InBounds(r + dir, c) && b[r + dir][c].Empty? then [Move(r + dir, c, false)] else []
  }

  /** The two-square advance: only from the start row, over and onto empty squares. */
  function PawnDouble(b: Board, r: int, c: int, side: Side): seq<Move>
    requires InBounds(r, c)
  {
    var dir := PawnDir(side);
    if r == StartRow(side) && b[r + dir][c].Empty? && b[r + 2 * dir][c].Empty?
    then [Move(r + 2 * dir, c, false)] else []
  }

  function PawnMoves(b: Board, r: int, c: int, side: Side): seq<Move>
    requires InBounds(r, c)
  {
    PawnCaptures(b, side, r + PawnDir(side), c, PawnPush(b, r, c, side) + PawnDouble(b, r, c, side), [-1, 1])
  }

  // ---------------------------------------------------------------------
  // Rays of the sliding pieces.

  predicate IsDir(dr: int, dc: int) {
    -1 <= dr <= 1 && -1 <= dc <= 1 && (dr != 0 || dc != 0)
  }

  predicate AllDirs(ds: seq<Delta>) {
    forall i :: 0 <= i < |ds| ==> IsDir(ds[i].0, ds[i].1)
  }

  /** The square n steps from x along a unit step dx. */
  function Offset(x: int, dx: int, n: int): int {
    if dx > 0 then x + n else if dx < 0 then x - n else x
  }

  /** How many more steps a ray along dx can take from x before it leaves the board. */
  function Room(x: int, dx: int): nat
    requires 0 <= x < 8
  {
    if dx > 0 then 8 - x else if dx < 0 then x + 1 else 0
  }

  /** One ray, starting at (r, c): empty squares, then the first occupied one if it is an enemy. */
  function Ray(b: Board, side: Side, r: int, c: int, dr: int, dc: int): seq<Move>
    requires IsDir(dr, dc)
    decreases if InBounds(r, c) then Room(r, dr) + Room(c, dc) else 0
  {
    if !InBounds(r, c) then []
    else if b[r][c].Empty? then [Move(r, c, false)] + Ray(b, side, r + dr, c + dc, dr, dc)
    else if b[r][c].piece.side != side then [Move(r, c, true)]
    else []
  }

  /** The ray leaving (r, c) in direction d (its first square is the neighbour). */
  function RayFrom(b: Board, side: Side, r: int, c: int, d: Delta): seq<Move>
    requires IsDir(d.0, d.1)
  {
    Ray(b, side, r + d.0, c + d.1, d.0, d.1)
  }

  /** The rays from (r, c) in each direction, in order. */
  function Rays(b: Board, side: Side, r: int, c: int, dirs: seq<Delta>): seq<Move>
    requires AllDirs(dirs)
  {
    if dirs == [] then []
    else Rays(b, side, r, c, dirs[..|dirs| - 1]) + RayFrom(b, side, r, c, dirs[|dirs| - 1])
  }

  lemma SliderDirsAreDirs(k: Kind)
    ensures AllDirs(SliderDirs(k))
  {
    assert AllDirs(DiagDirs) && AllDirs(OrthDirs);
  }

  /** genPseudoMoves: the moves of the piece on (r, c), in the source's order. */
  function PseudoMoves(b: Board, r: int, c: int): seq<Move>
    requires InBounds(r, c)
  {
    match b[r][c]
    case Empty => []
    case Occupied(Piece(kind, side)) =>
      match kind
      case Pawn => PawnMoves(b, r, c, side)
      case Knight => Steps(b, side, r, c, KnightDeltas)
      case King => Steps(b, side, r, c, KingDeltas)
      case _ => SliderDirsAreDirs(kind); Rays(b, side, r, c, SliderDirs(kind))
  }

  // ---------------------------------------------------------------------
  // What each list holds.

  /** The n-step prefix of a ray from (r, c) is free: its first n squares are on the board and empty. */
  predicate ClearPath(b: Board, r: int, c: int, dr: int, dc: int, n: nat)
    decreases n
  {
    n == 0 || (EmptyAt(b, r, c) && ClearPath(b, r + dr, c + dc, dr, dc, n - 1))
  }

  /** m is n steps along the ray from (r, c), the squares before it are free, and it lands. */
  predicate OnRayAt(b: Board, side: Side, r: int, c: int, dr: int, dc: int, n: nat, m: Move) {
    && m.r == Offset(r, dr, n)
    && m.c == Offset(c, dc, n)
    && ClearPath(b, r, c, dr, dc, n)
    && Lands(b, side, m)
  }

  /** Every move on a ray is n steps along it, past free squares, and lands. */
  lemma {:induction false} RayMemberIsReached(b: Board, side: Side, r: int, c: int, dr: int, dc: int, m: Move)
    returns (n: nat)
    requires IsDir(dr, dc)
    requires m in Ray(b, side, r, c, dr, dc)
    ensures OnRayAt(b, side, r, c, dr, dc, n, m)
    decreases if InBounds(r, c) then Room(r, dr) + Room(c, dc) else 0
  {
    if InBounds(r, c) && b[r][c].Empty? && m != Move(r, c, false) {
      var n' := RayMemberIsReached(b, side, r + dr, c + dc, dr, dc, m);
      n := n' + 1;
    } else {
      n := 0;
    }
  }

  /** Every square n steps along the ray past free squares, if it lands, is on the ray. */
  lemma {:induction false} ReachedIsRayMember(b: Board, side: Side, r: int, c: int, dr: int, dc: int, n: nat, m: Move)
    requires IsDir(dr, dc)
    requires OnRayAt(b, side, r, c, dr, dc, n, m)
    ensures m in Ray(b, side, r, c, dr, dc)
    decreases n
  {
    if n > 0 {
      assert OnRayAt(b, side, r + dr, c + dc, dr, dc, n - 1, m);
      ReachedIsRayMember(b, side, r + dr, c + dc, dr, dc, n - 1, m);
    }
  }

  /**
    * A ray holds each empty square up to the first occupied one, that square
    * (as a capture) only if it holds an enemy piece, and nothing beyond.
    */
  lemma RayMembers(b: Board, side: Side, r: int, c: int, dr: int, dc: int, m: Move)
    requires IsDir(dr, dc)
    ensures m in Ray(b, side, r, c, dr, dc) <==> exists n: nat :: OnRayAt(b, side, r, c, dr, dc, n, m)
  {
    if m in Ray(b, side, r, c, dr, dc) {
      var n := RayMemberIsReached(b, side, r, c, dr, dc, m);
    }
    if exists n: nat :: OnRayAt(b, side, r, c, dr, dc, n, m) {
      var n: nat :| OnRayAt(b, side, r, c, dr, dc, n, m);
      ReachedIsRayMember(b, side, r, c, dr, dc, n, m);
    }
  }

  /** The i-th offset of ds leads from (r, c) to the destination of m. */
  predicate StepHits(ds: seq<Delta>, i: int, r: int, c: int, m: Move) {
    0 <= i < |ds| && m.r == r + ds[i].0 && m.c == c + ds[i].1
  }

  /** addIf over a list of offsets yields exactly the offset squares on which a move lands. */
  lemma {:induction false} StepsMembers(b: Board, side: Side, r: int, c: int, ds: seq<Delta>, m: Move)
    ensures m in Steps(b, side, r, c, ds) <==> Lands(b, side, m) && exists i :: StepHits(ds, i, r, c, m)
  {
    if ds != [] {
      var n := |ds| - 1;
      var front := ds[..n];
      StepsMembers(b, side, r, c, front, m);
      assert Steps(b, side, r, c, ds) == Steps(b, side, r, c, front) + AddIf(b, side, r + ds[n].0, c + ds[n].1);
      if m in Steps(b, side, r, c, front) {
        var i :| StepHits(front, i, r, c, m);
        assert StepHits(ds, i, r, c, m);
      } else if m in Steps(b, side, r, c, ds) {
        assert StepHits(ds, n, r, c, m);
      }
      if exists i :: StepHits(ds, i, r, c, m) {
        var i :| StepHits(ds, i, r, c, m);
        if i < n {
          assert StepHits(front, i, r, c, m);
        } else if Lands(b, side, m) {
          assert AddIf(b, side, r + ds[n].0, c + ds[n].1) == [m];
        }
      }
    }
  }

  lemma {:induction false} RaysMembers(b: Board, side: Side, r: int, c: int, dirs: seq<Delta>, m: Move)
    requires AllDirs(dirs)
    ensures m in Rays(b, side, r, c, dirs) <==>
      exists i :: 0 <= i < |dirs| && m in RayFrom(b, side, r, c, dirs[i])
  {
    if dirs != [] {
      var n := |dirs| - 1;
      var front := dirs[..n];
      RaysMembers(b, side, r, c, front, m);
      if m in Rays(b, side, r, c, dirs) {
        if m in RayFrom(b, side, r, c, dirs[n]) {
          assert 0 <= n < |dirs| && m in RayFrom(b, side, r, c, dirs[n]);
        } else {
          var i :| 0 <= i < |front| && m in RayFrom(b, side, r, c, front[i]);
          assert front[i] == dirs[i];
        }
      }
      if exists i :: 0 <= i < |dirs| && m in RayFrom(b, side, r, c, dirs[i]) {
        var i :| 0 <= i < |dirs| && m in RayFrom(b, side, r, c, dirs[i]);
        if i < n {
          assert front[i] == dirs[i];
        }
      }
    }
  }

  /**
    * The pawn rules: one step forward onto an empty square; two steps only
    * from the start row and only over an empty square onto an empty square;
    * diagonally forward only onto an enemy piece.
    */
  lemma PawnMoveRules(b: Board, r: int, c: int, side: Side, m: Move)
    requires InBounds(r, c) && b[r][c] == Occupied(Piece(Pawn, side))
    ensures m in PseudoMoves(b, r, c) <==>
      || (m == Move(r + PawnDir(side), c, false) && EmptyAt(b, r + PawnDir(side), c))
      || (&& m == Move(r + 2 * PawnDir(side), c, false) && r == StartRow(side)
          && EmptyAt(b, r + PawnDir(side), c) && EmptyAt(b, r + 2 * PawnDir(side), c))
      || (&& m.capture && m.r == r + PawnDir(side) && (m.c == c - 1 || m.c == c + 1)
          && InBounds(m.r, m.c) && b[m.r][m.c].Occupied? && b[m.r][m.c].piece.side != side)
  {
    PawnMovesList(b, r, c, side);
    assert PseudoMoves(b, r, c) == PawnMoves(b, r, c, side);
  }

  /** The pawn's list spelled out: push, double push, left capture, right capture. */
  lemma PawnMovesList(b: Board, r: int, c: int, side: Side)
    requires InBounds(r, c)
    ensures PawnMoves(b, r, c, side) ==
      PawnPush(b, r, c, side) + PawnDouble(b, r, c, side) +
      PawnCapture(b, side, r + PawnDir(side), c - 1) + PawnCapture(b, side, r + PawnDir(side), c + 1)
  {
    var dir := PawnDir(side);
    var pushes := PawnPush(b, r, c, side) + PawnDouble(b, r, c, side);
    assert [-1, 1][..1] == [-1] && [-1][..0] == [];
    assert PawnCaptures(b, side, r + dir, c, pushes, [-1]) == pushes + PawnCapture(b, side, r + dir, c - 1);
  }

  /**
    * genPseudoMoves is sound: every move lies on the board, lands on an empty
    * square or an enemy piece, and is a capture exactly when its destination
    * is occupied; an empty origin yields no moves at all.
    */
  lemma PseudoMovesSound(b: Board, r: int, c: int, m: Move)
    requires InBounds(r, c) && m in PseudoMoves(b, r, c)
    ensures b[r][c].Occupied? && Lands(b, b[r][c].piece.side, m)
  {
    var Piece(kind, side) := b[r][c].piece;
    match kind
    case Pawn => PawnMoveRules(b, r, c, side, m);
    case Knight => StepsMembers(b, side, r, c, KnightDeltas, m);
    case King => StepsMembers(b, side, r, c, KingDeltas, m);
    case _ =>
      SliderDirsAreDirs(kind);
      var dirs := SliderDirs(kind);
      RaysMembers(b, side, r, c, dirs, m);
      var i :| 0 <= i < |dirs| && m in RayFrom(b, side, r, c, dirs[i]);
      var n := RayMemberIsReached(b, side, r + dirs[i].0, c + dirs[i].1, dirs[i].0, dirs[i].1, m);
  }

  /** m is n steps along the ray leaving (r, c) in direction d, past free squares, and lands. */
  predicate SlidesTo(b: Board, side: Side, r: int, c: int, d: Delta, n: nat, m: Move) {
    OnRayAt(b, side, r + d.0, c + d.1, d.0, d.1, n, m)
  }

  /**
    * Bishop, rook and queen: a move is generated exactly when it is reached
    * along one of the piece's directions (diagonals for the bishop,
    * orthogonals for the rook, all eight for the queen) over empty squares.
    */
  lemma SliderMoveRules(b: Board, r: int, c: int, kind: Kind, side: Side, m: Move)
    requires InBounds(r, c) && b[r][c] == Occupied(Piece(kind, side))
    requires kind == Bishop || kind == Rook || kind == Queen
    ensures m in PseudoMoves(b, r, c) <==>
      exists i, n: nat :: 0 <= i < |SliderDirs(kind)| && SlidesTo(b, side, r, c, SliderDirs(kind)[i], n, m)
  {
    SliderDirsAreDirs(kind);
    var dirs := SliderDirs(kind);
    assert PseudoMoves(b, r, c) == Rays(b, side, r, c, dirs);
    RaysMembers(b, side, r, c, dirs, m);
    if m in Rays(b, side, r, c, dirs) {
      var i :| 0 <= i < |dirs| && m in RayFrom(b, side, r, c, dirs[i]);
      var n := RayMemberIsReached(b, side, r + dirs[i].0, c + dirs[i].1, dirs[i].0, dirs[i].1, m);
      assert SlidesTo(b, side, r, c, dirs[i], n, m);
    } else {
      forall i, n: nat | 0 <= i < |dirs| ensures !SlidesTo(b, side, r, c, dirs[i], n, m) {
        if SlidesTo(b, side, r, c, dirs[i], n, m) {
          ReachedIsRayMember(b, side, r + dirs[i].0, c + dirs[i].1, dirs[i].0, dirs[i].1, n, m);
        }
      }
    }
  }

  /** The offsets of a stepping piece. */
  function StepDeltas(kind: Kind): seq<Delta> {
    if kind == Knight then KnightDeltas else KingDeltas
  }

  /** Knight and king: a move is generated exactly when one of the piece's offsets reaches it and it lands. */
  lemma StepperMoveRules(b: Board, r: int, c: int, kind: Kind, side: Side, m: Move)
    requires InBounds(r, c) && b[r][c] == Occupied(Piece(kind, side))
    requires kind == Knight || kind == King
    ensures m in PseudoMoves(b, r, c) <==> Lands(b, side, m) && exists i :: StepHits(StepDeltas(kind), i, r, c, m)
  {
    StepsMembers(b, side, r, c, StepDeltas(kind), m);
  }

  // ---------------------------------------------------------------------
  // The generator as the source runs it.

  /** Position in KingDeltas of the neighbour (dr, dc) the nested loops reach next. */
  function KingIndex(dr: int, dc: int): int {
    3 * (dr + 1) + (dc + 1) - (if dr > 0 || (dr == 0 && dc > 0) then 1 else 0)
  }

  lemma KingDeltaAt(dr: int, dc: int)
    requires -1 <= dr <= 1 && -1 <= dc <= 1 && (dr != 0 || dc != 0)
    ensures 0 <= KingIndex(dr, dc) < 8 && KingDeltas[KingIndex(dr, dc)] == (dr, dc)
  {
  }

  /** The offsets (dr, -1) up to (dr, dcEnd - 1) the inner king loop visits, skipping (0, 0). */
  function RowDeltas(dr: int, dcEnd: int): seq<Delta>
    decreases dcEnd + 1
  {
    if dcEnd <= -1 then []
    else RowDeltas(dr, dcEnd - 1) + (if dr == 0 && dcEnd - 1 == 0 then [] else [(dr, dcEnd - 1)])
  }

  /** The offsets of the rows -1 up to drEnd - 1 the outer king loop has finished. */
  function KingVisited(drEnd: int): seq<Delta>
    decreases drEnd + 1
  {
    if drEnd <= -1 then [] else KingVisited(drEnd - 1) + RowDeltas(drEnd - 1, 2)
  }

  /** The nested loops visit the neighbours in the order of the offset table. */
  lemma KingVisitedAll()
    ensures KingVisited(2) == KingDeltas
  {
    assert RowDeltas(-1, 2) == [(-1, -1), (-1, 0), (-1, 1)];
    assert RowDeltas(0, 2) == [(0, -1), (0, 1)];
    assert RowDeltas(1, 2) == [(1, -1), (1, 0), (1, 1)];
  }

  /** The inner loop's step from dc to dc + 1, after the rows already visited. */
  lemma RowDeltasNext(dr: int, dc: int, done: seq<Delta>)
    requires -1 <= dc
    ensures done + RowDeltas(dr, dc + 1) == done + RowDeltas(dr, dc) + (if dr == 0 && dc == 0 then [] else [(dr, dc)])
  {
  }

  /** One more offset at the end of a step list adds its addIf. */
  lemma StepsPush(b: Board, side: Side, r: int, c: int, ds: seq<Delta>, d: Delta)
    ensures Steps(b, side, r, c, ds + [d]) == Steps(b, side, r, c, ds) + AddIf(b, side, r + d.0, c + d.1)
  {
    assert (ds + [d])[..|ds|] == ds;
  }

  /**
    * genPseudoMoves, dispatching on the piece as the source's if-chain does;
    * each branch of the source is one method below.
    */
  method GenPseudoMoves(b: Board, r: int, c: int) returns (moves: seq<Move>)
    requires InBounds(r, c)
    ensures moves == PseudoMoves(b, r, c)
  {
    var p := b[r][c];
    if p.Empty? {
      return [];
    }
    var side, piece := p.piece.side, p.piece.kind;
    if piece == Pawn {
      moves := GenPawnMoves(b, r, c, side);
    } else if piece == Knight {
      moves := GenSteps(b, side, r, c, KnightDeltas);
    } else if piece == Bishop || piece == Rook || piece == Queen {
      moves := GenSliderMoves(b, side, r, c, piece);
    } else {
      moves := GenKingMoves(b, side, r, c);
    }
  }

  method GenPawnMoves(b: Board, r: int, c: int, side: Side) returns (moves: seq<Move>)
    requires InBounds(r, c)
    ensures moves == PawnMoves(b, r, c, side)
  {
    var dir := if side == White then -1 else 1;
    moves := GenPawnPushes(b, r, c, side);
    moves := GenPawnCaptures(b, side, r + dir, c, moves);
  }

  /** The pawn's single and double advance. */
  method GenPawnPushes(b: Board, r: int, c: int, side: Side) returns (moves: seq<Move>)
    requires InBounds(r, c)
    ensures moves == PawnPush(b, r, c, side) + PawnDouble(b, r, c, side)
  {
    moves := [];
    var dir := if side == White then -1 else 1;
    if InBounds(r + dir, c) && b[r + dir][c].Empty? {
      moves := moves + [Move(r + dir, c, false)];
    }
    assert moves == PawnPush(b, r, c, side);
    var startRow := if side == White then 6 else 1;
    if r == startRow && b[r + dir][c].Empty? && b[r + dir * 2][c].Empty? {
      moves := moves + [Move(r + dir * 2, c, false)];
    }
  }

  /** The pawn's `for (const dc of [-1, 1])` capture loop on the row ahead, rr. */
  method GenPawnCaptures(b: Board, side: Side, rr: int, c: int, pushes: seq<Move>) returns (moves: seq<Move>)
    ensures moves == PawnCaptures(b, side, rr, c, pushes, [-1, 1])
  {
    moves := pushes;
    var dcs := [-1, 1];
    for i := 0 to |dcs|
      invariant moves == PawnCaptures(b, side, rr, c, pushes, dcs[..i])
    {
      var cc := c + dcs[i];
      if InBounds(rr, cc) && b[rr][cc].Occupied? && b[rr][cc].piece.side != side {
        moves := moves + [Move(rr, cc, true)];
      }
      assert dcs[..i + 1][..i] == dcs[..i];
    }
    assert dcs[..|dcs|] == dcs;
  }

  /** One more offset of a step list: the list grows by that offset's addIf. */
  lemma StepsSnoc(b: Board, side: Side, r: int, c: int, ds: seq<Delta>, k: int)
    requires 0 <= k < |ds|
    ensures Steps(b, side, r, c, ds[..k + 1]) == Steps(b, side, r, c, ds[..k]) + AddIf(b, side, r + ds[k].0, c + ds[k].1)
  {
    assert ds[..k + 1][..k] == ds[..k];
  }

  /** The source's `addIf` closure: pushes (rr, cc) when it is on the board and not held by `side`. */
  method PushIfEnterable(b: Board, side: Side, moves: seq<Move>, rr: int, cc: int) returns (moves': seq<Move>)
    ensures moves' == moves + AddIf(b, side, rr, cc)
  {
    moves' := moves;
    if InBounds(rr, cc) {
      var t := b[rr][cc];
      if t.Empty? || t.piece.side != side {
        moves' := moves' + [Move(rr, cc, t.Occupied?)];
      }
    }
  }

  /** The knight's `deltas.forEach(addIf)`. */
  method GenSteps(b: Board, side: Side, r: int, c: int, deltas: seq<Delta>) returns (moves: seq<Move>)
    ensures moves == Steps(b, side, r, c, deltas)
  {
    moves := [];
    for i := 0 to |deltas|
      invariant moves == Steps(b, side, r, c, deltas[..i])
    {
      moves := PushIfEnterable(b, side, moves, r + deltas[i].0, c + deltas[i].1);
      StepsSnoc(b, side, r, c, deltas, i);
    }
    assert deltas[..|deltas|] == deltas;
  }

  /** One ray walked with the source's while loop. */
  method GenRay(b: Board, side: Side, r: int, c: int, d: Delta) returns (ray: seq<Move>)
    requires IsDir(d.0, d.1)
    ensures ray == RayFrom(b, side, r, c, d)
  {
    ray := [];
    var rr, cc := r + d.0, c + d.1;
    while InBounds(rr, cc)
      invariant RayFrom(b, side, r, c, d) == ray + Ray(b, side, rr, cc, d.0, d.1)
      decreases if InBounds(rr, cc) then Room(rr, d.0) + Room(cc, d.1) else 0
    {
      if b[rr][cc].Empty? {
        ghost var rest := Ray(b, side, rr + d.0, cc + d.1, d.0, d.1);
        assert Ray(b, side, rr, cc, d.0, d.1) == [Move(rr, cc, false)] + rest;
        assert (ray + [Move(rr, cc, false)]) + rest == ray + ([Move(rr, cc, false)] + rest);
        ray := ray + [Move(rr, cc, false)];
      } else {
        if b[rr][cc].piece.side != side {
          ray := ray + [Move(rr, cc, true)];
        }
        break;
      }
      rr, cc := rr + d.0, cc + d.1;
    }
  }

  /** The bishop, rook and queen branch: the piece's directions, then their rays. */
  method GenSliderMoves(b: Board, side: Side, r: int, c: int, piece: Kind) returns (moves: seq<Move>)
    requires piece == Bishop || piece == Rook || piece == Queen
    ensures AllDirs(SliderDirs(piece)) && moves == Rays(b, side, r, c, SliderDirs(piece))
  {
    var dirs: seq<Delta> := [];
    if piece == Bishop || piece == Queen {
      dirs := dirs + DiagDirs;
    }
    if piece == Rook || piece == Queen {
      dirs := dirs + OrthDirs;
    }
    assert dirs == SliderDirs(piece);
    SliderDirsAreDirs(piece);
    moves := GenRays(b, side, r, c, dirs);
  }

  /** The slider's `for (const [dr, dc] of dirs)` loop: one ray per direction, concatenated. */
  method GenRays(b: Board, side: Side, r: int, c: int, dirs: seq<Delta>) returns (moves: seq<Move>)
    requires AllDirs(dirs)
    ensures moves == Rays(b, side, r, c, dirs)
  {
    moves := [];
    for i := 0 to |dirs|
      invariant moves == Rays(b, side, r, c, dirs[..i])
    {
      var ray := GenRay(b, side, r, c, dirs[i]);
      moves := moves + ray;
      assert dirs[..i + 1][..i] == dirs[..i];
    }
    assert dirs[..|dirs|] == dirs;
  }

  /** The king's nested `for dr` / `for dc` loops over the eight neighbours. */
  method GenKingMoves(b: Board, side: Side, r: int, c: int) returns (moves: seq<Move>)
    ensures moves == Steps(b, side, r, c, KingDeltas)
  {
    moves := [];
    for dr := -1 to 2
      invariant moves == Steps(b, side, r, c, KingVisited(dr))
    {
      moves := KingRow(b, side, r, c, dr, moves);
    }
    KingVisitedAll();
  }

  /** The inner `for dc` loop of the king for one row offset dr. */
  method KingRow(b: Board, side: Side, r: int, c: int, dr: int, moves0: seq<Move>) returns (moves: seq<Move>)
    requires -1 <= dr <= 1
    requires moves0 == Steps(b, side, r, c, KingVisited(dr))
    ensures moves == Steps(b, side, r, c, KingVisited(dr + 1))
  {
    moves := moves0;
    ghost var visited := KingVisited(dr);
    assert visited + RowDeltas(dr, -1) == visited;
    for dc := -1 to 2
      invariant visited == KingVisited(dr) + RowDeltas(dr, dc)
      invariant moves == Steps(b, side, r, c, visited)
    {
      RowDeltasNext(dr, dc, KingVisited(dr));
      moves := KingNeighbour(b, side, r, c, dr, dc, moves, visited);
      visited := visited + (if dr == 0 && dc == 0 then [] else [(dr, dc)]);
    }
  }

  /** One pass of the inner king loop: `continue` on the king's own square, otherwise addIf. */
  method KingNeighbour(b: Board, side: Side, r: int, c: int, dr: int, dc: int, moves0: seq<Move>, ghost visited: seq<Delta>)
    returns (moves: seq<Move>)
    requires moves0 == Steps(b, side, r, c, visited)
    ensures moves == Steps(b, side, r, c, visited + (if dr == 0 && dc == 0 then [] else [(dr, dc)]))
  {
    if dr == 0 && dc == 0 {
      assert visited + [] == visited;
      return moves0;
    }
    StepsPush(b, side, r, c, visited, (dr, dc));
    moves := PushIfEnterable(b, side, moves0, r + dr, c + dc);
  }
}
