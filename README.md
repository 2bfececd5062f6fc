# Chess rules engine of a browser chess board, in Dafny

The program is a two-player chess board in the browser (`app.js`). Its core is a
small rules engine over an 8x8 board of one-letter pieces (upper case white,
lower case black, `""` empty; row 0 is black's back rank):

- `genPseudoMoves` lists the moves a piece could make from its movement
  pattern alone: pawn pushes, double pushes and diagonal captures, knight
  jumps, bishop/rook/queen rays that stop at the first occupied square,
  and king steps. There is no castling and no en passant.
- `kingInCheckForBoard` finds the side's king and scans outward from it for
  enemy pawns, knights, bishops or queens on diagonals, rooks or queens on
  files and ranks, and an adjacent enemy king. A side without a king counts
  as being in check.
- `genLegalMoves` keeps the pseudo-moves after which the mover is not in
  check. It plays each one on a copy of the board, promoting a pawn on the
  far rank to a queen.
- `doMove` and `undo` update the global board, the move history and the
  two capture lists. `init` resets everything. The click handler either
  plays a highlighted move or selects a piece of the side to move.

The model has seven modules:

- `Chessboard`: pieces, squares, the board as a value, the letter encoding
  and the start position.
- `MoveGen`: pseudo-moves.
- `Check`: check detection.
- `Attacks`: check detection compared with move generation.
- `Legal`: legal moves and the simulated move.
- `GameState`: the game as a value, with `doMove`, `undo` and clicks as
  functions.
- `Session`: a class that holds the board in an `array2` and performs the
  same transitions in place.

Each engine query is written twice:

- once as a function that states the answer piece by piece, in the
  source's order (`PseudoMoves`, `InCheck`, `LegalMoves`);
- once as a method that runs the source's loops, early returns and breaks.

Each method's contract equals the function. The lemmas then say what the
functions mean:

- which squares each piece reaches;
- that a pseudo-move stays on the board, lands on an empty or enemy square,
  and is a capture exactly when the destination is occupied;
- that the five check patterns hold exactly when some enemy piece has a
  capturing pseudo-move onto the king;
- that the legal moves are exactly the pseudo-moves that leave the mover out
  of check, in their original order;
- that undo reverses `doMove` on the board, the history and the capture
  lists.

Two points where the model follows the code:

- `undo` never assigns `turn`, so undo leaves the side to move unchanged.
  Right after a `doMove`, that is the opponent of the side whose move was
  taken back. `Undone` keeps `turn`, and `UndoAfterApply` states the case
  right after a move.
- `cloneAndMove` is never called in `app.js`; `genLegalMoves` repeats its
  copy-move-promote steps inline. Both are modelled by one function,
  `MovedBoard`, which `doMove` also uses.

## Model

| member | source | states |
|---|---|---|
| Chessboard.SideOf | app.js:77-80 | no side exactly for an empty square, otherwise the side of the piece on it |
| Chessboard.Opponent | app.js:81-83 | the opponent of a side is the other side |
| Chessboard.Letter | app.js:71-76 | the source's cell string: empty exactly for an empty square, otherwise one letter, upper case exactly for white |
| Chessboard.LetterRoundTrip | app.js:71-80 | decoding the letter of any square gives that square back, so the tagged squares lose nothing of the letter board |
| Chessboard.FromLetterInverse | app.js:71-80 | every string that decodes to a square is that square's letter (the encoding is one-to-one) |
| MoveGen.PushIfEnterable | app.js:91-97 | addIf appends the square exactly when it is on the board and not held by the mover's side, flagged as a capture when occupied |
| MoveGen.StepsMembers | app.js:91-97 | a list of addIf calls holds exactly the offset squares on which a move lands |
| MoveGen.GenPawnMoves | app.js:99-123 | the pawn branch yields the push, the double push and the two diagonal captures, in the source's order |
| MoveGen.GenPawnPushes | app.js:102-111 | the single advance is generated only onto an empty square, the double advance only from the start row over two empty squares |
| MoveGen.GenPawnCaptures | app.js:113-122 | the capture loop adds a diagonal square ahead only when it holds an enemy piece, left before right |
| MoveGen.PawnMovesList | app.js:99-123 | the pawn's list is push, double push, left capture, right capture |
| MoveGen.PawnMoveRules | app.js:99-123 | a pawn move is a single push onto an empty square, a double push from the start row over two empty squares, or a forward diagonal capture of an enemy piece, and nothing else |
| MoveGen.GenSteps | app.js:124-135 | the knight's forEach over its eight offsets yields the addIf result of each offset, in order |
| MoveGen.StepperMoveRules | app.js:124-163 | a knight or king move reaches one of the piece's offsets and lands, and every such square is generated |
| MoveGen.GenRay | app.js:143-154 | the inner while loop of one direction yields the ray: empty squares up to the first occupied one, which is included as a capture only if it is an enemy |
| MoveGen.RayMembers | app.js:142-155 | a move is on a ray exactly when it is n steps out past n empty squares and lands |
| MoveGen.RaysMembers | app.js:136-155 | the slider's list is the union of its rays, one per direction |
| MoveGen.GenSliderMoves | app.js:136-155 | bishop, rook and queen directions are built as in the source (diagonals first for the queen) and the result is all their rays in order |
| MoveGen.GenRays | app.js:142-155 | the loop over the directions concatenates one ray per direction |
| MoveGen.SliderMoveRules | app.js:136-155 | a bishop moves only on diagonals, a rook only on files and ranks, a queen on all eight, over empty squares, onto an empty or enemy square |
| MoveGen.KingDeltaAt | app.js:156-163 | each neighbour (dr, dc) other than (0, 0) sits in the king offset table at the position the nested loops reach it |
| MoveGen.KingVisitedAll | app.js:156-163 | the nested dr/dc loops, skipping (0, 0), visit exactly the eight neighbours in the order of the king offset table |
| MoveGen.KingRow | app.js:158-161 | the inner dc loop extends the king's list by the addIf results of the neighbours in row dr |
| MoveGen.KingNeighbour | app.js:159-160 | one pass of the inner loop skips the king's own square and otherwise adds that neighbour's addIf |
| MoveGen.GenKingMoves | app.js:156-163 | the king branch yields the addIf results of the eight neighbours, skipping (0,0) |
| MoveGen.GenPseudoMoves | app.js:85-166 | genPseudoMoves returns exactly PseudoMoves: nothing for an empty square, otherwise the list of the piece's branch |
| MoveGen.PseudoMovesSound | app.js:85-166 | every pseudo-move comes from an occupied square, stays on the board, lands on an empty or enemy square, and is a capture exactly when the destination is occupied |
| Check.FindKing | app.js:184-196 | the king found is a king of the side, no king of that side comes earlier in row-major order, and none is found exactly when the side has no king |
| Check.LocateKing | app.js:184-196 | the nested search with its two breaks returns -1 exactly when there is no king, otherwise the first king in row-major order |
| Check.NoKingMeansCheck | app.js:197 | a side without a king is reported in check |
| Check.PawnAttack | app.js:203-216 | the pawn scan is true exactly when an enemy pawn stands diagonally in front of the king, from the enemy's point of view |
| Check.OffsetAttack | app.js:218-238 | the knight scan is true exactly when an enemy knight stands on one of the eight knight offsets of the king |
| Check.RayAttack | app.js:247-259 | walking one direction from the king reports the first occupied square being an enemy of the given kind or queen |
| Check.SlideAttack | app.js:240-282 | the diagonal (and orthogonal) scan is true exactly when the first piece seen along some direction is an enemy bishop (rook) or queen |
| Check.KingAttack | app.js:284-297 | the adjacent scan is true exactly when an enemy king stands on one of the eight neighbours |
| Check.KingInCheckForBoard | app.js:183-300 | kingInCheckForBoard returns InCheck: no king, or any of the five patterns around the first king |
| Attacks.ThreatenedIffAttacked | app.js:199-299 | around a piece, the five patterns hold exactly when some piece on the board has a capturing pseudo-move onto its square |
| Attacks.InCheckIffAttacked | app.js:183-300 | a side is reported in check exactly when it has no king or some enemy pseudo-move captures its king |
| Attacks.ClearPathReversed | app.js:247-259 | squares crossed by a ray are equally free when walked back from its end, so a scan from the king meets the same empty squares as the attacker's ray |
| Attacks.FirstOccupiedIsReached | app.js:249-256 | the square where the scan stops is n steps out past n empty squares |
| Legal.MovedBoard | app.js:168-181 | the destination receives the moving piece, or a queen of its side when a pawn reaches its far rank; the origin becomes empty; all other squares are unchanged |
| Legal.CloneAndMove | app.js:168-181 | cloneAndMove returns the moved board and what stood on the destination |
| Legal.Simulate | app.js:310-323 | the copy, move and promotion steps inside genLegalMoves produce MovedBoard |
| Legal.KeepSafeMembers | app.js:307-328 | the filter keeps a move exactly when it was in the list and leaves the mover out of check |
| Legal.KeepSafeOrder | app.js:307-328 | the filter keeps the moves in their original order (a subsequence) |
| Legal.LegalMovesRule | app.js:302-330 | a legal move is exactly a pseudo-move after which the mover's side is not in check on the simulated board, and the legal list is a subsequence of the pseudo list |
| Legal.LegalMoveLands | app.js:302-330 | a legal move comes from an occupied square, lands on an empty or enemy square and never on its own origin |
| Legal.EmptySquareHasNoMoves | app.js:85-87 | an empty square has no legal moves |
| Legal.GenLegalMoves | app.js:302-330 | genLegalMoves returns LegalMoves |
| GameState.Initial | app.js:47-54 | init sets the start board, white to move, no selection, no cached moves, no history and no captures, which is a coherent selection |
| GameState.Applied | app.js:416-447 | doMove moves the piece (MovedBoard: origin emptied, promotion to a queen on the far rank), flips the turn, appends one record with the pre-promotion piece, what was captured and the mover's turn, appends the captured piece to the list of its own side and leaves the other list and the selection unchanged; both lists together grow by exactly that piece |
| GameState.LastIndexOf | app.js:474-478 | lastIndexOf is -1 exactly when absent, otherwise an index holding the value with no later one |
| GameState.RemoveLast | app.js:474-478 | the splice removes the last occurrence of a present value and keeps the other entries in order (so one fewer as a multiset), and changes nothing when it is absent |
| GameState.RemoveLastAppended | app.js:420-423 | the capture just appended is the one undo removes |
| GameState.Undone | app.js:465-486 | undo keeps the turn; with no history it changes nothing; otherwise it pops the history, writes the recorded piece back on its origin and then the captured square on the destination, removes the last copy of the captured piece from the list of its side, and clears the selection |
| GameState.UndoAfterApply | app.js:416-486 | undo right after doMove restores the board (promotion included), the history and both capture lists for every from and to; the turn stays flipped and the selection is cleared |
| GameState.PutBack | app.js:469-470 | writing back the recorded piece and then the captured square undoes the move on the board |
| GameState.PromotionUndone | app.js:428-432 | a pawn on its far rank becomes a queen of its side, the record keeps the pawn, and undo puts the pawn back |
| GameState.UndoNothing | app.js:466 | undo with an empty history changes nothing |
| GameState.Clicked | app.js:393-413 | a click on a cached destination plays doMove from the selected square to the clicked one (Applied: one more record, the turn passes) and clears the selection and cached moves; any other click leaves board, turn, history and each capture list alone, selects the square exactly when it holds a piece of the side to move, and otherwise clears the selection and cached moves |
| GameState.ClickedCoherent | app.js:393-413 | after any click, either nothing is selected and no moves are cached, or a piece of the side to move is selected with exactly its legal moves |
| GameState.InitialAndUndoCoherent | app.js:465-486 | init and undo keep the selection coherent |
| GameState.ClickedMoveIsLegal | app.js:393-402 | a click that plays a move plays a legal move of a piece of the side to move; afterwards that side is not in check, the record names it and the turn passes to the other side |
| Session.Game.CloneStart | app.js:43-45 | cloneStart returns a fresh 8x8 array holding the start position |
| Session.Game.constructor | app.js:491 | the page load leaves the initial state |
| Session.Game.Init | app.js:47-57 | init replaces the board by a fresh start board and resets turn, selection, history and capture lists |
| Session.Game.Snapshot | app.js:310 | copying the board array gives the board value it holds |
| Session.Game.Capture | app.js:420-423 | a captured piece is appended to the list of its own side, the other list is unchanged |
| Session.Game.MovePiece | app.js:425-432 | the in-place cell assignments of doMove produce MovedBoard |
| Session.Game.DoMove | app.js:416-447 | doMove performs Applied on the state the object holds |
| Session.Game.PutBackSquares | app.js:469-470 | undo writes the recorded piece back on its origin and the captured square on the destination, in that order |
| Session.Game.Uncapture | app.js:472-480 | undo removes the last equal entry from the list of the captured piece's side |
| Session.Game.Undo | app.js:465-486 | undo performs Undone on the state the object holds |
| Session.Game.OnSquareClick | app.js:393-413 | the click handler performs Clicked on the state the object holds |

## Left out

- Rendering: `renderBoard`, `highlight`, `clearHighlights`, `updateUI`, `renderCaptured` and `renderMoveList` only write to the page.
- Event wiring: the listeners, and `parseInt` of the clicked square's data attributes. The clicked row and column are parameters of `OnSquareClick`.
- The `PIECES` glyph table and each history record's `text` label are display strings. `HistoryRecord` has no label field.
- `isEmpty` is never called by the engine.
- Squares are a tagged datatype instead of strings. `Letter` and `FromLetter` relate the two encodings. A board cell holding a string that is not a piece letter is outside the model.
- Session.Game.OnSquareClick: the model looks up the destination with a predicate over the cached moves. `Array.prototype.find` is a library call.
- Session.Game.Uncapture: `lastIndexOf` and `splice` are library calls, so they are modelled by the functions `LastIndexOf` and `RemoveLast`, not as loops.
- The engine itself has no castling, en passant, promotion choice, or checkmate and stalemate detection, so neither does the model.
