# Chess rules engine — a verified Dafny model

This project models the rules engine of a small Python chess program
(`ChessEngine.py`). It covers the game state with its board, turn, king
squares, en-passant target, castling rights and three history logs. It also
covers making and taking back a move, the per-piece move generators, castling,
the attack test, the legality filter with the checkmate and stalemate flags,
and the `Move` and `Castle` values.

Layout, one module per file:

- `ChessBoard.dfy`: cells (`Empty` or a coloured piece), their two-character codes, the 8×8 grid and the starting board.
- `ChessMove.dfy`: the `Move` value, built from the two cells it touches, with its id and the equality on ids. Also the rank and file tables and the notation strings.
- `CastleRights.dfy`: the `Castle` record and `update_castle_rights`.
- `MoveGen.dfy`: the generators as functions over a grid. They cover pawn, knight, bishop, rook, queen and king moves, the row-major scan of `get_all_possible_moves`, the attack test and the castles.
- `GenFacts.dfy`: what the generators produce.
  - Soundness and completeness against an independent description of pseudo-legal moves (`Pseudo`).
  - No list ever holds two moves with the same pair of squares.
- `GameModel.dfy`: a `Position` value holding every field.
  - `Apply` (`make_move`) and `Undo` (`undo_move`), and the round trip between them.
  - The consistency a played game keeps (`Coherent`): logs in step, kings tracked, en-passant target and castling rights sound, and the side that has just moved not in check. The starting position has it.
  - `ValidMoves` (`get_valid_moves`) and its characterisation.
- `GameInvariant.dfy`: every move `get_valid_moves` returns keeps `Coherent`, so every position of a game played from the start with such moves is one the legality filter is proved for. Taking such a move back gives a consistent position as well.
- `ChessEngine.dfy`: the class `GameState`. Its fields mirror the Python ones and its methods update them in place.
  - Each method is proved against the functions above, e.g. `MakeMove` ensures `State() == Apply(old(State()), m)`.
  - The generator loops append to a move list and are proved equal to the generator functions.

`get_valid_moves` walks the candidates from the last to the first. For each it
makes the move, hands the turn back, asks `in_check`, and removes the move
from the list when the mover's king is attacked; then it takes the move back.

- `moves.remove` removes the first move *equal by id*. The model proves that no two candidates share an id. So the removal always hits position `i`, and the method returns exactly the candidates for which the test passes.
- Taking each move back restores the position exactly, apart from the two end-of-game flags. Hence the call leaves board, turn, target, rights and logs as they were.

The `else` branch of the flag update assigns `checkmate = False` twice and
never clears `stalemate`. This does no harm: when any move is left, some
candidate was made and taken back, and `undo_move` had already cleared both
flags. `GetValidMoves` proves that a non-empty result leaves both flags false.

## Model

| member | source | states |
|---|---|---|
| ChessBoard.Code | ChessEngine.py:7-15 | a cell's code has two characters and is `"--"` exactly for the empty cell |
| ChessBoard.CodeRoundTrip | ChessEngine.py:7-15 | reading a cell's code back gives that cell, so distinct cells have distinct codes |
| ChessBoard.Set | ChessEngine.py:34-35 | overwriting one square keeps an 8×8 grid, puts the new cell on that square and leaves every other square as it was |
| ChessMove.NewMove | ChessEngine.py:349-371 | the move has the given squares, piece and flags; the captured piece is the end cell unless en passant; the promotion flag holds iff a white pawn ends on row 0 or a black pawn on row 7 |
| ChessMove.EnPassantCapturesOpposingPawn | ChessEngine.py:362-363 | an en-passant move of a pawn records the pawn of the opposite colour as captured |
| ChessMove.SameMoveIffSameSquares | ChessEngine.py:371-376 | for on-board squares, two moves are equal (same `move_id`) iff their start and end squares are the same |
| ChessMove.TablesAreInverses | ChessEngine.py:343-347 | the row and column tables are defined exactly on 0..7 and are the inverses of the rank and file tables |
| ChessMove.RankFile | ChessEngine.py:394-395 | the name of a square is two characters, the file letter of its column then the rank digit of its row |
| ChessMove.RankFileInjective | ChessEngine.py:394-395 | distinct squares have distinct names |
| ChessMove.Describe | ChessEngine.py:378-379 | `__str__` is the moved piece's letter followed by the name of the end square |
| ChessMove.ChessNotation | ChessEngine.py:381-392 | the notation ends with the name of the end square, and begins with a file letter exactly for a pawn move |
| CastleRights.UpdatedRights | ChessEngine.py:74-121 | the update never grants a right |
| CastleRights.UpdatedRightsMatchesRightsAfter | ChessEngine.py:74-121 | the branchy update equals a per-right rule: a right survives unless its king moves, its rook leaves the home rank, or its corner rook is captured |
| CastleRights.CaptureClearIdempotent | ChessEngine.py:76-121 | the capture block is idempotent, so the update equals the mover rule followed by one capture block |
| CastleRights.KingMoveClearsBoth | ChessEngine.py:89-94 | a king move clears both rights of its colour and takes from the other colour only what a capture would |
| CastleRights.RookMoveClearsOneWing | ChessEngine.py:96-107 | a rook leaving its back rank without capturing a rook clears the queen side from column 0 and the king side from any other column, nothing else |
| CastleRights.CornerCaptureClearsWing | ChessEngine.py:76-87 | capturing a rook on a corner square clears that wing's right |
| GenFacts.PawnSound | ChessEngine.py:217-256 | every pawn move starts on the pawn and is a push onto an empty square, a double push from the home row over an empty square, a diagonal capture of an enemy, or a diagonal onto the en-passant target tagged as en passant |
| GenFacts.PawnComplete | ChessEngine.py:217-256 | every such pawn move is generated |
| GenFacts.StepSound | ChessEngine.py:258-267 | every knight or king move starts on the piece, lands on the board by one of the offsets, and not on a friend |
| GenFacts.StepComplete | ChessEngine.py:311-320 | every offset move onto a square that is not friendly is generated |
| GenFacts.RaySound | ChessEngine.py:269-305 | each move of a ray goes one square further along its direction over empty squares; all but the last land on empty squares, the last not on a friend |
| GenFacts.RayComplete | ChessEngine.py:269-305 | a ray contains the move to every non-friendly square reached over empty squares: it stops only at the edge, before a friend, or on the enemy it takes |
| GenFacts.SlideSound | ChessEngine.py:269-309 | every bishop, rook or queen move slides along one of its directions over empty squares onto a non-friendly square |
| GenFacts.SlideComplete | ChessEngine.py:269-309 | every such slide is generated |
| GenFacts.PieceSound | ChessEngine.py:16-17 | the generator chosen by the piece kind yields pseudo-legal moves of that piece only |
| GenFacts.PieceComplete | ChessEngine.py:16-17 | every pseudo-legal move is yielded by the generator of the piece it moves |
| GenFacts.AllPossibleSound | ChessEngine.py:207-215 | `get_all_possible_moves` yields pseudo-legal moves only |
| GenFacts.AllPossibleExactly | ChessEngine.py:207-215 | a move is listed iff it is pseudo-legal for the side to move |
| GenFacts.AttackedExactly | ChessEngine.py:197-205 | a square counts as attacked iff some pseudo-legal move of the other side ends on it, pawn pushes included |
| GenFacts.StepDistinct | ChessEngine.py:258-267 | the step moves of distinct offsets never repeat a pair of squares |
| GenFacts.RayDistinct | ChessEngine.py:273-286 | the moves of one ray end on distinct squares |
| GenFacts.SlideDistinct | ChessEngine.py:269-305 | the slides along distinct unit directions never repeat a pair of squares |
| GenFacts.QueenApart | ChessEngine.py:307-309 | the queen's rook moves and bishop moves never share a destination |
| GenFacts.PawnDistinct | ChessEngine.py:217-256 | a pawn's moves never repeat a pair of squares |
| GenFacts.PieceDistinct | ChessEngine.py:217-320 | one piece's moves never repeat a pair of squares |
| GenFacts.AllPossibleDistinct | ChessEngine.py:207-215 | the full list never holds two moves with the same squares |
| GameModel.Apply | ChessEngine.py:32-72 | from an empty start square nothing changes; otherwise the turn passes, the move log and both other logs grow by one entry, the new target and rights are what was logged, no right is gained, the flags are untouched |
| GameModel.EnPassantTarget | ChessEngine.py:54-57 | after a move there is an en-passant target iff a pawn moved two rows, and it is the square in the end column the pawn passed over |
| GameModel.Undo | ChessEngine.py:123-157 | with an empty log nothing changes; otherwise one entry is popped from each log, the turn passes back, the target and rights are the new last log entries, both flags are cleared |
| GameModel.BoardRoundTrip | ChessEngine.py:32-157 | taking back a move that fits the board restores the board, including a promoted pawn, an en-passant victim and a castling rook |
| GameModel.RoundTrip | ChessEngine.py:32-157 | `undo_move` after `make_move` gives back every field of the position exactly, except that both flags are cleared |
| GameModel.ApplyKeepsInSync | ChessEngine.py:32-72 | making a move keeps each of the other two logs one entry longer than the move log and ending in the current value |
| GameModel.UndoKeepsInSync | ChessEngine.py:123-146 | from logs in step, taking a move back is always possible and keeps the logs in step |
| GameModel.InitialCoherent | ChessEngine.py:6-30 | the starting position is consistent: logs in step, kings tracked, no target, each king and rook on its home square, and black's king not attacked |
| GameModel.BehindPawnsStayBack | ChessEngine.py:217-320 | with every white piece behind a full row of white pawns, as at the start, no pseudo-legal white move ends beyond row 4 |
| GameModel.InitialNoCheck | ChessEngine.py:6-30 | on the starting board no white move reaches the black king's square |
| GameModel.CoherentIgnoresFlags | ChessEngine.py:178-185 | setting checkmate or stalemate keeps a position consistent |
| GameModel.ValidMovesIgnoreFlags | ChessEngine.py:178-189 | setting checkmate or stalemate changes neither consistency nor the valid moves |
| GameModel.ValidMovesApplicable | ChessEngine.py:159-189 | every valid move is one the `Move` constructor builds with on-board squares, so `make_move` can be given it |
| GameModel.CastleFromHome | ChessEngine.py:322-339 | a castle of the king on its home square moves it two columns along its back rank past an empty square, and fits the board so it can be taken back |
| GameModel.CastleMoveShape | ChessEngine.py:322-339 | a generated castle is a king move two columns along its home row, from the tracked king square, and can be made and taken back |
| GameModel.PseudoApartFromCastle | ChessEngine.py:163-167 | a pseudo-legal move never has both squares of a castle, so the castles appended to the candidates add no duplicate id |
| GameModel.CandidatesFit | ChessEngine.py:163-167 | every candidate of a consistent position can be made and taken back exactly |
| GameModel.CandidatesDistinct | ChessEngine.py:163-173 | no two candidates share their squares, so no two share an id |
| GameModel.RemoveFirst | ChessEngine.py:173 | `list.remove` drops the first element whose id is that of the argument and keeps the others in order |
| GameModel.RemoveFirstAt | ChessEngine.py:173 | when no earlier element has its id, removing `ms[i]` removes position `i` |
| GameModel.KeepSafeExactly | ChessEngine.py:169-176 | the filter keeps exactly those moves of the list after which the mover is not in check |
| GameModel.ValidMovesExactly | ChessEngine.py:159-189 | a move is valid iff it is pseudo-legal or a castle of the king, and making it does not leave the mover's king attacked |
| GameInvariant.ApplyBoardCells | ChessEngine.py:32-66 | square by square, the board after `make_move`: the castling rook's corner emptied and the rook beside the king, the en-passant victim removed, the arriving piece (a queen for a promoting pawn) on the end square, the start square emptied, every other square kept |
| GameInvariant.PseudoTakesNoKing | ChessEngine.py:207-320 | in a consistent position no pseudo-legal move ends on a king: not its own, which is a friend, and not the other, which the side that has just moved left unattacked |
| GameInvariant.ValidMovePlayed | ChessEngine.py:159-189 | every valid move moves a piece of the side to move, takes no king, captures a pawn when en passant, castles from the back rank with its rook on the corner and the square beside the king empty, double-steps from the home row over an empty square, and leaves the mover not in check |
| GameInvariant.KingKept | ChessEngine.py:32-44 | after a move with the properties of `ValidMovePlayed` (`Played`), each king stands on its tracked square and on no other |
| GameInvariant.KingsStayTracked | ChessEngine.py:38-44 | after a `Played` move both king squares are tracked |
| GameInvariant.TargetStaysSound | ChessEngine.py:54-57 | after a `Played` move the en-passant target, if any, is the empty square a pawn has just passed over, with that pawn beyond it |
| GameInvariant.WingStaysSound | ChessEngine.py:59-72 | after a `Played` move every castling right still held has its king on its home square and its rook on its corner |
| GameInvariant.ValidMoveKeepsCoherent | ChessEngine.py:32-72 | making a move `get_valid_moves` returned keeps the position consistent |
| GameInvariant.ApplyKeepsCoherent | ChessEngine.py:32-72 | `make_move` from a consistent position with one of its valid moves leads to a consistent position |
| GameInvariant.ValidMoveUndone | ChessEngine.py:123-157 | taking back a move `get_valid_moves` returned gives back a consistent position |
| ChessEngine.GameState.constructor | ChessEngine.py:6-30 | a new game is the starting position, which is consistent |
| ChessEngine.GameState.MakeMove | ChessEngine.py:32-72 | the new state is `Apply` of the old state; a valid move of a consistent state leaves a consistent state |
| ChessEngine.GameState.MoveAndPassTurn | ChessEngine.py:33-44 | the piece is moved, the move logged, the turn passed, the king square of a moved king updated |
| ChessEngine.GameState.SpecialMoves | ChessEngine.py:46-66 | promotion, the en-passant capture and the castling rook, in source order, and the new target |
| ChessEngine.GameState.LogTargetAndRights | ChessEngine.py:68-72 | the target is logged, the rights are updated and the new rights are logged |
| ChessEngine.GameState.UpdateCastleRights | ChessEngine.py:74-121 | the rights become `UpdatedRights` of the old rights |
| ChessEngine.GameState.UndoMove | ChessEngine.py:123-157 | the new state is `Undo` of the old state |
| ChessEngine.GameState.UnmovePiece | ChessEngine.py:124-146 | the pieces go back, the turn passes back, the king squares are restored, and the target and rights are read back from the shortened logs |
| ChessEngine.GameState.UncastleRook | ChessEngine.py:148-154 | a castle's rook goes back to its corner |
| ChessEngine.GameState.GetValidMoves | ChessEngine.py:159-189 | returns `ValidMoves` of the position; nothing but the flags changes; no move left means checkmate when in check and stalemate otherwise; moves left means neither flag; the state stays consistent and every returned move can be passed to `MakeMove` |
| ChessEngine.GameState.FilterAndFlag | ChessEngine.py:163-185 | the filtered candidates, then the end-of-game flags set as `get_valid_moves` sets them, nothing else changed |
| ChessEngine.GameState.FilterCandidates | ChessEngine.py:163-176 | the candidates minus the ones leaving the mover in check, with the state kept and the flags cleared when any move was tried |
| ChessEngine.GameState.SetEndFlags | ChessEngine.py:178-185 | with no moves, checkmate when in check, else stalemate; with moves, checkmate cleared and stalemate untouched |
| ChessEngine.GameState.GetCandidates | ChessEngine.py:163-167 | all possible moves followed by the castles of the tracked king, state unchanged |
| ChessEngine.GameState.RemoveUnsafe | ChessEngine.py:169-176 | the backward pass returns exactly the safe candidates in order, with the state restored |
| ChessEngine.GameState.TryCandidate | ChessEngine.py:170-176 | one turn of the pass keeps or drops the i-th candidate by the check test |
| ChessEngine.GameState.MovesIntoCheck | ChessEngine.py:170-176 | make, hand back, test, hand on, take back: reports whether the move leaves the mover in check and restores the state |
| ChessEngine.GameState.InCheck | ChessEngine.py:191-195 | whether the mover's king square is attacked, turn unchanged |
| ChessEngine.GameState.SquareUnderAttack | ChessEngine.py:197-205 | whether some move of the other side ends on the square, turn unchanged |
| ChessEngine.GameState.GetAllPossibleMoves | ChessEngine.py:207-215 | the row-major scan returns `AllPossibleMoves` |
| ChessEngine.GameState.ScanRow | ChessEngine.py:210-213 | one row of the scan appends that row's moves |
| ChessEngine.GameState.ScanSquare | ChessEngine.py:211-213 | one square of the scan appends the moves of a piece of the mover standing there |
| ChessEngine.GameState.GetPieceMoves | ChessEngine.py:16-17 | dispatch on the piece kind appends that piece's moves |
| ChessEngine.GameState.GetPawnMoves | ChessEngine.py:217-256 | appends `PawnMoves` |
| ChessEngine.GameState.AddPawnPush | ChessEngine.py:218-223 | appends the single and double push |
| ChessEngine.GameState.AddPawnCapture | ChessEngine.py:224-235 | appends the capture or en-passant move on one diagonal |
| ChessEngine.GameState.GetKnightMoves | ChessEngine.py:258-267 | appends the knight's steps |
| ChessEngine.GameState.GetKingMoves | ChessEngine.py:311-320 | appends the king's steps |
| ChessEngine.GameState.AddSteps | ChessEngine.py:261-267 | the offset loop appends the steps of every offset in order |
| ChessEngine.GameState.AddStep | ChessEngine.py:262-267 | one offset appends a move onto an empty or enemy square on the board |
| ChessEngine.GameState.GetBishopMoves | ChessEngine.py:269-286 | appends the bishop's slides |
| ChessEngine.GameState.GetRookMoves | ChessEngine.py:288-305 | appends the rook's slides |
| ChessEngine.GameState.GetQueenMoves | ChessEngine.py:307-309 | appends the rook's slides then the bishop's |
| ChessEngine.GameState.AddSlides | ChessEngine.py:272-286 | the direction loop appends one ray per direction in order |
| ChessEngine.GameState.AddRay | ChessEngine.py:273-286 | the distance loop with its `break`s appends the ray |
| ChessEngine.GameState.RayStep | ChessEngine.py:274-286 | one distance either ends the ray or adds an empty square and goes on |
| ChessEngine.GameState.GetCastleMoves | ChessEngine.py:322-329 | no castle while the king is attacked, else the king side and queen side for each right held |
| ChessEngine.GameState.GetKingSide | ChessEngine.py:331-334 | a king-side castle when both squares are empty and neither is attacked |
| ChessEngine.GameState.GetQueenSide | ChessEngine.py:336-339 | a queen-side castle when three squares are empty and the two next to the king are not attacked |

## Left out

- `ChessMain.py` is not part of this model: drawing, the event loop, mouse input, animation and the move-choosing AI are user interface or foreign code.
- Python's negative indices wrap around; the model works on on-board coordinates only. The generators check bounds themselves. The pawn look-ahead does not, so boards satisfy `WellFormed`: no pawn stands on its far rank, which promotion guarantees.
- `GetValidMoves` and `GetCandidates` require `Coherent`. The source checks none of this, but the exact make/undo round trip inside the filter depends on it. `Coherent` holds for a new game, `MakeMove` keeps it for every move `GetValidMoves` returns, and `GetValidMoves` keeps it. So a game that only plays returned moves always meets the requirement. A move that did not come from `GetValidMoves` carries no such promise.
- UndoMove: the class method promises `Undo` of the old state but not `Coherent`, because the state before the last move is not stored in the object. `GameInvariant.ValidMoveUndone` proves it on values: taking back a returned move of a consistent position gives a consistent position.
- `MakeMove` and `UndoMove` require moves built by the `Move` constructor with on-board squares (`Applicable`). `UndoMove` also requires an entry to restore in each log, where Python would raise `IndexError`.
- The `move_functions` table of bound methods is a `match` on the piece kind.
- `__eq__`'s `isinstance` test is left out. Comparing a move with a non-move cannot be written in the typed model.
- `Castle` objects are copied field by field in the source. The model keeps rights as a value, so aliasing plays no part.
- The white and black pawn branches are one branch, parameterised by the direction of travel and the home row.
- The generator and filter loops are split into helper methods: one row, one square, one offset, one ray step, one candidate. Each helper is proved against the same specification functions as its loop.
- `TryCandidate` removes a failing move from the local list after the move is taken back rather than between the two turn flips. The list is local, so the result is the same.
- ChessMove.ChessNotation: the contract states the length, the end square's name and the pawn case, not the whole string.
