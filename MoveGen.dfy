/**
 * Pseudo-legal move generation as functions of the board, the side to move
 * and the en-passant target: what the engine's per-piece generators append,
 * in the order they append it.
 */
module MoveGen {
  import opened ChessBoard
  import opened ChessMove
  import opened CastleRights

  type Offset = (int, int)

  const KnightOffsets: seq<Offset> :=
    [(-2, -1), (-2, 1), (-1, -2), (-1, 2), (1, -2), (1, 2), (2, -1), (2, 1)]

  const KingOffsets: seq<Offset> :=
    [(-1, -1), (-1, 0), (-1, 1), (0, -1), (0, 1), (1, -1), (1, 0), (1, 1)]

  const RookDirections: seq<Offset> := [(-1, 0), (0, -1), (1, 0), (0, 1)]

  const BishopDirections: seq<Offset> := [(-1, -1), (1, 1), (-1, 1), (1, -1)]

  /** `Move((r, c), (er, ec), self.board, ...)`: a move built from the two cells. */
  function MoveOn(b: Grid, r: int, c: int, er: int, ec: int, enPassantMove: bool, castleMove: bool): Move
    requires IsGrid(b) && OnBoard(r, c) && OnBoard(er, ec)
  {
    NewMove(Sq(r, c), Sq(er, ec), b[r][c], b[er][ec], enPassantMove, castleMove)
  }

  /** The row direction a pawn of the side to move advances in. */
  function Forward(whiteToMove: bool): int {
    if whiteToMove then -1 else 1
  }

  /** The row a pawn may double-step from. */
  function HomeRow(whiteToMove: bool): int {
    if whiteToMove then 6 else 1
  }

  /** One diagonal of a pawn: a capture of an enemy piece, else an en-passant capture. */
  function PawnCapture(b: Grid, w: bool, ep: Option<Square>, r: int, c: int, ec: int): seq<Move>
    requires IsGrid(b) && OnBoard(r, c) && OnBoard(r + Forward(w), c)
  {
    var er := r + Forward(w);
    if !(0 <= ec < 8) then []
    else if IsEnemy(b[er][ec], w) then [MoveOn(b, r, c, er, ec, false, false)]
    else if ep == Some(Sq(er, ec)) then [MoveOn(b, r, c, er, ec, true, false)]
    else []
  }

  /** The forward step onto an empty square, then the double step from the home row. */
  function PawnPush(b: Grid, w: bool, r: int, c: int): seq<Move>
    requires IsGrid(b) && OnBoard(r, c) && OnBoard(r + Forward(w), c)
  {
    var er := r + Forward(w);
    if b[er][c] == Empty then
      [MoveOn(b, r, c, er, c, false, false)]
        + (if r == HomeRow(w) && b[r + 2 * Forward(w)][c] == Empty
           then [MoveOn(b, r, c, r + 2 * Forward(w), c, false, false)] else [])
    else []
  }

  /** `get_pawn_moves`: forward step, double step, left diagonal, right diagonal. */
  function PawnMoves(b: Grid, w: bool, ep: Option<Square>, r: int, c: int): seq<Move>
    requires WellFormed(b) && OnBoard(r, c) && b[r][c] == Piece(Mover(w), Pawn)
  {
    assert b[0][c] != Piece(White, Pawn) && b[7][c] != Piece(Black, Pawn);
    PawnPush(b, w, r, c) + PawnCapture(b, w, ep, r, c, c - 1) + PawnCapture(b, w, ep, r, c, c + 1)
  }

  /** One fixed-offset step (knight or king): on the board and not onto a friend. */
  function Step(b: Grid, w: bool, r: int, c: int, o: Offset): seq<Move>
    requires IsGrid(b) && OnBoard(r, c)
  {
    var er, ec := r + o.0, c + o.1;
    if OnBoard(er, ec) && (IsEnemy(b[er][ec], w) || b[er][ec] == Empty)
    then [MoveOn(b, r, c, er, ec, false, false)] else []
  }

  /** The steps for a list of offsets, in list order. */
  function StepMoves(b: Grid, w: bool, r: int, c: int, offsets: seq<Offset>): seq<Move>
    requires IsGrid(b) && OnBoard(r, c)
    decreases |offsets|
  {
    if offsets == [] then []
    else StepMoves(b, w, r, c, offsets[..|offsets| - 1]) + Step(b, w, r, c, offsets[|offsets| - 1])
  }

  /**
   * A ray from distance `i` on: empty squares are taken and the ray goes on,
   * an enemy square is taken and the ray stops, a friend or the edge stops it.
   */
  function Ray(b: Grid, w: bool, r: int, c: int, d: Offset, i: int): seq<Move>
    requires IsGrid(b) && OnBoard(r, c) && 1 <= i <= 8
    decreases 8 - i
  {
    if i == 8 then []
    else
      var er, ec := r + d.0 * i, c + d.1 * i;
      if !OnBoard(er, ec) then []
      else if b[er][ec] == Empty then [MoveOn(b, r, c, er, ec, false, false)] + Ray(b, w, r, c, d, i + 1)
      else if IsEnemy(b[er][ec], w) then [MoveOn(b, r, c, er, ec, false, false)]
      else []
  }

  /** The rays for a list of directions, in list order. */
  function SlideMoves(b: Grid, w: bool, r: int, c: int, dirs: seq<Offset>): seq<Move>
    requires IsGrid(b) && OnBoard(r, c)
    decreases |dirs|
  {
    if dirs == [] then []
    else SlideMoves(b, w, r, c, dirs[..|dirs| - 1]) + Ray(b, w, r, c, dirs[|dirs| - 1], 1)
  }

  /** The generator for the piece of the side to move on (r, c), chosen by its kind. */
  function PieceMoves(b: Grid, w: bool, ep: Option<Square>, r: int, c: int): seq<Move>
    requires WellFormed(b) && OnBoard(r, c) && IsFriend(b[r][c], w)
  {
    match b[r][c].kind
    case Pawn => PawnMoves(b, w, ep, r, c)
    case Knight => StepMoves(b, w, r, c, KnightOffsets)
    case Bishop => SlideMoves(b, w, r, c, BishopDirections)
    case Rook => SlideMoves(b, w, r, c, RookDirections)
    case Queen => SlideMoves(b, w, r, c, RookDirections) + SlideMoves(b, w, r, c, BishopDirections)
    case King => StepMoves(b, w, r, c, KingOffsets)
  }

  /** The moves of the first `k` squares in row-major order. */
  function ScanMoves(b: Grid, w: bool, ep: Option<Square>, k: int): seq<Move>
    requires WellFormed(b) && 0 <= k <= 64
    decreases k
  {
    if k == 0 then []
    else
      var r, c := (k - 1) / 8, (k - 1) % 8;
      ScanMoves(b, w, ep, k - 1) + (if IsFriend(b[r][c], w) then PieceMoves(b, w, ep, r, c) else [])
  }

  /** `get_all_possible_moves`. */
  function AllPossibleMoves(b: Grid, w: bool, ep: Option<Square>): seq<Move>
    requires WellFormed(b)
  {
    ScanMoves(b, w, ep, 64)
  }

  /** Some move of the list ends on (r, c). */
  predicate EndsOn(ms: seq<Move>, r: int, c: int) {
    exists i :: 0 <= i < |ms| && ms[i].endRow == r && ms[i].endCol == c
  }

  /**
   * (r, c) is the destination of some pseudo-legal move of the side
   * `byWhite`, pawn pushes included.
   */
  predicate Attacked(b: Grid, byWhite: bool, ep: Option<Square>, r: int, c: int)
    requires WellFormed(b)
  {
    EndsOn(AllPossibleMoves(b, byWhite, ep), r, c)
  }

  function KingSideRight(cr: Castle, w: bool): bool {
    if w then cr.wks else cr.bks
  }

  function QueenSideRight(cr: Castle, w: bool): bool {
    if w then cr.wqs else cr.bqs
  }

  /** The squares castling looks at exist for every right still held. */
  predicate CastleReach(cr: Castle, w: bool, r: int, c: int) {
    && (KingSideRight(cr, w) ==> OnBoard(r, c) && c + 2 <= 7)
    && (QueenSideRight(cr, w) ==> OnBoard(r, c) && c - 3 >= 0)
  }

  /** `_get_king_side`. */
  function KingSideMoves(b: Grid, w: bool, ep: Option<Square>, r: int, c: int): seq<Move>
    requires WellFormed(b) && OnBoard(r, c) && c + 2 <= 7
  {
    if b[r][c + 1] == Empty && b[r][c + 2] == Empty
       && !Attacked(b, !w, ep, r, c + 1) && !Attacked(b, !w, ep, r, c + 2)
    then [MoveOn(b, r, c, r, c + 2, false, true)] else []
  }

  /** `_get_queen_side`: three empty squares, two of them not attacked. */
  function QueenSideMoves(b: Grid, w: bool, ep: Option<Square>, r: int, c: int): seq<Move>
    requires WellFormed(b) && OnBoard(r, c) && c - 3 >= 0
  {
    if b[r][c - 1] == Empty && b[r][c - 2] == Empty && b[r][c - 3] == Empty
       && !Attacked(b, !w, ep, r, c - 1) && !Attacked(b, !w, ep, r, c - 2)
    then [MoveOn(b, r, c, r, c - 2, false, true)] else []
  }

  /** `get_castle_moves` for the king of the side to move on (r, c). */
  function CastleMoves(b: Grid, w: bool, ep: Option<Square>, cr: Castle, r: int, c: int): seq<Move>
    requires WellFormed(b) && CastleReach(cr, w, r, c)
  {
    if Attacked(b, !w, ep, r, c) then []
    else
      (if KingSideRight(cr, w) then KingSideMoves(b, w, ep, r, c) else [])
        + (if QueenSideRight(cr, w) then QueenSideMoves(b, w, ep, r, c) else [])
  }
}
