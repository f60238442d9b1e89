/**
 * The game state as a value: making a move, taking it back, and the
 * bookkeeping (move log, en-passant log, castling log, king squares) that
 * lets a move be taken back exactly.
 */
module GameModel {
  import opened ChessBoard
  import opened ChessMove
  import opened CastleRights
  import opened MoveGen
  import opened GenFacts

  /** A snapshot of every field of the game state. */
  datatype Position = Position(
    board: Grid,
    whiteToMove: bool,
    moveLog: seq<Move>,
    enPassant: Option<Square>,
    enPassantLog: seq<Option<Square>>,
    whiteKing: Square,
    blackKing: Square,
    castling: Castle,
    castleLog: seq<Castle>,
    checkmate: bool,
    stalemate: bool)

  /** The state a new game starts in. */
  function InitialPosition(): Position {
    var rights := Castle(true, true, true, true);
    Position(InitialBoard(), true, [], None, [None], Sq(7, 4), Sq(0, 4), rights, [rights], false, false)
  }

  /**
   * The squares a king-side castle touches are columns end-1 and end+1, a
   * queen-side castle columns end+1 and end-2.
   */
  predicate CastleSquaresOnBoard(m: Move) {
    if m.endCol - m.startCol == 2 then m.endCol + 1 <= 7
    else 0 <= m.endCol - 2 && m.endCol + 1 <= 7
  }

  /**
   * A move as the Move constructor builds it (promotion flag set exactly for
   * a pawn reaching its last rank) whose squares, and for a castle whose rook
   * squares, are on the board: what making and taking back a move index.
   */
  predicate Applicable(m: Move) {
    && m.OnBoardSquares()
    && m.pawnPromotion == PromotesOn(m.pieceMoved, m.endRow)
    && (m.castleMove ==> CastleSquaresOnBoard(m))
  }

  /** Lift the moved piece from its start square and put it on its end square. */
  function MovePiece(b: Grid, m: Move): (b': Grid)
    requires IsGrid(b) && Applicable(m)
    ensures IsGrid(b')
  {
    Set(Set(b, m.startRow, m.startCol, Empty), m.endRow, m.endCol, m.pieceMoved)
  }

  /** A promoting pawn becomes a queen of its colour. */
  function Promote(b: Grid, m: Move): (b': Grid)
    requires IsGrid(b) && Applicable(m)
    ensures IsGrid(b')
  {
    if m.pawnPromotion then Set(b, m.endRow, m.endCol, Piece(m.pieceMoved.color, Queen)) else b
  }

  /** En passant, the pawn taken stands beside the start square, on the end column. */
  function TakeEnPassant(b: Grid, m: Move): (b': Grid)
    requires IsGrid(b) && Applicable(m)
    ensures IsGrid(b')
  {
    if m.enPassantMove then Set(b, m.startRow, m.endCol, Empty) else b
  }

  /** A castle also moves the rook to the square the king passed over. */
  function MoveRook(b: Grid, m: Move): (b': Grid)
    requires IsGrid(b) && Applicable(m)
    ensures IsGrid(b')
  {
    var er, ec := m.endRow, m.endCol;
    if !m.castleMove then b
    else if ec - m.startCol == 2 then Set(Set(b, er, ec - 1, b[er][ec + 1]), er, ec + 1, Empty)
    else Set(Set(b, er, ec + 1, b[er][ec - 2]), er, ec - 2, Empty)
  }

  /** The board writes of `make_move`, in source order. */
  function ApplyBoard(b: Grid, m: Move): (b': Grid)
    requires IsGrid(b) && Applicable(m)
    ensures IsGrid(b')
    ensures WellFormed(b) ==> WellFormed(b')
  {
    MoveRook(TakeEnPassant(Promote(MovePiece(b, m), m), m), m)
  }

  /** Put the moved piece back on its start square and the captured cell on its end square. */
  function PutBack(b: Grid, m: Move): (b': Grid)
    requires IsGrid(b) && Applicable(m)
    ensures IsGrid(b')
  {
    Set(Set(b, m.startRow, m.startCol, m.pieceMoved), m.endRow, m.endCol, m.pieceCaptured)
  }

  /** En passant, the end square was empty and the taken pawn goes back beside the start square. */
  function RestoreEnPassant(b: Grid, m: Move): (b': Grid)
    requires IsGrid(b) && Applicable(m)
    ensures IsGrid(b')
  {
    if m.enPassantMove then Set(Set(b, m.endRow, m.endCol, Empty), m.startRow, m.endCol, m.pieceCaptured)
    else b
  }

  /** A castle's rook goes back to its corner. */
  function RestoreRook(b: Grid, m: Move): (b': Grid)
    requires IsGrid(b) && Applicable(m)
    ensures IsGrid(b')
  {
    var er, ec := m.endRow, m.endCol;
    if !m.castleMove then b
    else if ec - m.startCol == 2 then Set(Set(b, er, ec + 1, b[er][ec - 1]), er, ec - 1, Empty)
    else Set(Set(b, er, ec - 2, b[er][ec + 1]), er, ec + 1, Empty)
  }

  /** The board writes of `undo_move`, in source order. */
  function UndoBoard(b: Grid, m: Move): (b': Grid)
    requires IsGrid(b) && Applicable(m)
    ensures IsGrid(b')
  {
    RestoreRook(RestoreEnPassant(PutBack(b, m), m), m)
  }

  /** The en-passant target after a move: the square a pawn's double step passed over. */
  function TargetAfter(m: Move): Option<Square> {
    if m.pieceMoved.Piece? && m.pieceMoved.kind == Pawn
       && Abs(m.startRow - m.endRow) == 2
    then Some(Sq((m.startRow + m.endRow) / 2, m.endCol))
    else None
  }

  /**
   * `make_move`: nothing happens when the start square is empty; otherwise the
   * board changes, the move is logged, the turn passes, the king squares, the
   * en-passant target and the castling rights are updated and both are logged.
   */
  function Apply(p: Position, m: Move): (r: Position)
    requires IsGrid(p.board) && Applicable(m)
    ensures IsGrid(r.board)
    ensures p.board[m.startRow][m.startCol] == Empty ==> r == p
    ensures p.board[m.startRow][m.startCol] != Empty ==>
      && r.whiteToMove == !p.whiteToMove
      && r.moveLog == p.moveLog + [m]
      && r.enPassantLog == p.enPassantLog + [r.enPassant]
      && r.castleLog == p.castleLog + [r.castling]
      && NoMoreThan(r.castling, p.castling)
      && r.checkmate == p.checkmate && r.stalemate == p.stalemate
  {
    if p.board[m.startRow][m.startCol] == Empty then p
    else
      var end := Sq(m.endRow, m.endCol);
      var ep := TargetAfter(m);
      var cr := UpdatedRights(p.castling, m);
      p.(board := ApplyBoard(p.board, m),
         whiteToMove := !p.whiteToMove,
         moveLog := p.moveLog + [m],
         whiteKing := if m.pieceMoved == Piece(White, King) then end else p.whiteKing,
         blackKing := if m.pieceMoved == Piece(Black, King) then end else p.blackKing,
         enPassant := ep,
         enPassantLog := p.enPassantLog + [ep],
         castling := cr,
         castleLog := p.castleLog + [cr])
  }

  function Last<T>(xs: seq<T>): T
    requires |xs| > 0
  {
    xs[|xs| - 1]
  }

  /**
   * What `undo_move` indexes: a logged move it can write back, and an earlier
   * entry in both logs to restore.
   */
  predicate UndoReady(p: Position) {
    && IsGrid(p.board)
    && (|p.moveLog| > 0 ==>
          Applicable(Last(p.moveLog)) && |p.enPassantLog| >= 2 && |p.castleLog| >= 2)
  }

  /**
   * `undo_move`: nothing happens on an empty log; otherwise the last move is
   * popped and written back, the turn passes back, the previous en-passant
   * target and castling rights are restored, and both end-of-game flags are
   * cleared.
   */
  function Undo(p: Position): (r: Position)
    requires UndoReady(p)
    ensures IsGrid(r.board)
    ensures |p.moveLog| == 0 ==> r == p
    ensures |p.moveLog| > 0 ==>
      && r.moveLog == p.moveLog[..|p.moveLog| - 1]
      && r.whiteToMove == !p.whiteToMove
      && r.enPassantLog == p.enPassantLog[..|p.enPassantLog| - 1]
      && r.castleLog == p.castleLog[..|p.castleLog| - 1]
      && r.enPassant == Last(r.enPassantLog) && r.castling == Last(r.castleLog)
      && !r.checkmate && !r.stalemate
  {
    if |p.moveLog| == 0 then p
    else
      var m := Last(p.moveLog);
      var epLog := p.enPassantLog[..|p.enPassantLog| - 1];
      var crLog := p.castleLog[..|p.castleLog| - 1];
      var start := Sq(m.startRow, m.startCol);
      p.(board := UndoBoard(p.board, m),
         whiteToMove := !p.whiteToMove,
         moveLog := p.moveLog[..|p.moveLog| - 1],
         whiteKing := if m.pieceMoved == Piece(White, King) then start else p.whiteKing,
         blackKing := if m.pieceMoved == Piece(Black, King) then start else p.blackKing,
         enPassant := Last(epLog),
         enPassantLog := epLog,
         castling := Last(crLog),
         castleLog := crLog,
         checkmate := false,
         stalemate := false)
  }

  // ------------------------------------------------------------- round trip

  /**
   * The board facts a move must agree with to be taken back exactly: it
   * moves the piece on its start square, it records what stood on its end
   * square (or, en passant, the pawn beside it on the start row), and a
   * castle moves the king two columns over an empty square.
   */
  predicate BoardFits(b: Grid, m: Move) {
    && IsGrid(b) && Applicable(m)
    && b[m.startRow][m.startCol] == m.pieceMoved && m.pieceMoved != Empty
    && (!m.enPassantMove ==> m.pieceCaptured == b[m.endRow][m.endCol])
    && (m.enPassantMove ==>
          && !m.castleMove && b[m.endRow][m.endCol] == Empty
          && b[m.startRow][m.endCol] == m.pieceCaptured
          && m.startRow != m.endRow && m.startCol != m.endCol)
    && (m.castleMove ==>
          && m.startRow == m.endRow
          && ((m.endCol == m.startCol + 2 && b[m.endRow][m.endCol - 1] == Empty)
              || (m.endCol == m.startCol - 2 && b[m.endRow][m.endCol + 1] == Empty)))
  }

  lemma PlainRoundTrip(b: Grid, m: Move)
    requires BoardFits(b, m) && !m.enPassantMove && !m.castleMove
    ensures UndoBoard(ApplyBoard(b, m), m) == b
  {
    var b' := UndoBoard(ApplyBoard(b, m), m);
    forall i, j | OnBoard(i, j)
      ensures b'[i][j] == b[i][j]
    {
    }
    GridExt(b', b);
  }

  lemma EnPassantRoundTrip(b: Grid, m: Move)
    requires BoardFits(b, m) && m.enPassantMove
    ensures UndoBoard(ApplyBoard(b, m), m) == b
  {
    var b' := UndoBoard(ApplyBoard(b, m), m);
    forall i, j | OnBoard(i, j)
      ensures b'[i][j] == b[i][j]
    {
    }
    GridExt(b', b);
  }

  lemma CastleRoundTrip(b: Grid, m: Move)
    requires BoardFits(b, m) && m.castleMove
    ensures UndoBoard(ApplyBoard(b, m), m) == b
  {
    var b' := UndoBoard(ApplyBoard(b, m), m);
    forall i, j | OnBoard(i, j)
      ensures b'[i][j] == b[i][j]
    {
    }
    GridExt(b', b);
  }

  /** Taking back a move that fits the board restores the board. */
  lemma BoardRoundTrip(b: Grid, m: Move)
    requires BoardFits(b, m)
    ensures UndoBoard(ApplyBoard(b, m), m) == b
  {
    if m.castleMove {
      CastleRoundTrip(b, m);
    } else if m.enPassantMove {
      EnPassantRoundTrip(b, m);
    } else {
      PlainRoundTrip(b, m);
    }
  }

  /**
   * A move fits a position when it fits the board, a king move starts on the
   * tracked king square, and the current target and rights are the last
   * logged ones.
   */
  predicate Fits(p: Position, m: Move) {
    && BoardFits(p.board, m)
    && (m.pieceMoved == Piece(White, King) ==> p.whiteKing == m.Start())
    && (m.pieceMoved == Piece(Black, King) ==> p.blackKing == m.Start())
    && |p.enPassantLog| > 0 && Last(p.enPassantLog) == p.enPassant
    && |p.castleLog| > 0 && Last(p.castleLog) == p.castling
  }

  /** `undo_move` after `make_move` gives back the position, with both flags cleared. */
  lemma RoundTrip(p: Position, m: Move)
    requires Fits(p, m)
    ensures UndoReady(Apply(p, m))
    ensures Undo(Apply(p, m)) == p.(checkmate := false, stalemate := false)
  {
    BoardRoundTrip(p.board, m);
    var q := Apply(p, m);
    assert q.moveLog[..|q.moveLog| - 1] == p.moveLog;
    assert q.enPassantLog[..|q.enPassantLog| - 1] == p.enPassantLog;
    assert q.castleLog[..|q.castleLog| - 1] == p.castleLog;
  }

  /** Every move the logs can take back: each log one entry longer than the move log, ending in the current value. */
  predicate InSync(p: Position) {
    && |p.enPassantLog| == |p.moveLog| + 1 && |p.castleLog| == |p.moveLog| + 1
    && Last(p.enPassantLog) == p.enPassant && Last(p.castleLog) == p.castling
    && forall x :: x in p.moveLog ==> Applicable(x)
  }

  /**
   * After a move is made, there is an en-passant target exactly when a pawn
   * moved two rows, and it is the square in the end column that the pawn
   * passed over.
   */
  lemma EnPassantTarget(p: Position, m: Move)
    requires IsGrid(p.board) && Applicable(m) && p.board[m.startRow][m.startCol] != Empty
    ensures var t := Apply(p, m).enPassant;
      && (t.Some? <==> m.pieceMoved.Piece? && m.pieceMoved.kind == Pawn && Abs(m.startRow - m.endRow) == 2)
      && (t.Some? ==> t.value.col == m.endCol
                      && Abs(t.value.row - m.startRow) == 1 && Abs(t.value.row - m.endRow) == 1)
  {
  }

  /** Making a move keeps the logs in step. */
  lemma ApplyKeepsInSync(p: Position, m: Move)
    requires IsGrid(p.board) && Applicable(m) && InSync(p)
    ensures InSync(Apply(p, m))
  {
  }

  /** Taking a move back is always possible from logs in step, and keeps them in step. */
  lemma UndoKeepsInSync(p: Position)
    requires IsGrid(p.board) && InSync(p)
    ensures UndoReady(p) && InSync(Undo(p))
  {
    if |p.moveLog| > 0 {
      assert Last(p.moveLog) in p.moveLog;
      var q := Undo(p);
      forall x | x in q.moveLog
        ensures Applicable(x)
      {
        assert x in p.moveLog;
      }
    }
  }

  // ------------------------------------------------------------- invariant

  /** The tracked king squares hold the kings, and no other square holds one. */
  predicate KingsTracked(p: Position)
    requires IsGrid(p.board)
  {
    && OnBoard(p.whiteKing.row, p.whiteKing.col)
    && p.board[p.whiteKing.row][p.whiteKing.col] == Piece(White, King)
    && OnBoard(p.blackKing.row, p.blackKing.col)
    && p.board[p.blackKing.row][p.blackKing.col] == Piece(Black, King)
    && (forall i, j :: 0 <= i < 8 && 0 <= j < 8 && p.board[i][j] == Piece(White, King) ==> p.whiteKing == Sq(i, j))
    && (forall i, j :: 0 <= i < 8 && 0 <= j < 8 && p.board[i][j] == Piece(Black, King) ==> p.blackKing == Sq(i, j))
  }

  /**
   * An en-passant target is the empty square an enemy pawn just passed over,
   * with that pawn on the square beyond it.
   */
  predicate EnPassantSound(p: Position)
    requires IsGrid(p.board)
  {
    match p.enPassant
    case None => true
    case Some(t) =>
      0 <= t.col < 8 &&
      if p.whiteToMove then t.row == 2 && p.board[2][t.col] == Empty && p.board[3][t.col] == Piece(Black, Pawn)
      else t.row == 5 && p.board[5][t.col] == Empty && p.board[4][t.col] == Piece(White, Pawn)
  }

  /** The king square of a colour. */
  function KingOf(p: Position, white: bool): Square {
    if white then p.whiteKing else p.blackKing
  }

  /** The back rank of a colour: row 7 for white, row 0 for black. */
  function BackRank(white: bool): int {
    if white then 7 else 0
  }

  /**
   * A colour still holding a castling right has its king on its home square
   * and, for each wing it may still castle on, its rook on that corner.
   */
  predicate WingSound(p: Position, white: bool)
    requires IsGrid(p.board)
  {
    var row := BackRank(white);
    && (KingSideRight(p.castling, white) || QueenSideRight(p.castling, white) ==> KingOf(p, white) == Sq(row, 4))
    && (KingSideRight(p.castling, white) ==> p.board[row][7] == Piece(Mover(white), Rook))
    && (QueenSideRight(p.castling, white) ==> p.board[row][0] == Piece(Mover(white), Rook))
  }

  predicate CastleSound(p: Position)
    requires IsGrid(p.board)
  {
    WingSound(p, true) && WingSound(p, false)
  }

  /** `in_check`: the mover's king square is attacked by the other side. */
  predicate InCheck(p: Position)
    requires WellFormed(p.board)
  {
    var k := KingOf(p, p.whiteToMove);
    Attacked(p.board, !p.whiteToMove, p.enPassant, k.row, k.col)
  }

  /** The other side to move, nothing else changed. */
  function Flip(p: Position): Position {
    p.(whiteToMove := !p.whiteToMove)
  }

  /**
   * The consistency of a position reached in play: logs in step, kings
   * tracked, target and rights sound, and the side that has just moved not
   * in check.  A new game has it (InitialCoherent) and every valid move
   * keeps it (GameInvariant.ValidMoveKeepsCoherent).
   */
  predicate Coherent(p: Position) {
    && WellFormed(p.board) && InSync(p) && KingsTracked(p)
    && EnPassantSound(p) && CastleSound(p) && !InCheck(Flip(p))
  }

  /** No white piece in front of row 6, and a white pawn on every square of row 6. */
  predicate WhiteBehindPawns(b: Grid)
    requires IsGrid(b)
  {
    && (forall i, j :: 0 <= i < 6 && 0 <= j < 8 ==> !IsFriend(b[i][j], true))
    && (forall j :: 0 <= j < 8 ==> b[6][j] == Piece(White, Pawn))
  }

  /**
   * With every white piece behind a full row of white pawns, as at the
   * start, no pseudo-legal white move gets past row 4.
   */
  lemma BehindPawnsStayBack(b: Grid, ep: Option<Square>, m: Move)
    requires WellFormed(b) && WhiteBehindPawns(b) && Pseudo(b, true, ep, m)
    ensures m.endRow >= 4
  {
    var r, c := m.startRow, m.startCol;
    assert 6 <= r;
    if m.pieceMoved.kind in {Bishop, Rook, Queen} {
      var d, j :| d in RookDirections + BishopDirections && 1 <= j < 8 && ClearPath(b, r, c, d, j)
        && m.endRow == r + d.0 * j;
      SlideStaysBack(b, r, c, d, j);
    }
  }

  /** A ray from the back rank, behind the full pawn row, ends on that row or behind it. */
  lemma SlideStaysBack(b: Grid, r: int, c: int, d: Offset, j: int)
    requires IsGrid(b) && WhiteBehindPawns(b) && r == 7 && 0 <= c < 8
    requires d in RookDirections + BishopDirections && 1 <= j < 8 && ClearPath(b, r, c, d, j)
    ensures r + d.0 * j >= 6
  {
    if j > 1 {
      ClearPathBefore(b, r, c, d, j, 1);
    }
  }

  /** The back-rank piece of column j in the starting position. */
  function BackRankKind(j: int): Kind {
    if j == 0 || j == 7 then Rook
    else if j == 1 || j == 6 then Knight
    else if j == 2 || j == 5 then Bishop
    else if j == 3 then Queen
    else King
  }

  /** The cell on (i, j) in the starting position. */
  function StartCell(i: int, j: int): Cell {
    if i == 0 then Piece(Black, BackRankKind(j))
    else if i == 1 then Piece(Black, Pawn)
    else if i == 6 then Piece(White, Pawn)
    else if i == 7 then Piece(White, BackRankKind(j))
    else Empty
  }

  lemma InitialCells()
    ensures IsGrid(InitialBoard())
    ensures forall i, j :: OnBoard(i, j) ==> InitialBoard()[i][j] == StartCell(i, j)
  {
    var b := InitialBoard();
    forall i, j | OnBoard(i, j)
      ensures b[i][j] == StartCell(i, j)
    {
      if i == 0 || i == 7 {
        assert j in {0, 1, 2, 3, 4, 5, 6, 7};
      }
    }
  }

  /** The kings start on e1 and e8, and nowhere else. */
  lemma StartKingsAt(i: int, j: int)
    requires OnBoard(i, j)
    ensures StartCell(i, j) == Piece(White, King) ==> i == 7 && j == 4
    ensures StartCell(i, j) == Piece(Black, King) ==> i == 0 && j == 4
  {
  }

  lemma InitialBehindPawns()
    ensures WellFormed(InitialBoard()) && WhiteBehindPawns(InitialBoard())
  {
    InitialCells();
  }

  /** At the start black's king is not attacked. */
  lemma InitialNoCheck()
    ensures WellFormed(InitialBoard())
    ensures !Attacked(InitialBoard(), true, None, 0, 4)
  {
    var b := InitialBoard();
    InitialBehindPawns();
    AttackedExactly(b, true, None, 0, 4);
    forall m | Pseudo(b, true, None, m)
      ensures m.endRow != 0
    {
      BehindPawnsStayBack(b, None, m);
    }
  }

  /**
   * A position with the kings tracked and the rooks on their corners, white
   * to move, black's king not attacked, no target, every right, and logs
   * holding only the current entries, is consistent.
   */
  lemma StartLayoutCoherent(p: Position)
    requires WellFormed(p.board) && KingsTracked(p) && !Attacked(p.board, true, None, 0, 4)
    requires p.board[7][0] == Piece(White, Rook) && p.board[7][7] == Piece(White, Rook)
    requires p.board[0][0] == Piece(Black, Rook) && p.board[0][7] == Piece(Black, Rook)
    requires p.whiteToMove && p.moveLog == [] && p.enPassant == None && p.enPassantLog == [None]
    requires p.whiteKing == Sq(7, 4) && p.blackKing == Sq(0, 4)
    requires p.castling == Castle(true, true, true, true) && p.castleLog == [p.castling]
    ensures Coherent(p)
  {
  }

  /** In a position laid out cell by cell as at the start, the kings on e1 and e8 are tracked. */
  lemma StartLayoutKings(p: Position)
    requires IsGrid(p.board) && forall i, j :: OnBoard(i, j) ==> p.board[i][j] == StartCell(i, j)
    requires p.whiteKing == Sq(7, 4) && p.blackKing == Sq(0, 4)
    ensures KingsTracked(p)
  {
    forall i, j | OnBoard(i, j)
      ensures p.board[i][j] == Piece(White, King) ==> Sq(i, j) == p.whiteKing
      ensures p.board[i][j] == Piece(Black, King) ==> Sq(i, j) == p.blackKing
    {
      StartKingsAt(i, j);
    }
  }

  /** The starting position is consistent. */
  lemma InitialCoherent()
    ensures Coherent(InitialPosition())
  {
    var p := InitialPosition();
    InitialNoCheck();
    InitialCells();
    StartLayoutKings(p);
    assert p.board[7][0] == StartCell(7, 0) && p.board[7][7] == StartCell(7, 7);
    assert p.board[0][0] == StartCell(0, 0) && p.board[0][7] == StartCell(0, 7);
    StartLayoutCoherent(p);
  }

  // ------------------------------------------------------------- candidates

  /** The castling rights of a consistent position only look at squares on the board. */
  lemma CoherentCastleReach(p: Position)
    requires Coherent(p)
    ensures var k := KingOf(p, p.whiteToMove);
      OnBoard(k.row, k.col) && CastleReach(p.castling, p.whiteToMove, k.row, k.col)
  {
  }

  /**
   * The list `get_valid_moves` starts from: every pseudo-legal move, then the
   * castles of the king.
   */
  function Candidates(p: Position): seq<Move>
    requires Coherent(p)
  {
    AllPossibleMoves(p.board, p.whiteToMove, p.enPassant) + KingCastles(p)
  }

  /** `get_castle_moves` from the tracked king square of the side to move. */
  function KingCastles(p: Position): seq<Move>
    requires Coherent(p)
  {
    var k := KingOf(p, p.whiteToMove);
    CoherentCastleReach(p);
    CastleMoves(p.board, p.whiteToMove, p.enPassant, p.castling, k.row, k.col)
  }

  /**
   * A castle generated for the king of w on its home square k moves that
   * king two columns along its back rank, past an empty square, onto the
   * square whose cell it records as captured.
   */
  lemma CastleFromHome(b: Grid, w: bool, ep: Option<Square>, cr: Castle, k: Square, m: Move)
    requires WellFormed(b) && k == Sq(BackRank(w), 4) && b[k.row][k.col] == Piece(Mover(w), King)
    requires CastleReach(cr, w, k.row, k.col) && m in CastleMoves(b, w, ep, cr, k.row, k.col)
    ensures m.Start() == k && m.pieceMoved == Piece(Mover(w), King)
    ensures m.castleMove && !m.enPassantMove && m.startRow == m.endRow && m.startCol == 4
    ensures m.endCol == 6 || m.endCol == 2
    ensures BoardFits(b, m)
  {
  }

  /** A castle is a king move two columns along its home row, over an empty square. */
  lemma CastleMoveShape(p: Position, m: Move)
    requires Coherent(p) && m in KingCastles(p)
    ensures m.Start() == KingOf(p, p.whiteToMove) && m.pieceMoved == Piece(Mover(p.whiteToMove), King)
    ensures m.castleMove && !m.enPassantMove && m.startRow == m.endRow && m.startCol == 4
    ensures m.endCol == 6 || m.endCol == 2
    ensures Fits(p, m)
  {
    var w := p.whiteToMove;
    var k := KingOf(p, w);
    CoherentCastleReach(p);
    assert KingSideRight(p.castling, w) || QueenSideRight(p.castling, w);
    CastleFromHome(p.board, w, p.enPassant, p.castling, k, m);
  }

  /** Every candidate of a consistent position fits it, so it can be made and taken back. */
  lemma CandidatesFit(p: Position, m: Move)
    requires Coherent(p) && m in Candidates(p)
    ensures Fits(p, m)
  {
    var all := AllPossibleMoves(p.board, p.whiteToMove, p.enPassant);
    if m in all {
      AllPossibleExactly(p.board, p.whiteToMove, p.enPassant, m);
      PseudoFits(p, m);
    } else {
      CastleMoveShape(p, m);
    }
  }

  /** A pseudo-legal move of a consistent position can be made and taken back. */
  lemma PseudoFits(p: Position, m: Move)
    requires Coherent(p) && Pseudo(p.board, p.whiteToMove, p.enPassant, m)
    ensures Fits(p, m)
  {
    if m.enPassantMove {
      EnPassantFits(p, m);
    }
  }

  /** An en-passant capture takes the enemy pawn standing beside the start square. */
  lemma EnPassantFits(p: Position, m: Move)
    requires Coherent(p) && Pseudo(p.board, p.whiteToMove, p.enPassant, m) && m.enPassantMove
    ensures BoardFits(p.board, m)
  {
    assert m.pieceMoved.kind == Pawn;
    assert p.enPassant == Some(m.End());
  }

  /** A pseudo-legal move and a castle never share both squares. */
  lemma PseudoApartFromCastle(p: Position, x: Move, y: Move)
    requires Coherent(p) && Pseudo(p.board, p.whiteToMove, p.enPassant, x) && y in KingCastles(p)
    ensures x.Start() != y.Start() || x.End() != y.End()
  {
    CastleMoveShape(p, y);
    KingStepIsNoJump(p.board, p.whiteToMove, p.enPassant, x, y);
  }

  /** A pseudo-legal move from the square of the king of w moves it at most one column. */
  lemma KingStepIsNoJump(b: Grid, w: bool, ep: Option<Square>, x: Move, y: Move)
    requires IsGrid(b) && Pseudo(b, w, ep, x)
    requires OnBoard(y.startRow, y.startCol) && b[y.startRow][y.startCol] == Piece(Mover(w), King)
    requires y.endCol == y.startCol + 2 || y.endCol == y.startCol - 2
    ensures x.Start() != y.Start() || x.End() != y.End()
  {
    if x.Start() == y.Start() {
      assert Steps(b, w, x, KingOffsets);
      assert -1 <= x.endCol - x.startCol <= 1;
    }
  }

  lemma CastlesDistinct(p: Position)
    requires Coherent(p)
    ensures DistinctSquares(KingCastles(p))
  {
    var castles := KingCastles(p);
    forall i, j | 0 <= i < j < |castles|
      ensures castles[i].End() != castles[j].End()
    {
      assert |castles| <= 2;
    }
  }

  /** No two candidates share both squares, so no two have the same id. */
  lemma CandidatesDistinct(p: Position)
    requires Coherent(p)
    ensures DistinctSquares(Candidates(p))
  {
    var w := p.whiteToMove;
    var all := AllPossibleMoves(p.board, w, p.enPassant);
    var castles := KingCastles(p);
    AllPossibleDistinct(p.board, w, p.enPassant);
    CastlesDistinct(p);
    forall x, y | x in all && y in castles
      ensures x.Start() != y.Start() || x.End() != y.End()
    {
      AllPossibleExactly(p.board, w, p.enPassant, x);
      PseudoApartFromCastle(p, x, y);
    }
    ConcatDistinct(all, castles);
  }

  // ------------------------------------------------------------- legality

  /**
   * The test in `get_valid_moves`: make the move, hand the turn back to the
   * mover, and ask whether the mover is in check.
   */
  predicate Safe(p: Position, m: Move)
    requires WellFormed(p.board) && Applicable(m)
  {
    !InCheck(Flip(Apply(p, m)))
  }

  /** The moves of the list that are safe, in list order. */
  function KeepSafe(p: Position, ms: seq<Move>): (r: seq<Move>)
    requires WellFormed(p.board) && forall x :: x in ms ==> Applicable(x)
    ensures |r| <= |ms|
    decreases |ms|
  {
    if ms == [] then []
    else (if Safe(p, ms[0]) then [ms[0]] else []) + KeepSafe(p, ms[1..])
  }

  /** The filter keeps exactly the safe moves of the list. */
  lemma {:induction false} KeepSafeExactly(p: Position, ms: seq<Move>, x: Move)
    requires WellFormed(p.board) && forall y :: y in ms ==> Applicable(y)
    ensures x in KeepSafe(p, ms) <==> x in ms && Safe(p, x)
    decreases |ms|
  {
    if ms != [] {
      KeepSafeExactly(p, ms[1..], x);
      assert ms == [ms[0]] + ms[1..];
    }
  }

  lemma CandidatesApplicable(p: Position)
    requires Coherent(p)
    ensures forall x :: x in Candidates(p) ==> Applicable(x)
  {
    forall x | x in Candidates(p)
      ensures Applicable(x)
    {
      CandidatesFit(p, x);
    }
  }

  /** `get_valid_moves`: the candidates that do not leave the mover's king attacked. */
  function ValidMoves(p: Position): seq<Move>
    requires Coherent(p)
  {
    CandidatesApplicable(p);
    KeepSafe(p, Candidates(p))
  }

  /**
   * A move is valid exactly when it is pseudo-legal or a castle of the king,
   * and making it does not leave the mover in check.
   */
  lemma ValidMovesExactly(p: Position, m: Move)
    requires Coherent(p)
    ensures m in ValidMoves(p) <==>
      (Pseudo(p.board, p.whiteToMove, p.enPassant, m) || m in KingCastles(p))
      && Applicable(m) && Safe(p, m)
  {
    CandidatesApplicable(p);
    KeepSafeExactly(p, Candidates(p), m);
    AllPossibleExactly(p.board, p.whiteToMove, p.enPassant, m);
    if Pseudo(p.board, p.whiteToMove, p.enPassant, m) || m in KingCastles(p) {
      assert m in Candidates(p);
    }
  }

  /**
   * One step of the backward pass of `get_valid_moves` over a list of moves
   * with distinct ids: when the list is the moves up to i followed by some
   * rest, keeping the i-th move leaves the moves before i, that move and
   * the rest, and removing the first move with its id leaves the moves
   * before i and the rest.
   */
  lemma KeepOrDropAt(cs: seq<Move>, i: int, ms: seq<Move>, rest: seq<Move>)
    requires forall j, k :: 0 <= j < k < |cs| ==> !SameMove(cs[j], cs[k])
    requires 0 <= i < |cs| && ms == cs[..i + 1] + rest
    ensures 0 <= i < |ms| && ms[i] == cs[i] && SameMove(ms[i], ms[i])
    ensures ms == cs[..i] + ([cs[i]] + rest)
    ensures RemoveFirst(ms, ms[i]) == cs[..i] + ([] + rest)
  {
    SplitAt(cs, i, ms, rest);
    FirstOfItsId(cs, i, ms);
    RemoveFirstAt(ms, i);
  }

  /** The list up to i followed by rest, cut around i. */
  lemma SplitAt(cs: seq<Move>, i: int, ms: seq<Move>, rest: seq<Move>)
    requires 0 <= i < |cs| && ms == cs[..i + 1] + rest
    ensures ms[..i] == cs[..i] && ms[i] == cs[i] && ms[i + 1..] == rest
    ensures ms == cs[..i] + ([cs[i]] + rest)
    ensures ms[..i] + ms[i + 1..] == cs[..i] + ([] + rest)
  {
    assert cs[..i + 1] == cs[..i] + [cs[i]];
    assert [] + rest == rest;
  }

  /** In a list of distinct ids, a move has no earlier move with its id, whatever follows it. */
  lemma FirstOfItsId(cs: seq<Move>, i: int, ms: seq<Move>)
    requires forall j, k :: 0 <= j < k < |cs| ==> !SameMove(cs[j], cs[k])
    requires 0 <= i < |cs| && i < |ms| && ms[..i + 1] == cs[..i + 1]
    ensures forall j :: 0 <= j < i ==> !SameMove(ms[j], ms[i])
  {
    forall j | 0 <= j < i
      ensures !SameMove(ms[j], ms[i])
    {
      assert ms[j] == cs[j] && ms[i] == cs[i];
    }
  }

  /** The filter from index i decides on the i-th move, then goes on from i + 1. */
  lemma KeepSafeAt(p: Position, cs: seq<Move>, i: int)
    requires WellFormed(p.board) && forall x :: x in cs ==> Applicable(x)
    requires 0 <= i < |cs|
    ensures KeepSafe(p, cs[i..]) == (if Safe(p, cs[i]) then [cs[i]] else []) + KeepSafe(p, cs[i + 1..])
  {
    assert cs[i..][1..] == cs[i + 1..];
    assert cs[i..][0] == cs[i];
  }

  /** Whether the mover is in check does not depend on the end-of-game flags. */
  lemma InCheckIgnoresFlags(p: Position, checkmate: bool, stalemate: bool)
    requires WellFormed(p.board)
    ensures InCheck(p.(checkmate := checkmate, stalemate := stalemate)) == InCheck(p)
  {
  }

  /** Consistency does not depend on the end-of-game flags. */
  lemma CoherentIgnoresFlags(p: Position, checkmate: bool, stalemate: bool)
    requires Coherent(p)
    ensures Coherent(p.(checkmate := checkmate, stalemate := stalemate))
  {
    var q := p.(checkmate := checkmate, stalemate := stalemate);
    InCheckIgnoresFlags(Flip(p), checkmate, stalemate);
    assert Flip(q) == Flip(p).(checkmate := checkmate, stalemate := stalemate);
  }

  /**
   * The end-of-game flags take no part in whether a move fits a position or
   * in the legality test.
   */
  lemma FlagsIgnored(p: Position, checkmate: bool, stalemate: bool, m: Move)
    requires WellFormed(p.board) && Applicable(m)
    ensures var q := p.(checkmate := checkmate, stalemate := stalemate);
      Fits(q, m) == Fits(p, m) && Safe(q, m) == Safe(p, m)
  {
    var q := p.(checkmate := checkmate, stalemate := stalemate);
    assert Apply(q, m) == Apply(p, m).(checkmate := checkmate, stalemate := stalemate);
  }

  /** Every valid move is one `make_move` can be given. */
  lemma ValidMovesApplicable(p: Position)
    requires Coherent(p)
    ensures forall x :: x in ValidMoves(p) ==> Applicable(x)
  {
    forall x | x in ValidMoves(p)
      ensures Applicable(x)
    {
      ValidMovesExactly(p, x);
    }
  }

  /**
   * The end-of-game flags `get_valid_moves` leaves in q when moves are the
   * valid moves of p: moves left clear both; none left sets checkmate when
   * the mover is in check and stalemate otherwise, and clears the other flag
   * unless there was no candidate to try at all.
   */
  predicate EndFlags(p: Position, moves: seq<Move>, q: Position)
    requires Coherent(p)
  {
    && (|moves| > 0 ==> !q.checkmate && !q.stalemate)
    && (|moves| == 0 ==> if InCheck(p) then q.checkmate else q.stalemate)
    && (|moves| == 0 && |Candidates(p)| > 0 ==> q.checkmate != q.stalemate)
    && (|Candidates(p)| == 0 ==>
          if InCheck(p) then q.stalemate == p.stalemate else q.checkmate == p.checkmate)
  }

  /** p is consistent and moves are its valid moves, each one `make_move` can be given. */
  predicate Offers(p: Position, moves: seq<Move>) {
    && Coherent(p) && moves == ValidMoves(p)
    && forall x :: x in moves ==> Applicable(x)
  }

  /** After the end-of-game flags are set, the position still offers its valid moves. */
  lemma OffersAfterFlags(p: Position, checkmate: bool, stalemate: bool, moves: seq<Move>)
    requires Coherent(p) && moves == ValidMoves(p)
    ensures Offers(p.(checkmate := checkmate, stalemate := stalemate), moves)
  {
    ValidMovesIgnoreFlags(p, checkmate, stalemate);
    ValidMovesApplicable(p);
  }

  /** The safety filter does not look at the end-of-game flags. */
  lemma {:induction false} KeepSafeIgnoresFlags(p: Position, checkmate: bool, stalemate: bool, ms: seq<Move>)
    requires WellFormed(p.board) && forall x :: x in ms ==> Applicable(x)
    ensures KeepSafe(p.(checkmate := checkmate, stalemate := stalemate), ms) == KeepSafe(p, ms)
    decreases |ms|
  {
    if ms != [] {
      FlagsIgnored(p, checkmate, stalemate, ms[0]);
      KeepSafeIgnoresFlags(p, checkmate, stalemate, ms[1..]);
    }
  }

  /** Setting checkmate or stalemate changes neither consistency nor the valid moves. */
  lemma ValidMovesIgnoreFlags(p: Position, checkmate: bool, stalemate: bool)
    requires Coherent(p)
    ensures Coherent(p.(checkmate := checkmate, stalemate := stalemate))
    ensures ValidMoves(p.(checkmate := checkmate, stalemate := stalemate)) == ValidMoves(p)
  {
    var q := p.(checkmate := checkmate, stalemate := stalemate);
    CoherentIgnoresFlags(p, checkmate, stalemate);
    assert Candidates(q) == Candidates(p);
    CandidatesApplicable(p);
    KeepSafeIgnoresFlags(p, checkmate, stalemate, Candidates(p));
  }

  /**
   * r is ms without its element at k, the first element whose id is that
   * of x, with the order of the others kept.
   */
  predicate DropsFirstAt(ms: seq<Move>, x: Move, k: int, r: seq<Move>) {
    && 0 <= k < |ms| && SameMove(ms[k], x)
    && (forall j :: 0 <= j < k ==> !SameMove(ms[j], x))
    && r == ms[..k] + ms[k + 1..]
  }

  /** `list.remove`: drop the first element equal to x, equality being the move id. */
  function RemoveFirst(ms: seq<Move>, x: Move): (r: seq<Move>)
    requires exists i :: 0 <= i < |ms| && SameMove(ms[i], x)
    ensures |r| == |ms| - 1
    ensures forall y :: y in r ==> y in ms
    ensures exists k :: DropsFirstAt(ms, x, k, r)
  {
    if SameMove(ms[0], x) then
      assert DropsFirstAt(ms, x, 0, ms[1..]);
      ms[1..]
    else
      var t := ms[1..];
      assert exists i :: 0 <= i < |t| && SameMove(t[i], x) by {
        var i :| 0 <= i < |ms| && SameMove(ms[i], x);
        assert i > 0 && t[i - 1] == ms[i];
      }
      var rest := RemoveFirst(t, x);
      var k :| DropsFirstAt(t, x, k, rest);
      DropsFirstStep(ms, x, k, rest);
      [ms[0]] + rest
  }

  /** Removing from the tail of a list whose head differs removes one position further on. */
  lemma DropsFirstStep(ms: seq<Move>, x: Move, k: int, rest: seq<Move>)
    requires |ms| > 0 && !SameMove(ms[0], x) && DropsFirstAt(ms[1..], x, k, rest)
    ensures DropsFirstAt(ms, x, k + 1, [ms[0]] + rest)
  {
    var t := ms[1..];
    assert ms[k + 1] == t[k];
    forall j | 0 <= j < k + 1
      ensures !SameMove(ms[j], x)
    {
      if j > 0 {
        assert ms[j] == t[j - 1];
      }
    }
    assert ms[..k + 1] == [ms[0]] + t[..k];
    assert ms[k + 2..] == t[k + 1..];
  }

  /** When no earlier element has the same id, removing ms[i] removes position i. */
  lemma RemoveFirstAt(ms: seq<Move>, i: int)
    requires 0 <= i < |ms| && forall j :: 0 <= j < i ==> !SameMove(ms[j], ms[i])
    ensures RemoveFirst(ms, ms[i]) == ms[..i] + ms[i + 1..]
  {
    var k :| DropsFirstAt(ms, ms[i], k, RemoveFirst(ms, ms[i]));
    assert k == i;
  }

  /** Among the candidates, an earlier move never has the id of a later one. */
  lemma CandidateIdsDistinct(p: Position, i: int, j: int)
    requires Coherent(p) && 0 <= j < i < |Candidates(p)|
    ensures !SameMove(Candidates(p)[j], Candidates(p)[i])
  {
    var C := Candidates(p);
    CandidatesDistinct(p);
    CandidatesApplicable(p);
    assert C[i] in C && C[j] in C;
    SameMoveIffSameSquares(C[j], C[i]);
  }

  /**
   * What the backward pass needs of the candidates: each can be made and
   * taken back, and no two share an id.
   */
  lemma CandidatesReady(p: Position)
    requires Coherent(p)
    ensures forall x :: x in Candidates(p) ==> Applicable(x) && Fits(p, x)
    ensures forall j, k :: 0 <= j < k < |Candidates(p)| ==> !SameMove(Candidates(p)[j], Candidates(p)[k])
  {
    var C := Candidates(p);
    forall x | x in C
      ensures Applicable(x) && Fits(p, x)
    {
      CandidatesFit(p, x);
    }
    forall j, k | 0 <= j < k < |C|
      ensures !SameMove(C[j], C[k])
    {
      CandidateIdsDistinct(p, k, j);
    }
  }
}
