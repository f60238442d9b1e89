/**
 * The consistency a game keeps: making a move that `get_valid_moves`
 * returns leaves a consistent position, so every position of a game played
 * from the start with such moves is one the legality test applies to.
 */
module GameInvariant {
  import opened ChessBoard
  import opened ChessMove
  import opened CastleRights
  import opened MoveGen
  import opened GenFacts
  import opened GameModel

  /** The column a castle's rook leaves: the corner on the king's side of travel. */
  function RookFrom(m: Move): int {
    if m.endCol - m.startCol == 2 then m.endCol + 1 else m.endCol - 2
  }

  /** The column a castle's rook lands on: the square the king passed over. */
  function RookTo(m: Move): int {
    if m.endCol - m.startCol == 2 then m.endCol - 1 else m.endCol + 1
  }

  /** The cell a move leaves on its end square: the moved piece, or a queen for a promoting pawn. */
  function Arriving(m: Move): Cell
    requires Applicable(m)
  {
    if m.pawnPromotion then Piece(m.pieceMoved.color, Queen) else m.pieceMoved
  }

  /**
   * Square by square, the board after the writes of `make_move`: the castle
   * rook's corner is emptied and the rook lands beside the king, the pawn
   * taken en passant is removed, the end square gets the arriving piece and
   * the start square is emptied; every other square keeps its cell.
   */
  function CellAfter(b: Grid, m: Move, i: int, j: int): Cell
    requires IsGrid(b) && Applicable(m) && OnBoard(i, j)
  {
    if m.castleMove && i == m.endRow && j == RookFrom(m) then Empty
    else if m.castleMove && i == m.endRow && j == RookTo(m) then b[m.endRow][RookFrom(m)]
    else if m.enPassantMove && i == m.startRow && j == m.endCol then Empty
    else if i == m.endRow && j == m.endCol then Arriving(m)
    else if i == m.startRow && j == m.startCol then Empty
    else b[i][j]
  }

  /** The board writes of a move that fits the board, described square by square. */
  lemma ApplyBoardCells(b: Grid, m: Move)
    requires BoardFits(b, m)
    ensures forall i, j :: OnBoard(i, j) ==> ApplyBoard(b, m)[i][j] == CellAfter(b, m, i, j)
  {
  }

  predicate IsKing(x: Cell) {
    x.Piece? && x.kind == King
  }

  /**
   * What the preservation proof needs of a move made from p: it fits p, it
   * moves a piece of the side to move and takes no king, en passant it is a
   * pawn taking a pawn, a castle moves the king along its back rank with its
   * rook on the corner and an empty square beside the king, a pawn's double
   * step leaves the home row over an empty square.
   */
  predicate Played(p: Position, m: Move)
    requires WellFormed(p.board)
  {
    var b, w := p.board, p.whiteToMove;
    && Fits(p, m)
    && IsFriend(m.pieceMoved, w)
    && !IsKing(b[m.endRow][m.endCol])
    && (m.enPassantMove ==>
          m.pieceMoved.kind == Pawn && m.pieceCaptured == Piece(Opposite(Mover(w)), Pawn))
    && (m.castleMove ==>
          && m.pieceMoved == Piece(Mover(w), King) && m.endRow == BackRank(w)
          && b[m.endRow][RookFrom(m)] == Piece(Mover(w), Rook) && b[m.endRow][RookTo(m)] == Empty)
    && (m.pieceMoved.kind == Pawn && Abs(m.startRow - m.endRow) == 2 ==>
          && m.startRow == HomeRow(w) && m.endRow == m.startRow + 2 * Forward(w)
          && m.endCol == m.startCol && b[m.startRow + Forward(w)][m.startCol] == Empty)
  }

  /**
   * A pseudo-legal move never takes a king: not its own, which is a friend,
   * and not the other, which the side that has just moved left unattacked.
   */
  lemma PseudoTakesNoKing(p: Position, m: Move)
    requires Coherent(p) && Pseudo(p.board, p.whiteToMove, p.enPassant, m)
    ensures !IsKing(p.board[m.endRow][m.endCol])
  {
    var b, w := p.board, p.whiteToMove;
    AttackedExactly(b, w, p.enPassant, m.endRow, m.endCol);
    assert Attacked(b, w, p.enPassant, m.endRow, m.endCol);
    assert KingOf(Flip(p), !w) != m.End();
  }

  lemma PseudoPlayed(p: Position, m: Move)
    requires Coherent(p) && Pseudo(p.board, p.whiteToMove, p.enPassant, m)
    requires Fits(p, m)
    ensures Played(p, m)
  {
    PseudoTakesNoKing(p, m);
  }

  lemma CastlePlayed(p: Position, m: Move)
    requires Coherent(p) && m in KingCastles(p)
    ensures Played(p, m)
  {
    CastleMoveShape(p, m);
    var b, w := p.board, p.whiteToMove;
    var k := KingOf(p, w);
    if m.endCol == 6 {
      assert m in KingSideMoves(b, w, p.enPassant, k.row, k.col);
    } else {
      assert m in QueenSideMoves(b, w, p.enPassant, k.row, k.col);
    }
  }

  /** Every move `get_valid_moves` returns is one the preservation proof covers. */
  lemma ValidMovePlayed(p: Position, m: Move)
    requires Coherent(p) && m in ValidMoves(p)
    ensures Played(p, m) && Safe(p, m)
  {
    ValidMovesExactly(p, m);
    CandidatesApplicable(p);
    KeepSafeExactly(p, Candidates(p), m);
    CandidatesFit(p, m);
    if m in KingCastles(p) {
      CastlePlayed(p, m);
    } else {
      PseudoPlayed(p, m);
    }
  }

  /** The king square of colour x holds its king, and no other square does. */
  predicate KingAt(p: Position, x: bool)
    requires IsGrid(p.board)
  {
    var k := KingOf(p, x);
    && OnBoard(k.row, k.col) && p.board[k.row][k.col] == Piece(Mover(x), King)
    && forall i, j :: 0 <= i < 8 && 0 <= j < 8 && p.board[i][j] == Piece(Mover(x), King) ==> Sq(i, j) == k
  }

  /** A king that moves is tracked to its end square. */
  lemma MovedKingKept(p: Position, m: Move, x: bool)
    requires WellFormed(p.board) && KingsTracked(p) && Played(p, m) && m.pieceMoved == Piece(Mover(x), King)
    ensures KingAt(Apply(p, m), x)
  {
    ApplyBoardCells(p.board, m);
  }

  /** A king that does not move keeps its square, and no piece becomes a king of its colour. */
  lemma StillKingKept(p: Position, m: Move, x: bool)
    requires WellFormed(p.board) && KingsTracked(p) && Played(p, m) && m.pieceMoved != Piece(Mover(x), King)
    ensures KingAt(Apply(p, m), x)
  {
    var b, q, k := p.board, Apply(p, m), KingOf(p, x);
    var K := Piece(Mover(x), King);
    ApplyBoardCells(b, m);
    assert Arriving(m) != K;
    assert KingOf(q, x) == k && b[k.row][k.col] == K;
    assert q.board[k.row][k.col] == CellAfter(b, m, k.row, k.col);
    forall i, j | 0 <= i < 8 && 0 <= j < 8 && q.board[i][j] == K
      ensures Sq(i, j) == k
    {
      assert CellAfter(b, m, i, j) == K;
    }
  }

  /** After a played move the king of each colour stands on its tracked square, and only there. */
  lemma KingKept(p: Position, m: Move, x: bool)
    requires WellFormed(p.board) && KingsTracked(p) && Played(p, m)
    ensures KingAt(Apply(p, m), x)
  {
    if m.pieceMoved == Piece(Mover(x), King) {
      MovedKingKept(p, m, x);
    } else {
      StillKingKept(p, m, x);
    }
  }

  lemma KingsStayTracked(p: Position, m: Move)
    requires WellFormed(p.board) && KingsTracked(p) && Played(p, m)
    ensures KingsTracked(Apply(p, m))
  {
    KingKept(p, m, true);
    KingKept(p, m, false);
  }

  /** After a played move the en-passant target, if any, is the square the double-stepping pawn passed over. */
  lemma TargetStaysSound(p: Position, m: Move)
    requires WellFormed(p.board) && Played(p, m)
    ensures EnPassantSound(Apply(p, m))
  {
    ApplyBoardCells(p.board, m);
  }

  /** After a played move each right still held has its king and rook at home. */
  lemma WingStaysSound(p: Position, m: Move, x: bool)
    requires WellFormed(p.board) && CastleSound(p) && Played(p, m)
    ensures WingSound(Apply(p, m), x)
  {
    ApplyBoardCells(p.board, m);
    UpdatedRightsMatchesRightsAfter(p.castling, m);
  }

  /** Making a move `get_valid_moves` returns keeps a position consistent. */
  lemma ValidMoveKeepsCoherent(p: Position, m: Move)
    requires Coherent(p) && m in ValidMoves(p)
    ensures Applicable(m) && Coherent(Apply(p, m))
  {
    ValidMovePlayed(p, m);
    ApplyKeepsInSync(p, m);
    KingsStayTracked(p, m);
    TargetStaysSound(p, m);
    WingStaysSound(p, m, true);
    WingStaysSound(p, m, false);
  }

  /** Going from p to q by m keeps consistency when m is a valid move of a consistent p. */
  predicate KeepsCoherent(p: Position, m: Move, q: Position) {
    Coherent(p) && m in ValidMoves(p) ==> Coherent(q)
  }

  /** What `make_move` keeps: from a consistent position, a valid move leads to a consistent one. */
  lemma ApplyKeepsCoherent(p: Position, m: Move, q: Position)
    requires IsGrid(p.board) && Applicable(m) && q == Apply(p, m)
    ensures KeepsCoherent(p, m, q)
  {
    if Coherent(p) && m in ValidMoves(p) {
      ValidMoveKeepsCoherent(p, m);
    }
  }

  /** Taking back a move `get_valid_moves` returned gives back a consistent position. */
  lemma ValidMoveUndone(p: Position, m: Move)
    requires Coherent(p) && m in ValidMoves(p)
    ensures Applicable(m) && UndoReady(Apply(p, m)) && Coherent(Undo(Apply(p, m)))
  {
    ValidMovePlayed(p, m);
    RoundTrip(p, m);
    CoherentIgnoresFlags(p, false, false);
  }
}
