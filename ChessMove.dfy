/**
 * The Move value: one ply, built from two squares and the two board cells
 * involved, with its derived flags, its integer id (the basis of move
 * equality) and its algebraic notation.
 */
module ChessMove {
  import opened ChessBoard

  datatype Move = Move(
    startRow: int, startCol: int, endRow: int, endCol: int,
    pieceMoved: Cell, pieceCaptured: Cell,
    enPassantMove: bool, pawnPromotion: bool, castleMove: bool)
  {
    function Start(): Square { Sq(startRow, startCol) }

    function End(): Square { Sq(endRow, endCol) }

    predicate OnBoardSquares() {
      OnBoard(startRow, startCol) && OnBoard(endRow, endCol)
    }

    /** `move_id`: the four coordinates packed as decimal digits. */
    function Id(): int {
      startRow * 1000 + startCol * 100 + endRow * 10 + endCol
    }
  }

  /** A pawn reaching the far rank of its colour. */
  predicate PromotesOn(moved: Cell, endRow: int) {
    (moved == Piece(White, Pawn) && endRow == 0) || (moved == Piece(Black, Pawn) && endRow == 7)
  }

  /**
   * The Move constructor, given the cells at the two squares instead of the
   * board.  An en-passant move lands on an empty square, so the captured
   * piece is synthesised as the pawn of the other colour.
   */
  function NewMove(start: Square, end: Square, moved: Cell, captured: Cell,
                   enPassantMove: bool, castleMove: bool): (m: Move)
    ensures m.Start() == start && m.End() == end && m.pieceMoved == moved
    ensures m.enPassantMove == enPassantMove && m.castleMove == castleMove
    ensures !enPassantMove ==> m.pieceCaptured == captured
    ensures m.pawnPromotion <==> PromotesOn(moved, end.row)
  {
    var capturedPiece :=
      if enPassantMove then (if moved == Piece(Black, Pawn) then Piece(White, Pawn) else Piece(Black, Pawn))
      else captured;
    Move(start.row, start.col, end.row, end.col, moved, capturedPiece,
         enPassantMove,
         (moved == Piece(White, Pawn) && end.row == 0) || (moved == Piece(Black, Pawn) && end.row == 7),
         castleMove)
  }

  /** An en-passant capture by a pawn takes the pawn of the opposite colour. */
  lemma EnPassantCapturesOpposingPawn(start: Square, end: Square, c: Color, captured: Cell)
    ensures NewMove(start, end, Piece(c, Pawn), captured, true, false).pieceCaptured == Piece(Opposite(c), Pawn)
  {
  }

  /** `__eq__`: two moves are equal when their ids are. */
  predicate SameMove(a: Move, b: Move) {
    a.Id() == b.Id()
  }

  /** On the board, equal ids means equal squares, whatever the other fields. */
  lemma SameMoveIffSameSquares(a: Move, b: Move)
    requires a.OnBoardSquares() && b.OnBoardSquares()
    ensures SameMove(a, b) <==> a.Start() == b.Start() && a.End() == b.End()
  {
  }

  // The four lookup tables of the Move class.

  const RankToRows: map<char, int> :=
    map['1' := 7, '2' := 6, '3' := 5, '4' := 4, '5' := 3, '6' := 2, '7' := 1, '8' := 0]

  const RowsToRanks: map<int, char> :=
    map[7 := '1', 6 := '2', 5 := '3', 4 := '4', 3 := '5', 2 := '6', 1 := '7', 0 := '8']

  const FilesToCol: map<char, int> :=
    map['a' := 0, 'b' := 1, 'c' := 2, 'd' := 3, 'e' := 4, 'f' := 5, 'g' := 6, 'h' := 7]

  const ColsToFiles: map<int, char> :=
    map[0 := 'a', 1 := 'b', 2 := 'c', 3 := 'd', 4 := 'e', 5 := 'f', 6 := 'g', 7 := 'h']

  /** The row and column tables are exactly the inverses of the rank and file tables. */
  lemma TablesAreInverses()
    ensures forall r :: 0 <= r < 8 <==> r in RowsToRanks
    ensures forall c :: 0 <= c < 8 <==> c in ColsToFiles
    ensures forall k :: k in RankToRows ==> RankToRows[k] in RowsToRanks && RowsToRanks[RankToRows[k]] == k
    ensures forall v :: v in RowsToRanks ==> RowsToRanks[v] in RankToRows && RankToRows[RowsToRanks[v]] == v
    ensures forall k :: k in FilesToCol ==> FilesToCol[k] in ColsToFiles && ColsToFiles[FilesToCol[k]] == k
    ensures forall v :: v in ColsToFiles ==> ColsToFiles[v] in FilesToCol && FilesToCol[ColsToFiles[v]] == v
  {
    assert RankToRows.Keys == {'1', '2', '3', '4', '5', '6', '7', '8'};
    assert RowsToRanks.Keys == {7, 6, 5, 4, 3, 2, 1, 0};
    assert FilesToCol.Keys == {'a', 'b', 'c', 'd', 'e', 'f', 'g', 'h'};
    assert ColsToFiles.Keys == {0, 1, 2, 3, 4, 5, 6, 7};
  }

  /** `get_rank_file`: file letter then rank digit. */
  function RankFile(row: int, col: int): (s: string)
    requires OnBoard(row, col)
    ensures |s| == 2
    ensures s[0] in FilesToCol && FilesToCol[s[0]] == col
    ensures s[1] in RankToRows && RankToRows[s[1]] == row
  {
    [ColsToFiles[col], RowsToRanks[row]]
  }

  /** Distinct squares get distinct names. */
  lemma RankFileInjective(r1: int, c1: int, r2: int, c2: int)
    requires OnBoard(r1, c1) && OnBoard(r2, c2)
    ensures RankFile(r1, c1) == RankFile(r2, c2) ==> r1 == r2 && c1 == c2
  {
  }

  /** `__str__`: the moved piece's letter and the destination square. */
  function Describe(m: Move): (s: string)
    requires m.OnBoardSquares()
    ensures |s| == 3 && s[0] == Code(m.pieceMoved)[1]
    ensures s[1] in FilesToCol && FilesToCol[s[1]] == m.endCol
    ensures s[2] in RankToRows && RankToRows[s[2]] == m.endRow
  {
    [Code(m.pieceMoved)[1]] + RankFile(m.endRow, m.endCol)
  }

  /** `get_chess_notation`: "<from> to <to>", with piece letters except for pawns. */
  function ChessNotation(m: Move): (s: string)
    requires m.OnBoardSquares()
    ensures |s| >= 8
    ensures s[|s| - 2] in FilesToCol && FilesToCol[s[|s| - 2]] == m.endCol
    ensures s[|s| - 1] in RankToRows && RankToRows[s[|s| - 1]] == m.endRow
    ensures (m.pieceMoved.Piece? && m.pieceMoved.kind == Pawn) <==> s[0] in FilesToCol
  {
    if Code(m.pieceMoved)[1] == 'P' then
      RankFile(m.startRow, m.startCol) + " to " + RankFile(m.endRow, m.endCol)
    else if m.pieceCaptured != Empty then
      [Code(m.pieceMoved)[1]] + RankFile(m.startRow, m.startCol) + " to "
        + [Code(m.pieceCaptured)[1]] + RankFile(m.endRow, m.endCol)
    else
      [Code(m.pieceMoved)[1]] + RankFile(m.startRow, m.startCol) + " to " + RankFile(m.endRow, m.endCol)
  }
}
