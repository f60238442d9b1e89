/**
 * What the generators promise: every generated move is described by the
 * per-kind predicate Pseudo (start on a friendly piece, destination on the
 * board and not friendly, rays stop at the first occupied square, pawn
 * rules), and no two generated moves share both squares.
 */
module GenFacts {
  import opened ChessBoard
  import opened ChessMove
  import opened CastleRights
  import opened MoveGen

  /** The squares at distances 1 .. j-1 along d from (r, c) are on the board and empty. */
  predicate ClearPath(b: Grid, r: int, c: int, d: Offset, j: int)
    requires IsGrid(b)
    decreases j
  {
    j <= 1 ||
    (ClearPath(b, r, c, d, j - 1) && Reaches(r, c, d, j - 1) && CellAt(b, r, c, d, j - 1) == Empty)
  }

  /** The square at distance j along d from (r, c) is on the board. */
  predicate Reaches(r: int, c: int, d: Offset, j: int) {
    OnBoard(r + d.0 * j, c + d.1 * j)
  }

  /** The cell at distance j along d from (r, c). */
  function CellAt(b: Grid, r: int, c: int, d: Offset, j: int): Cell
    requires IsGrid(b) && Reaches(r, c, d, j)
  {
    b[r + d.0 * j][c + d.1 * j]
  }

  /** The ray move to distance j along d. */
  function RayMove(b: Grid, r: int, c: int, d: Offset, j: int): Move
    requires IsGrid(b) && OnBoard(r, c) && Reaches(r, c, d, j)
  {
    MoveOn(b, r, c, r + d.0 * j, c + d.1 * j, false, false)
  }

  /** m goes a distance 1..7 along one of dirs over empty squares, onto a square that is not friendly. */
  predicate Slides(b: Grid, w: bool, m: Move, dirs: seq<Offset>)
    requires IsGrid(b) && m.OnBoardSquares()
  {
    && !IsFriend(b[m.endRow][m.endCol], w)
    && !m.enPassantMove
    && exists d, j :: d in dirs && 1 <= j < 8 && ClearPath(b, m.startRow, m.startCol, d, j)
         && m.endRow == m.startRow + d.0 * j && m.endCol == m.startCol + d.1 * j
  }

  /** A fixed-offset move (knight, king) onto a square that is not friendly. */
  predicate Steps(b: Grid, w: bool, m: Move, offsets: seq<Offset>)
    requires IsGrid(b) && m.OnBoardSquares()
  {
    (m.endRow - m.startRow, m.endCol - m.startCol) in offsets
    && !IsFriend(b[m.endRow][m.endCol], w) && !m.enPassantMove
  }

  /**
   * The four pawn moves: a push onto an empty square, a double push from the
   * home row over an empty square, a diagonal capture of an enemy piece, a
   * diagonal move onto the en-passant target tagged as en passant.
   */
  predicate PawnShape(b: Grid, w: bool, ep: Option<Square>, m: Move)
    requires IsGrid(b) && m.OnBoardSquares()
  {
    var f := Forward(w);
    var dr, dc := m.endRow - m.startRow, m.endCol - m.startCol;
    var target := b[m.endRow][m.endCol];
    || (dr == f && dc == 0 && target == Empty && !m.enPassantMove)
    || (dr == 2 * f && dc == 0 && m.startRow == HomeRow(w)
        && b[m.startRow + f][m.startCol] == Empty && target == Empty && !m.enPassantMove)
    || (dr == f && (dc == -1 || dc == 1) && IsEnemy(target, w) && !m.enPassantMove)
    || (dr == f && (dc == -1 || dc == 1) && !IsEnemy(target, w)
        && ep == Some(m.End()) && m.enPassantMove)
  }

  /** A pseudo-legal move of the side `w`, by the kind of the piece moved. */
  predicate Pseudo(b: Grid, w: bool, ep: Option<Square>, m: Move)
    requires IsGrid(b)
  {
    && m.OnBoardSquares()
    && IsFriend(b[m.startRow][m.startCol], w)
    && m.pieceMoved == b[m.startRow][m.startCol]
    && !m.castleMove
    && m.pawnPromotion == PromotesOn(m.pieceMoved, m.endRow)
    && (if m.enPassantMove then m.pieceCaptured == Piece(Opposite(Mover(w)), Pawn)
        else m.pieceCaptured == b[m.endRow][m.endCol])
    && match m.pieceMoved.kind
       case Pawn => PawnShape(b, w, ep, m)
       case Knight => Steps(b, w, m, KnightOffsets)
       case King => Steps(b, w, m, KingOffsets)
       case Bishop => Slides(b, w, m, BishopDirections)
       case Rook => Slides(b, w, m, RookDirections)
       case Queen => Slides(b, w, m, RookDirections + BishopDirections)
  }

  /** Every move of the list starts on (r, c). */
  predicate AllFrom(ms: seq<Move>, r: int, c: int) {
    forall m :: m in ms ==> m.startRow == r && m.startCol == c
  }

  // ---------------------------------------------------------------- soundness

  /** Appending the push and the two diagonals, one after the other, appends the pawn's moves. */
  lemma PawnMovesParts(moves: seq<Move>, b: Grid, w: bool, ep: Option<Square>, r: int, c: int)
    requires WellFormed(b) && OnBoard(r, c) && b[r][c] == Piece(Mover(w), Pawn)
    ensures OnBoard(r + Forward(w), c)
    ensures ((moves + PawnPush(b, w, r, c)) + PawnCapture(b, w, ep, r, c, c - 1)) + PawnCapture(b, w, ep, r, c, c + 1)
      == moves + PawnMoves(b, w, ep, r, c)
  {
    assert b[0][c] != Piece(White, Pawn) && b[7][c] != Piece(Black, Pawn);
  }

  lemma PawnPushSound(b: Grid, w: bool, ep: Option<Square>, r: int, c: int)
    requires WellFormed(b) && OnBoard(r, c) && b[r][c] == Piece(Mover(w), Pawn) && OnBoard(r + Forward(w), c)
    ensures forall m :: m in PawnPush(b, w, r, c) ==> m.startRow == r && m.startCol == c && Pseudo(b, w, ep, m)
  {
    forall m | m in PawnPush(b, w, r, c)
      ensures m.startRow == r && m.startCol == c && Pseudo(b, w, ep, m)
    {
      assert m.OnBoardSquares();
    }
  }

  lemma PawnCaptureSound(b: Grid, w: bool, ep: Option<Square>, r: int, c: int, ec: int)
    requires WellFormed(b) && OnBoard(r, c) && b[r][c] == Piece(Mover(w), Pawn) && OnBoard(r + Forward(w), c)
    requires ec == c - 1 || ec == c + 1
    ensures forall m :: m in PawnCapture(b, w, ep, r, c, ec) ==> m.startRow == r && m.startCol == c && Pseudo(b, w, ep, m)
  {
    forall m | m in PawnCapture(b, w, ep, r, c, ec)
      ensures m.startRow == r && m.startCol == c && Pseudo(b, w, ep, m)
    {
      assert m.OnBoardSquares();
    }
  }

  lemma PawnSound(b: Grid, w: bool, ep: Option<Square>, r: int, c: int)
    requires WellFormed(b) && OnBoard(r, c) && b[r][c] == Piece(Mover(w), Pawn)
    ensures AllFrom(PawnMoves(b, w, ep, r, c), r, c)
    ensures forall m :: m in PawnMoves(b, w, ep, r, c) ==> Pseudo(b, w, ep, m)
  {
    assert b[0][c] != Piece(White, Pawn) && b[7][c] != Piece(Black, Pawn);
    PawnPushSound(b, w, ep, r, c);
    PawnCaptureSound(b, w, ep, r, c, c - 1);
    PawnCaptureSound(b, w, ep, r, c, c + 1);
  }

  /** Every step move is a move of the piece on (r, c) by one of the offsets onto a non-friendly square. */
  lemma {:induction false} StepSound(b: Grid, w: bool, r: int, c: int, offsets: seq<Offset>)
    requires IsGrid(b) && OnBoard(r, c)
    ensures AllFrom(StepMoves(b, w, r, c, offsets), r, c)
    ensures forall m :: m in StepMoves(b, w, r, c, offsets) ==>
      && m.OnBoardSquares() && m.pieceMoved == b[r][c] && !m.castleMove
      && m.pawnPromotion == PromotesOn(m.pieceMoved, m.endRow)
      && m.pieceCaptured == b[m.endRow][m.endCol] && Steps(b, w, m, offsets)
    decreases |offsets|
  {
    if offsets != [] {
      var n := |offsets| - 1;
      StepSound(b, w, r, c, offsets[..n]);
      forall m | m in StepMoves(b, w, r, c, offsets[..n])
        ensures (m.endRow - m.startRow, m.endCol - m.startCol) in offsets
      {
        assert (m.endRow - m.startRow, m.endCol - m.startCol) in offsets[..n];
      }
      assert offsets[n] in offsets;
    }
  }

  /**
   * The t-th move of R goes distance i + t along d, over empty squares only,
   * onto a square that is not friendly; all but the last land on empty squares.
   */
  predicate RayShaped(b: Grid, w: bool, r: int, c: int, d: Offset, i: int, R: seq<Move>)
    requires IsGrid(b) && OnBoard(r, c)
  {
    i + |R| <= 8 && forall t :: 0 <= t < |R| ==> RayEntry(b, w, r, c, d, i, R, t)
  }

  predicate RayEntry(b: Grid, w: bool, r: int, c: int, d: Offset, i: int, R: seq<Move>, t: int)
    requires IsGrid(b) && OnBoard(r, c) && 0 <= t < |R|
  {
    && Reaches(r, c, d, i + t)
    && R[t] == RayMove(b, r, c, d, i + t)
    && ClearPath(b, r, c, d, i + t)
    && !IsFriend(CellAt(b, r, c, d, i + t), w)
    && (t < |R| - 1 ==> CellAt(b, r, c, d, i + t) == Empty)
  }

  /** An empty square on a clear path, followed by a ray shaped from the next distance, is a ray shape. */
  lemma RayShapedCons(b: Grid, w: bool, r: int, c: int, d: Offset, i: int, R': seq<Move>)
    requires IsGrid(b) && OnBoard(r, c) && 1 <= i < 8
    requires ClearPath(b, r, c, d, i) && Reaches(r, c, d, i) && CellAt(b, r, c, d, i) == Empty
    requires RayShaped(b, w, r, c, d, i + 1, R')
    ensures RayShaped(b, w, r, c, d, i, [RayMove(b, r, c, d, i)] + R')
  {
    var R := [RayMove(b, r, c, d, i)] + R';
    forall t | 0 <= t < |R|
      ensures RayEntry(b, w, r, c, d, i, R, t)
    {
      if t > 0 {
        assert RayEntry(b, w, r, c, d, i + 1, R', t - 1);
        assert (i + 1) + (t - 1) == i + t;
        assert R[t] == R'[t - 1];
      }
    }
  }

  lemma {:induction false} RaySound(b: Grid, w: bool, r: int, c: int, d: Offset, i: int)
    requires IsGrid(b) && OnBoard(r, c) && 1 <= i <= 8
    requires ClearPath(b, r, c, d, i)
    ensures RayShaped(b, w, r, c, d, i, Ray(b, w, r, c, d, i))
    decreases 8 - i
  {
    var R := Ray(b, w, r, c, d, i);
    if i < 8 {
      var er, ec := r + d.0 * i, c + d.1 * i;
      if OnBoard(er, ec) && b[er][ec] == Empty {
        assert ClearPath(b, r, c, d, i + 1);
        RaySound(b, w, r, c, d, i + 1);
        var R' := Ray(b, w, r, c, d, i + 1);
        assert R == [RayMove(b, r, c, d, i)] + R';
        RayShapedCons(b, w, r, c, d, i, R');
      } else if OnBoard(er, ec) && IsEnemy(b[er][ec], w) {
        assert R == [RayMove(b, r, c, d, i + 0)];
        assert RayEntry(b, w, r, c, d, i, R, 0);
      }
    }
  }

  /** A clear path to j is clear to every shorter distance, and every square before j is empty. */
  lemma {:induction false} ClearPathBefore(b: Grid, r: int, c: int, d: Offset, j: int, k: int)
    requires IsGrid(b) && ClearPath(b, r, c, d, j) && 1 <= k <= j
    ensures ClearPath(b, r, c, d, k)
    ensures k < j ==> Reaches(r, c, d, k) && CellAt(b, r, c, d, k) == Empty
    decreases j
  {
    if k < j {
      ClearPathBefore(b, r, c, d, j - 1, k);
    }
  }

  /**
   * The ray from distance i contains the move to every square j >= i that has
   * a clear path and is not friendly: a ray stops only at the edge, before a
   * friend, or on the enemy it takes.
   */
  lemma {:induction false} RayComplete(b: Grid, w: bool, r: int, c: int, d: Offset, i: int, j: int)
    requires IsGrid(b) && OnBoard(r, c) && 1 <= i <= j < 8
    requires ClearPath(b, r, c, d, j) && Reaches(r, c, d, j) && !IsFriend(CellAt(b, r, c, d, j), w)
    ensures RayMove(b, r, c, d, j) in Ray(b, w, r, c, d, i)
    decreases j - i
  {
    if i < j {
      ClearPathBefore(b, r, c, d, j, i);
      RayComplete(b, w, r, c, d, i + 1, j);
    }
  }

  /** Adding the step by the next offset to a list ending in the earlier steps. */
  lemma StepMovesPrefix(moves: seq<Move>, b: Grid, w: bool, r: int, c: int, offsets: seq<Offset>, k: int)
    requires IsGrid(b) && OnBoard(r, c) && 0 <= k < |offsets|
    ensures (moves + StepMoves(b, w, r, c, offsets[..k])) + Step(b, w, r, c, offsets[k])
      == moves + StepMoves(b, w, r, c, offsets[..k + 1])
  {
    assert offsets[..k + 1][..k] == offsets[..k];
  }

  /** Adding the ray along the next direction to a list ending in the earlier slides. */
  lemma SlideMovesPrefix(moves: seq<Move>, b: Grid, w: bool, r: int, c: int, dirs: seq<Offset>, k: int)
    requires IsGrid(b) && OnBoard(r, c) && 0 <= k < |dirs|
    ensures (moves + SlideMoves(b, w, r, c, dirs[..k])) + Ray(b, w, r, c, dirs[k], 1)
      == moves + SlideMoves(b, w, r, c, dirs[..k + 1])
  {
    assert dirs[..k + 1][..k] == dirs[..k];
  }

  /** The slides along the whole prefix are the slides along the list. */
  lemma SlideMovesWhole(b: Grid, w: bool, r: int, c: int, dirs: seq<Offset>)
    requires IsGrid(b) && OnBoard(r, c)
    ensures SlideMoves(b, w, r, c, dirs[..|dirs|]) == SlideMoves(b, w, r, c, dirs)
  {
    assert dirs[..|dirs|] == dirs;
  }

  /** The move to distance 1 + t of a sound ray slides along any list holding its direction. */
  lemma RayEntrySlides(b: Grid, w: bool, r: int, c: int, d: Offset, dirs: seq<Offset>, R: seq<Move>, t: int)
    requires IsGrid(b) && OnBoard(r, c) && d in dirs && 0 <= t < |R| && 1 + |R| <= 8
    requires RayEntry(b, w, r, c, d, 1, R, t)
    ensures var m := R[t];
      && m.startRow == r && m.startCol == c
      && m.OnBoardSquares() && m.pieceMoved == b[r][c] && !m.castleMove
      && m.pawnPromotion == PromotesOn(m.pieceMoved, m.endRow)
      && m.pieceCaptured == b[m.endRow][m.endCol] && Slides(b, w, m, dirs)
  {
    var j := 1 + t;
    assert Reaches(r, c, d, j) && CellAt(b, r, c, d, j) == b[r + d.0 * j][c + d.1 * j];
  }

  /** Every move of the ray along a direction of dirs slides along dirs. */
  lemma RayInSlides(b: Grid, w: bool, r: int, c: int, d: Offset, dirs: seq<Offset>)
    requires IsGrid(b) && OnBoard(r, c) && d in dirs
    ensures forall m :: m in Ray(b, w, r, c, d, 1) ==>
      && m.startRow == r && m.startCol == c
      && m.OnBoardSquares() && m.pieceMoved == b[r][c] && !m.castleMove
      && m.pawnPromotion == PromotesOn(m.pieceMoved, m.endRow)
      && m.pieceCaptured == b[m.endRow][m.endCol] && Slides(b, w, m, dirs)
  {
    assert ClearPath(b, r, c, d, 1);
    RaySound(b, w, r, c, d, 1);
    var R := Ray(b, w, r, c, d, 1);
    forall m | m in R
      ensures m.startRow == r && m.startCol == c
      ensures m.OnBoardSquares() && m.pieceMoved == b[r][c] && !m.castleMove
      ensures m.pawnPromotion == PromotesOn(m.pieceMoved, m.endRow)
      ensures m.pieceCaptured == b[m.endRow][m.endCol] && Slides(b, w, m, dirs)
    {
      var t :| 0 <= t < |R| && R[t] == m;
      RayEntrySlides(b, w, r, c, d, dirs, R, t);
    }
  }

  /** Sliding along a sub-list of directions is sliding along the list. */
  lemma SlidesWiden(b: Grid, w: bool, m: Move, dirs: seq<Offset>, more: seq<Offset>)
    requires IsGrid(b) && m.OnBoardSquares()
    requires forall d :: d in dirs ==> d in more
    requires Slides(b, w, m, dirs)
    ensures Slides(b, w, m, more)
  {
    var d, j :| d in dirs && 1 <= j < 8 && ClearPath(b, m.startRow, m.startCol, d, j)
      && m.endRow == m.startRow + d.0 * j && m.endCol == m.startCol + d.1 * j;
    assert d in more;
  }

  lemma {:induction false} SlideSound(b: Grid, w: bool, r: int, c: int, dirs: seq<Offset>)
    requires IsGrid(b) && OnBoard(r, c)
    ensures AllFrom(SlideMoves(b, w, r, c, dirs), r, c)
    ensures forall m :: m in SlideMoves(b, w, r, c, dirs) ==>
      && m.OnBoardSquares() && m.pieceMoved == b[r][c] && !m.castleMove
      && m.pawnPromotion == PromotesOn(m.pieceMoved, m.endRow)
      && m.pieceCaptured == b[m.endRow][m.endCol] && Slides(b, w, m, dirs)
    decreases |dirs|
  {
    if dirs != [] {
      var n := |dirs| - 1;
      SlideSound(b, w, r, c, dirs[..n]);
      forall m | m in SlideMoves(b, w, r, c, dirs[..n])
        ensures Slides(b, w, m, dirs)
      {
        SlidesWiden(b, w, m, dirs[..n], dirs);
      }
      RayInSlides(b, w, r, c, dirs[n], dirs);
    }
  }

  /** The generator of any friendly piece produces only its own pseudo-legal moves. */
  lemma PieceSound(b: Grid, w: bool, ep: Option<Square>, r: int, c: int)
    requires WellFormed(b) && OnBoard(r, c) && IsFriend(b[r][c], w)
    ensures AllFrom(PieceMoves(b, w, ep, r, c), r, c)
    ensures forall m :: m in PieceMoves(b, w, ep, r, c) ==> Pseudo(b, w, ep, m)
  {
    match b[r][c].kind
    case Pawn => PawnSound(b, w, ep, r, c);
    case Knight => StepSound(b, w, r, c, KnightOffsets);
    case King => StepSound(b, w, r, c, KingOffsets);
    case Bishop => SlideSound(b, w, r, c, BishopDirections);
    case Rook => SlideSound(b, w, r, c, RookDirections);
    case Queen =>
      SlideSound(b, w, r, c, RookDirections);
      SlideSound(b, w, r, c, BishopDirections);
      forall m | m in PieceMoves(b, w, ep, r, c)
        ensures Slides(b, w, m, RookDirections + BishopDirections)
      {
        if m in SlideMoves(b, w, r, c, RookDirections) {
          SlidesWiden(b, w, m, RookDirections, RookDirections + BishopDirections);
        } else {
          SlidesWiden(b, w, m, BishopDirections, RookDirections + BishopDirections);
        }
      }
  }

  /** The moves of the first k squares are pseudo-legal and start on one of those squares. */
  lemma {:induction false} ScanSound(b: Grid, w: bool, ep: Option<Square>, k: int)
    requires WellFormed(b) && 0 <= k <= 64
    ensures forall m :: m in ScanMoves(b, w, ep, k) ==>
      Pseudo(b, w, ep, m) && m.startRow * 8 + m.startCol < k
    decreases k
  {
    if k > 0 {
      ScanSound(b, w, ep, k - 1);
      var r, c := (k - 1) / 8, (k - 1) % 8;
      if IsFriend(b[r][c], w) {
        PieceSound(b, w, ep, r, c);
      }
    }
  }

  /** `get_all_possible_moves` yields pseudo-legal moves only. */
  lemma AllPossibleSound(b: Grid, w: bool, ep: Option<Square>)
    requires WellFormed(b)
    ensures forall m :: m in AllPossibleMoves(b, w, ep) ==> Pseudo(b, w, ep, m)
  {
    ScanSound(b, w, ep, 64);
  }

  // ------------------------------------------------------------- completeness

  /** A pseudo-legal move is the Move the constructor builds from its two squares. */
  lemma PseudoIsBuilt(b: Grid, w: bool, ep: Option<Square>, m: Move)
    requires IsGrid(b) && Pseudo(b, w, ep, m)
    ensures m == MoveOn(b, m.startRow, m.startCol, m.endRow, m.endCol, m.enPassantMove, false)
  {
  }

  lemma {:induction false} StepComplete(b: Grid, w: bool, r: int, c: int, offsets: seq<Offset>, m: Move)
    requires IsGrid(b) && m.OnBoardSquares() && m.startRow == r && m.startCol == c
    requires Steps(b, w, m, offsets) && m == MoveOn(b, r, c, m.endRow, m.endCol, false, false)
    ensures m in StepMoves(b, w, r, c, offsets)
    decreases |offsets|
  {
    var n := |offsets| - 1;
    var o := (m.endRow - m.startRow, m.endCol - m.startCol);
    if o != offsets[n] {
      assert o in offsets[..n];
      StepComplete(b, w, r, c, offsets[..n], m);
    }
  }

  /** A clear slide to a non-friendly square along d is a move of the ray along d. */
  lemma RayHasSlide(b: Grid, w: bool, r: int, c: int, d: Offset, j: int, m: Move)
    requires IsGrid(b) && m.OnBoardSquares() && m.startRow == r && m.startCol == c
    requires 1 <= j < 8 && ClearPath(b, r, c, d, j) && m.endRow == r + d.0 * j && m.endCol == c + d.1 * j
    requires !IsFriend(b[m.endRow][m.endCol], w) && m == MoveOn(b, r, c, m.endRow, m.endCol, false, false)
    ensures m in Ray(b, w, r, c, d, 1)
  {
    assert Reaches(r, c, d, j) && CellAt(b, r, c, d, j) == b[m.endRow][m.endCol];
    RayComplete(b, w, r, c, d, 1, j);
    assert RayMove(b, r, c, d, j) == m;
  }

  lemma {:induction false} SlideComplete(b: Grid, w: bool, r: int, c: int, dirs: seq<Offset>, m: Move)
    requires IsGrid(b) && m.OnBoardSquares() && m.startRow == r && m.startCol == c
    requires Slides(b, w, m, dirs) && m == MoveOn(b, r, c, m.endRow, m.endCol, false, false)
    ensures m in SlideMoves(b, w, r, c, dirs)
    decreases |dirs|
  {
    var n := |dirs| - 1;
    var d, j :| d in dirs && 1 <= j < 8 && ClearPath(b, r, c, d, j)
      && m.endRow == r + d.0 * j && m.endCol == c + d.1 * j;
    if d == dirs[n] {
      RayHasSlide(b, w, r, c, d, j, m);
    } else {
      assert d in dirs[..n];
      SlideComplete(b, w, r, c, dirs[..n], m);
    }
  }

  lemma PawnComplete(b: Grid, w: bool, ep: Option<Square>, m: Move)
    requires WellFormed(b) && Pseudo(b, w, ep, m) && m.pieceMoved.kind == Pawn
    ensures m in PawnMoves(b, w, ep, m.startRow, m.startCol)
  {
    PseudoIsBuilt(b, w, ep, m);
  }

  /** Every pseudo-legal move is produced by the generator of the piece it moves. */
  lemma PieceComplete(b: Grid, w: bool, ep: Option<Square>, m: Move)
    requires WellFormed(b) && Pseudo(b, w, ep, m)
    ensures m in PieceMoves(b, w, ep, m.startRow, m.startCol)
  {
    var r, c := m.startRow, m.startCol;
    PseudoIsBuilt(b, w, ep, m);
    match m.pieceMoved.kind
    case Pawn => PawnComplete(b, w, ep, m);
    case Knight => StepComplete(b, w, r, c, KnightOffsets, m);
    case King => StepComplete(b, w, r, c, KingOffsets, m);
    case Bishop => SlideComplete(b, w, r, c, BishopDirections, m);
    case Rook => SlideComplete(b, w, r, c, RookDirections, m);
    case Queen =>
      var d, j :| d in RookDirections + BishopDirections && 1 <= j < 8 && ClearPath(b, r, c, d, j)
        && m.endRow == r + d.0 * j && m.endCol == c + d.1 * j;
      if d in RookDirections {
        SlideComplete(b, w, r, c, RookDirections, m);
      } else {
        SlideComplete(b, w, r, c, BishopDirections, m);
      }
  }

  lemma {:induction false} ScanComplete(b: Grid, w: bool, ep: Option<Square>, k: int, m: Move)
    requires WellFormed(b) && 0 <= k <= 64
    requires Pseudo(b, w, ep, m) && m.startRow * 8 + m.startCol < k
    ensures m in ScanMoves(b, w, ep, k)
    decreases k
  {
    if m.startRow * 8 + m.startCol == k - 1 {
      assert (k - 1) / 8 == m.startRow && (k - 1) % 8 == m.startCol;
      PieceComplete(b, w, ep, m);
    } else {
      ScanComplete(b, w, ep, k - 1, m);
    }
  }

  /** `get_all_possible_moves` yields exactly the pseudo-legal moves of the side to move. */
  lemma AllPossibleExactly(b: Grid, w: bool, ep: Option<Square>, m: Move)
    requires WellFormed(b)
    ensures m in AllPossibleMoves(b, w, ep) <==> Pseudo(b, w, ep, m)
  {
    AllPossibleSound(b, w, ep);
    if Pseudo(b, w, ep, m) {
      ScanComplete(b, w, ep, 64, m);
    }
  }

  /** A square is attacked exactly when some pseudo-legal move of the attacker ends on it. */
  lemma AttackedExactly(b: Grid, byWhite: bool, ep: Option<Square>, r: int, c: int)
    requires WellFormed(b)
    ensures Attacked(b, byWhite, ep, r, c) <==>
      exists m :: Pseudo(b, byWhite, ep, m) && m.endRow == r && m.endCol == c
  {
    var ms := AllPossibleMoves(b, byWhite, ep);
    if Attacked(b, byWhite, ep, r, c) {
      var i :| 0 <= i < |ms| && ms[i].endRow == r && ms[i].endCol == c;
      AllPossibleExactly(b, byWhite, ep, ms[i]);
    }
    if exists m :: Pseudo(b, byWhite, ep, m) && m.endRow == r && m.endCol == c {
      var m :| Pseudo(b, byWhite, ep, m) && m.endRow == r && m.endCol == c;
      AllPossibleExactly(b, byWhite, ep, m);
      var i :| 0 <= i < |ms| && ms[i] == m;
    }
  }

  // ------------------------------------------------------------- distinctness

  /** No two moves of the list share both their start and their end square. */
  predicate DistinctSquares(ms: seq<Move>) {
    forall i, j :: 0 <= i < j < |ms| ==> ms[i].Start() != ms[j].Start() || ms[i].End() != ms[j].End()
  }

  /** No move of `a` has both squares of a move of `b`. */
  predicate Apart(a: seq<Move>, b: seq<Move>) {
    forall x, y :: x in a && y in b ==> x.Start() != y.Start() || x.End() != y.End()
  }

  lemma ConcatDistinct(a: seq<Move>, b: seq<Move>)
    requires DistinctSquares(a) && DistinctSquares(b) && Apart(a, b)
    ensures DistinctSquares(a + b)
  {
    var ab := a + b;
    forall i, j | 0 <= i < j < |ab|
      ensures ab[i].Start() != ab[j].Start() || ab[i].End() != ab[j].End()
    {
      if j < |a| {
        assert ab[i] == a[i] && ab[j] == a[j];
      } else if i >= |a| {
        assert ab[i] == b[i - |a|] && ab[j] == b[j - |a|];
      } else {
        assert ab[i] in a && ab[j] in b;
      }
    }
  }

  /** The eight unit directions: the king's offsets. */
  predicate Unit(d: Offset) {
    d in KingOffsets
  }

  /** Two unit directions scaled by positive distances meet only when both are equal. */
  lemma UnitScale(d1: Offset, j1: int, d2: Offset, j2: int)
    requires Unit(d1) && Unit(d2) && j1 >= 1 && j2 >= 1
    requires d1.0 * j1 == d2.0 * j2 && d1.1 * j1 == d2.1 * j2
    ensures d1 == d2 && j1 == j2
  {
    assert d1.0 in {-1, 0, 1} && d1.1 in {-1, 0, 1} && d2.0 in {-1, 0, 1} && d2.1 in {-1, 0, 1};
    assert d1 != (0, 0) && d2 != (0, 0);
    if d1.0 == 0 {
      assert d2.0 == 0;
    } else {
      assert d1.0 == d2.0 && j1 == j2;
    }
  }

  /** Sequences without repeats. */
  predicate NoRepeats<T(==)>(xs: seq<T>) {
    forall i, j :: 0 <= i < j < |xs| ==> xs[i] != xs[j]
  }

  lemma {:induction false} StepDistinct(b: Grid, w: bool, r: int, c: int, offsets: seq<Offset>)
    requires IsGrid(b) && OnBoard(r, c) && NoRepeats(offsets)
    ensures DistinctSquares(StepMoves(b, w, r, c, offsets))
    decreases |offsets|
  {
    if offsets != [] {
      var n := |offsets| - 1;
      var pre := offsets[..n];
      assert NoRepeats(pre);
      StepDistinct(b, w, r, c, pre);
      StepSound(b, w, r, c, pre);
      var last := Step(b, w, r, c, offsets[n]);
      forall x, y | x in StepMoves(b, w, r, c, pre) && y in last
        ensures x.Start() != y.Start() || x.End() != y.End()
      {
        var o := (x.endRow - x.startRow, x.endCol - x.startCol);
        assert o in pre;
        var k :| 0 <= k < n && pre[k] == o;
        assert offsets[k] != offsets[n];
      }
      ConcatDistinct(StepMoves(b, w, r, c, pre), last);
    }
  }

  /** The t-th move of a ray from distance i ends at distance i + t. */
  lemma EntryEnd(b: Grid, w: bool, r: int, c: int, d: Offset, i: int, R: seq<Move>, t: int)
    requires IsGrid(b) && OnBoard(r, c) && 0 <= t < |R| && RayEntry(b, w, r, c, d, i, R, t)
    ensures R[t].endRow == r + d.0 * (i + t) && R[t].endCol == c + d.1 * (i + t)
  {
  }

  lemma EntriesApart(b: Grid, w: bool, r: int, c: int, d: Offset, R: seq<Move>, i: int, j: int)
    requires IsGrid(b) && OnBoard(r, c) && Unit(d) && 0 <= i < j < |R|
    requires RayEntry(b, w, r, c, d, 1, R, i) && RayEntry(b, w, r, c, d, 1, R, j)
    ensures R[i].End() != R[j].End()
  {
    EntryEnd(b, w, r, c, d, 1, R, i);
    EntryEnd(b, w, r, c, d, 1, R, j);
    if R[i].End() == R[j].End() {
      UnitScale(d, 1 + i, d, 1 + j);
    }
  }

  /** The moves of a ray along a unit direction end on distinct squares. */
  lemma RayDistinct(b: Grid, w: bool, r: int, c: int, d: Offset)
    requires IsGrid(b) && OnBoard(r, c) && Unit(d)
    ensures DistinctSquares(Ray(b, w, r, c, d, 1))
  {
    assert ClearPath(b, r, c, d, 1);
    RaySound(b, w, r, c, d, 1);
    var R := Ray(b, w, r, c, d, 1);
    assert RayShaped(b, w, r, c, d, 1, R);
    forall i, j | 0 <= i < j < |R|
      ensures R[i].End() != R[j].End()
    {
      EntriesApart(b, w, r, c, d, R, i, j);
    }
  }

  /** A move of the ray along d slides along d only, at some distance. */
  lemma RayAlong(b: Grid, w: bool, r: int, c: int, d: Offset, m: Move)
    requires IsGrid(b) && OnBoard(r, c) && m in Ray(b, w, r, c, d, 1)
    ensures exists j :: 1 <= j < 8 && m.endRow == r + d.0 * j && m.endCol == c + d.1 * j
  {
    assert ClearPath(b, r, c, d, 1);
    RaySound(b, w, r, c, d, 1);
    var R := Ray(b, w, r, c, d, 1);
    var t :| 0 <= t < |R| && R[t] == m;
    assert RayEntry(b, w, r, c, d, 1, R, t);
    assert 1 <= 1 + t < 8;
  }

  /** Moves sliding along two disjoint lists of unit directions never share both squares. */
  lemma SlidesApart(b: Grid, w: bool, x: Move, y: Move, dx: seq<Offset>, dy: seq<Offset>)
    requires IsGrid(b) && x.OnBoardSquares() && y.OnBoardSquares()
    requires Slides(b, w, x, dx) && Slides(b, w, y, dy)
    requires forall d :: d in dx ==> Unit(d) && d !in dy
    requires forall d :: d in dy ==> Unit(d)
    ensures x.Start() != y.Start() || x.End() != y.End()
  {
    var d1, j1 :| d1 in dx && 1 <= j1 < 8 && ClearPath(b, x.startRow, x.startCol, d1, j1)
      && x.endRow == x.startRow + d1.0 * j1 && x.endCol == x.startCol + d1.1 * j1;
    var d2, j2 :| d2 in dy && 1 <= j2 < 8 && ClearPath(b, y.startRow, y.startCol, d2, j2)
      && y.endRow == y.startRow + d2.0 * j2 && y.endCol == y.startCol + d2.1 * j2;
    if x.Start() == y.Start() && x.End() == y.End() {
      UnitScale(d1, j1, d2, j2);
    }
  }

  lemma {:induction false} SlideDistinct(b: Grid, w: bool, r: int, c: int, dirs: seq<Offset>)
    requires IsGrid(b) && OnBoard(r, c) && NoRepeats(dirs)
    requires forall d :: d in dirs ==> Unit(d)
    ensures DistinctSquares(SlideMoves(b, w, r, c, dirs))
    decreases |dirs|
  {
    if dirs != [] {
      var n := |dirs| - 1;
      var pre := dirs[..n];
      assert NoRepeats(pre);
      SlideDistinct(b, w, r, c, pre);
      SlideSound(b, w, r, c, pre);
      RayDistinct(b, w, r, c, dirs[n]);
      var last := Ray(b, w, r, c, dirs[n], 1);
      forall x, y | x in SlideMoves(b, w, r, c, pre) && y in last
        ensures x.Start() != y.Start() || x.End() != y.End()
      {
        var d1, j1 :| d1 in pre && 1 <= j1 < 8 && ClearPath(b, r, c, d1, j1)
          && x.endRow == r + d1.0 * j1 && x.endCol == c + d1.1 * j1;
        RayAlong(b, w, r, c, dirs[n], y);
        var j2 :| 1 <= j2 < 8 && y.endRow == r + dirs[n].0 * j2 && y.endCol == c + dirs[n].1 * j2;
        var k :| 0 <= k < n && pre[k] == d1;
        assert dirs[k] != dirs[n];
        if x.End() == y.End() {
          UnitScale(d1, j1, dirs[n], j2);
        }
      }
      ConcatDistinct(SlideMoves(b, w, r, c, pre), last);
    }
  }

  /** The pushes stay in the pawn's column; the two of them end on different rows. */
  lemma PawnPushDistinct(b: Grid, w: bool, r: int, c: int)
    requires IsGrid(b) && OnBoard(r, c) && OnBoard(r + Forward(w), c)
    ensures DistinctSquares(PawnPush(b, w, r, c))
    ensures forall m :: m in PawnPush(b, w, r, c) ==> m.endCol == c
  {
  }

  /** A diagonal yields at most one move, ending in column ec. */
  lemma PawnCaptureShape(b: Grid, w: bool, ep: Option<Square>, r: int, c: int, ec: int)
    requires IsGrid(b) && OnBoard(r, c) && OnBoard(r + Forward(w), c)
    ensures |PawnCapture(b, w, ep, r, c, ec)| <= 1 && DistinctSquares(PawnCapture(b, w, ep, r, c, ec))
    ensures forall m :: m in PawnCapture(b, w, ep, r, c, ec) ==> m.endCol == ec
  {
  }

  lemma PawnDistinct(b: Grid, w: bool, ep: Option<Square>, r: int, c: int)
    requires WellFormed(b) && OnBoard(r, c) && b[r][c] == Piece(Mover(w), Pawn)
    ensures DistinctSquares(PawnMoves(b, w, ep, r, c))
  {
    assert b[0][c] != Piece(White, Pawn) && b[7][c] != Piece(Black, Pawn);
    var push, left, right := PawnPush(b, w, r, c), PawnCapture(b, w, ep, r, c, c - 1), PawnCapture(b, w, ep, r, c, c + 1);
    PawnPushDistinct(b, w, r, c);
    PawnCaptureShape(b, w, ep, r, c, c - 1);
    PawnCaptureShape(b, w, ep, r, c, c + 1);
    ConcatDistinct(push, left);
    forall x: Move, y: Move | x in push + left && y in right
      ensures x.End() != y.End()
    {
    }
    ConcatDistinct(push + left, right);
  }

  /** The rook rays and the bishop rays of a queen never share a destination. */
  lemma QueenApart(b: Grid, w: bool, r: int, c: int)
    requires IsGrid(b) && OnBoard(r, c)
    ensures Apart(SlideMoves(b, w, r, c, RookDirections), SlideMoves(b, w, r, c, BishopDirections))
  {
    var rook, bishop := SlideMoves(b, w, r, c, RookDirections), SlideMoves(b, w, r, c, BishopDirections);
    SlideSound(b, w, r, c, RookDirections);
    SlideSound(b, w, r, c, BishopDirections);
    RookBishopUnits();
    forall x, y | x in rook && y in bishop
      ensures x.Start() != y.Start() || x.End() != y.End()
    {
      SlidesApart(b, w, x, y, RookDirections, BishopDirections);
    }
  }

  /** The rook and bishop directions are unit steps, and no direction is in both lists. */
  lemma RookBishopUnits()
    ensures forall d :: d in RookDirections ==> Unit(d) && d !in BishopDirections
    ensures forall d :: d in BishopDirections ==> Unit(d)
  {
  }

  lemma QueenDistinct(b: Grid, w: bool, r: int, c: int)
    requires IsGrid(b) && OnBoard(r, c)
    ensures DistinctSquares(SlideMoves(b, w, r, c, RookDirections) + SlideMoves(b, w, r, c, BishopDirections))
  {
    assert NoRepeats(RookDirections) && NoRepeats(BishopDirections);
    SlideDistinct(b, w, r, c, RookDirections);
    SlideDistinct(b, w, r, c, BishopDirections);
    QueenApart(b, w, r, c);
    ConcatDistinct(SlideMoves(b, w, r, c, RookDirections), SlideMoves(b, w, r, c, BishopDirections));
  }

  /** The generator of one piece never lists the same pair of squares twice. */
  lemma PieceDistinct(b: Grid, w: bool, ep: Option<Square>, r: int, c: int)
    requires WellFormed(b) && OnBoard(r, c) && IsFriend(b[r][c], w)
    ensures DistinctSquares(PieceMoves(b, w, ep, r, c))
  {
    match b[r][c].kind
    case Pawn => PawnDistinct(b, w, ep, r, c);
    case Knight =>
      assert NoRepeats(KnightOffsets);
      StepDistinct(b, w, r, c, KnightOffsets);
    case King =>
      assert NoRepeats(KingOffsets);
      StepDistinct(b, w, r, c, KingOffsets);
    case Bishop =>
      assert NoRepeats(BishopDirections);
      SlideDistinct(b, w, r, c, BishopDirections);
    case Rook =>
      assert NoRepeats(RookDirections);
      SlideDistinct(b, w, r, c, RookDirections);
    case Queen => QueenDistinct(b, w, r, c);
  }

  /** The moves of the first k squares start on one of those squares. */
  lemma {:induction false} ScanStartsBefore(b: Grid, w: bool, ep: Option<Square>, k: int)
    requires WellFormed(b) && 0 <= k <= 64
    ensures forall m :: m in ScanMoves(b, w, ep, k) ==> m.startRow * 8 + m.startCol < k
    decreases k
  {
    if k > 0 {
      ScanStartsBefore(b, w, ep, k - 1);
      var r, c := (k - 1) / 8, (k - 1) % 8;
      if IsFriend(b[r][c], w) {
        PieceSound(b, w, ep, r, c);
        assert forall m :: m in PieceMoves(b, w, ep, r, c) ==> m.startRow * 8 + m.startCol == k - 1;
      }
    }
  }

  /** Every move the generator of one piece lists starts on that piece's square. */
  lemma {:induction false} PieceFrom(b: Grid, w: bool, ep: Option<Square>, r: int, c: int)
    requires WellFormed(b) && OnBoard(r, c) && IsFriend(b[r][c], w)
    ensures AllFrom(PieceMoves(b, w, ep, r, c), r, c)
  {
    PieceSound(b, w, ep, r, c);
  }

  /** Moves starting before square (r, c) in reading order are apart from moves that all start on it. */
  lemma StartsApart(pre: seq<Move>, here: seq<Move>, r: int, c: int)
    requires forall x :: x in pre ==> x.startRow * 8 + x.startCol < r * 8 + c
    requires AllFrom(here, r, c)
    ensures Apart(pre, here)
  {
    forall x, y | x in pre && y in here
      ensures x.Start() != y.Start()
    {
      assert y.startRow == r && y.startCol == c;
    }
  }

  lemma {:induction false} ScanDistinct(b: Grid, w: bool, ep: Option<Square>, k: int)
    requires WellFormed(b) && 0 <= k <= 64
    ensures DistinctSquares(ScanMoves(b, w, ep, k))
    decreases k
  {
    if k > 0 {
      ScanDistinct(b, w, ep, k - 1);
      var r, c := (k - 1) / 8, (k - 1) % 8;
      if IsFriend(b[r][c], w) {
        assert r * 8 + c == k - 1;
        PieceDistinct(b, w, ep, r, c);
        ScanStartsBefore(b, w, ep, k - 1);
        PieceFrom(b, w, ep, r, c);
        StartsApart(ScanMoves(b, w, ep, k - 1), PieceMoves(b, w, ep, r, c), r, c);
        ConcatDistinct(ScanMoves(b, w, ep, k - 1), PieceMoves(b, w, ep, r, c));
      }
    }
  }

  /** `get_all_possible_moves` never lists the same pair of squares twice. */
  lemma AllPossibleDistinct(b: Grid, w: bool, ep: Option<Square>)
    requires WellFormed(b)
    ensures DistinctSquares(AllPossibleMoves(b, w, ep))
  {
    ScanDistinct(b, w, ep, 64);
  }

  /** The scan past square (r, c) adds that square's moves when it holds a piece of the mover. */
  lemma ScanMovesNext(b: Grid, w: bool, ep: Option<Square>, r: int, c: int, moves: seq<Move>)
    requires WellFormed(b) && OnBoard(r, c) && moves == ScanMoves(b, w, ep, 8 * r + c)
    ensures IsFriend(b[r][c], w) ==> ScanMoves(b, w, ep, 8 * r + c + 1) == moves + PieceMoves(b, w, ep, r, c)
    ensures !IsFriend(b[r][c], w) ==> ScanMoves(b, w, ep, 8 * r + c + 1) == moves
  {
    assert (8 * r + c) / 8 == r && (8 * r + c) % 8 == c;
    assert moves + [] == moves;
  }
}
