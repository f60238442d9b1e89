/**
 * The GameState object: the board and the bookkeeping fields, updated in
 * place by making and taking back moves, and the move generators that
 * append to a list of moves.  Every method is proved against the value
 * model: `State()` is the snapshot of the fields.
 */
module ChessEngine {
  import opened ChessBoard
  import opened ChessMove
  import opened CastleRights
  import opened MoveGen
  import opened GenFacts
  import opened GameModel
  import opened GameInvariant

  class GameState {
    var board: Grid
    var whiteToMove: bool
    var moveLog: seq<Move>
    var enPassant: Option<Square>
    var enPassantLog: seq<Option<Square>>
    var whiteKing: Square
    var blackKing: Square
    var castlingAbility: Castle
    var castleLog: seq<Castle>
    var checkmate: bool
    var stalemate: bool

    /** The fields as one value. */
    function State(): Position
      reads this
    {
      Position(board, whiteToMove, moveLog, enPassant, enPassantLog, whiteKing, blackKing,
               castlingAbility, castleLog, checkmate, stalemate)
    }

    /** A new game: the starting position, white to move, every castling right held. */
    constructor()
      ensures State() == InitialPosition()
      ensures Coherent(State())
    {
      board := InitialBoard();
      whiteToMove := true;
      moveLog := [];
      enPassant := None;
      enPassantLog := [None];
      whiteKing := Sq(7, 4);
      blackKing := Sq(0, 4);
      castlingAbility := Castle(true, true, true, true);
      castleLog := [Castle(true, true, true, true)];
      checkmate := false;
      stalemate := false;
      new;
      InitialCoherent();
    }

    /** `make_move`: a move from an empty square changes nothing. */
    method MakeMove(m: Move)
      requires IsGrid(board) && Applicable(m)
      modifies this
      ensures State() == Apply(old(State()), m)
      ensures KeepsCoherent(old(State()), m, State())
    {
      if board[m.startRow][m.startCol] != Empty {
        MoveAndPassTurn(m);
        SpecialMoves(m);
        LogTargetAndRights(m);
      }
      ApplyKeepsCoherent(old(State()), m, State());
    }

    /** The piece leaves its square for the end square, the move is logged, the turn passes. */
    method MoveAndPassTurn(m: Move)
      requires IsGrid(board) && Applicable(m)
      modifies this`board, this`moveLog, this`whiteToMove, this`whiteKing, this`blackKing
      ensures board == MovePiece(old(board), m)
      ensures moveLog == old(moveLog) + [m] && whiteToMove == !old(whiteToMove)
      ensures whiteKing == if m.pieceMoved == Piece(White, King) then Sq(m.endRow, m.endCol) else old(whiteKing)
      ensures blackKing == if m.pieceMoved == Piece(Black, King) then Sq(m.endRow, m.endCol) else old(blackKing)
    {
      board := Set(board, m.startRow, m.startCol, Empty);
      board := Set(board, m.endRow, m.endCol, m.pieceMoved);
      moveLog := moveLog + [m];
      whiteToMove := !whiteToMove;
      if m.pieceMoved == Piece(White, King) {
        whiteKing := Sq(m.endRow, m.endCol);
      } else if m.pieceMoved == Piece(Black, King) {
        blackKing := Sq(m.endRow, m.endCol);
      }
    }

    /** Promotion, the en-passant capture, the new en-passant target and the castling rook. */
    method SpecialMoves(m: Move)
      requires IsGrid(board) && Applicable(m)
      modifies this`board, this`enPassant
      ensures board == MoveRook(TakeEnPassant(Promote(old(board), m), m), m)
      ensures enPassant == TargetAfter(m)
    {
      var sr, sc, er, ec := m.startRow, m.startCol, m.endRow, m.endCol;
      if m.pawnPromotion {
        board := Set(board, er, ec, Piece(m.pieceMoved.color, Queen));
      }
      if m.enPassantMove {
        board := Set(board, sr, ec, Empty);
      }
      if Code(m.pieceMoved)[1] == 'P' && Abs(sr - er) == 2 {
        enPassant := Some(Sq((sr + er) / 2, ec));
      } else {
        enPassant := None;
      }
      if m.castleMove {
        if ec - sc == 2 {
          board := Set(board, er, ec - 1, board[er][ec + 1]);
          board := Set(board, er, ec + 1, Empty);
        } else {
          board := Set(board, er, ec + 1, board[er][ec - 2]);
          board := Set(board, er, ec - 2, Empty);
        }
      }
    }

    /** The new target and the new rights are computed and logged. */
    method LogTargetAndRights(m: Move)
      modifies this`enPassantLog, this`castlingAbility, this`castleLog
      ensures enPassantLog == old(enPassantLog) + [enPassant]
      ensures castlingAbility == UpdatedRights(old(castlingAbility), m)
      ensures castleLog == old(castleLog) + [castlingAbility]
    {
      enPassantLog := enPassantLog + [enPassant];
      UpdateCastleRights(m);
      castleLog := castleLog + [castlingAbility];
    }

    /** `update_castle_rights`. */
    method UpdateCastleRights(m: Move)
      modifies this`castlingAbility
      ensures castlingAbility == UpdatedRights(old(castlingAbility), m)
    {
      if m.pieceCaptured == Piece(White, Rook) {
        if m.endRow == 7 {
          if m.endCol == 0 {
            castlingAbility := castlingAbility.(wqs := false);
          } else if m.endCol == 7 {
            castlingAbility := castlingAbility.(wks := false);
          }
        }
      } else if m.pieceCaptured == Piece(Black, Rook) {
        if m.endRow == 0 {
          if m.endCol == 0 {
            castlingAbility := castlingAbility.(bqs := false);
          } else if m.endCol == 7 {
            castlingAbility := castlingAbility.(bks := false);
          }
        }
      }

      if m.pieceMoved == Piece(White, King) {
        castlingAbility := castlingAbility.(wks := false, wqs := false);
      } else if m.pieceMoved == Piece(Black, King) {
        castlingAbility := castlingAbility.(bks := false, bqs := false);
      } else if m.pieceMoved == Piece(White, Rook) {
        if m.startRow == 7 {
          if m.startCol == 0 {
            castlingAbility := castlingAbility.(wqs := false);
          } else {
            castlingAbility := castlingAbility.(wks := false);
          }
        }
      } else if m.pieceMoved == Piece(Black, Rook) {
        if m.startRow == 0 {
          if m.startCol == 0 {
            castlingAbility := castlingAbility.(bqs := false);
          } else {
            castlingAbility := castlingAbility.(bks := false);
          }
        }
      }

      if m.pieceCaptured == Piece(White, Rook) {
        if m.endRow == 7 {
          if m.endCol == 0 {
            castlingAbility := castlingAbility.(wqs := false);
          } else if m.endCol == 7 {
            castlingAbility := castlingAbility.(wks := false);
          }
        }
      } else if m.pieceCaptured == Piece(Black, Rook) {
        if m.endRow == 0 {
          if m.endCol == 0 {
            castlingAbility := castlingAbility.(bqs := false);
          } else if m.endCol == 7 {
            castlingAbility := castlingAbility.(bks := false);
          }
        }
      }
    }

    /** `undo_move`: nothing happens when no move has been made. */
    method UndoMove()
      requires UndoReady(State())
      modifies this
      ensures State() == Undo(old(State()))
    {
      ghost var p := State();
      if |moveLog| != 0 {
        var m := moveLog[|moveLog| - 1];
        assert m == Last(p.moveLog);
        moveLog := moveLog[..|moveLog| - 1];
        UnmovePiece(m);
        UncastleRook(m);
        assert board == UndoBoard(p.board, m);
        checkmate := false;
        stalemate := false;
      }
    }

    /**
     * The moved piece back on its start square, the captured one on the end
     * square (en passant: beside the start square), the turn passed back, and
     * the en-passant target and castling rights read back from their logs.
     */
    method UnmovePiece(m: Move)
      requires IsGrid(board) && Applicable(m)
      requires |enPassantLog| >= 2 && |castleLog| >= 2
      modifies this`board, this`whiteToMove, this`whiteKing, this`blackKing
      modifies this`enPassantLog, this`enPassant, this`castleLog, this`castlingAbility
      ensures enPassantLog == old(enPassantLog[..|enPassantLog| - 1]) && enPassant == Last(enPassantLog)
      ensures castleLog == old(castleLog[..|castleLog| - 1]) && castlingAbility == Last(castleLog)
      ensures board == RestoreEnPassant(PutBack(old(board), m), m)
      ensures whiteToMove == !old(whiteToMove)
      ensures whiteKing == if m.pieceMoved == Piece(White, King) then Sq(m.startRow, m.startCol) else old(whiteKing)
      ensures blackKing == if m.pieceMoved == Piece(Black, King) then Sq(m.startRow, m.startCol) else old(blackKing)
    {
      board := Set(board, m.startRow, m.startCol, m.pieceMoved);
      board := Set(board, m.endRow, m.endCol, m.pieceCaptured);
      whiteToMove := !whiteToMove;
      if m.pieceMoved == Piece(White, King) {
        whiteKing := Sq(m.startRow, m.startCol);
      } else if m.pieceMoved == Piece(Black, King) {
        blackKing := Sq(m.startRow, m.startCol);
      }
      if m.enPassantMove {
        board := Set(board, m.endRow, m.endCol, Empty);
        board := Set(board, m.startRow, m.endCol, m.pieceCaptured);
      }
      enPassantLog := enPassantLog[..|enPassantLog| - 1];
      enPassant := enPassantLog[|enPassantLog| - 1];
      castleLog := castleLog[..|castleLog| - 1];
      castlingAbility := castleLog[|castleLog| - 1];
    }

    /** A castling move puts its rook back on the corner. */
    method UncastleRook(m: Move)
      requires IsGrid(board) && Applicable(m)
      modifies this`board
      ensures board == RestoreRook(old(board), m)
    {
      var er, ec := m.endRow, m.endCol;
      if m.castleMove {
        if ec - m.startCol == 2 {
          board := Set(board, er, ec + 1, board[er][ec - 1]);
          board := Set(board, er, ec - 1, Empty);
        } else {
          board := Set(board, er, ec - 2, board[er][ec + 1]);
          board := Set(board, er, ec + 1, Empty);
        }
      }
    }

    /**
     * `get_valid_moves`: every pseudo-legal move and castle, then, from the
     * last to the first, each is made, the turn handed back, the mover's
     * king tested, the move removed when it is attacked, and the move taken
     * back.  An empty result sets checkmate or stalemate.
     */
    method GetValidMoves() returns (moves: seq<Move>)
      requires Coherent(State())
      modifies this
      ensures moves == ValidMoves(old(State()))
      ensures State() == old(State()).(checkmate := checkmate, stalemate := stalemate)
      ensures EndFlags(old(State()), moves, State())
      ensures Offers(State(), moves)
    {
      ghost var p := State();
      var tempEnPassant := enPassant;
      var tempCastlingAbility := castlingAbility;
      moves := FilterAndFlag();
      ghost var flagged := State();
      enPassant := tempEnPassant;
      castlingAbility := tempCastlingAbility;
      assert State() == flagged == p.(checkmate := checkmate, stalemate := stalemate);
      assert Offers(State(), moves) by {
        OffersAfterFlags(p, checkmate, stalemate, moves);
      }
    }

    /** The body of `get_valid_moves` between saving and restoring the target and the rights. */
    method FilterAndFlag() returns (moves: seq<Move>)
      requires Coherent(State())
      modifies this
      ensures moves == ValidMoves(old(State()))
      ensures State() == old(State()).(checkmate := checkmate, stalemate := stalemate)
      ensures EndFlags(old(State()), moves, State())
    {
      ghost var p := State();
      moves := FilterCandidates();
      InCheckIgnoresFlags(p, checkmate, stalemate);
      SetEndFlags(|moves| == 0);
    }

    /**
     * The candidates of `get_valid_moves` with the ones that leave the mover
     * in check removed; trying a move clears both end-of-game flags.
     */
    method FilterCandidates() returns (moves: seq<Move>)
      requires Coherent(State())
      modifies this
      ensures moves == ValidMoves(old(State())) && |moves| <= |Candidates(old(State()))|
      ensures State() == old(State()).(checkmate := checkmate, stalemate := stalemate)
      ensures |Candidates(old(State()))| == 0 ==> checkmate == old(checkmate) && stalemate == old(stalemate)
      ensures |Candidates(old(State()))| > 0 ==> !checkmate && !stalemate
    {
      ghost var p := State();
      moves := GetCandidates();
      CandidatesReady(p);
      CandidatesApplicable(p);
      moves := RemoveUnsafe(moves);
    }

    /**
     * The end of `get_valid_moves`: with no move left, checkmate when the
     * mover is in check and stalemate otherwise; with moves left, only
     * checkmate is cleared.
     */
    method SetEndFlags(noMoves: bool)
      requires WellFormed(board)
      modifies this`whiteToMove, this`checkmate, this`stalemate
      ensures State() == old(State()).(checkmate := checkmate, stalemate := stalemate)
      ensures noMoves && GameModel.InCheck(old(State())) ==> checkmate && stalemate == old(stalemate)
      ensures noMoves && !GameModel.InCheck(old(State())) ==> stalemate && checkmate == old(checkmate)
      ensures !noMoves ==> !checkmate && stalemate == old(stalemate)
    {
      if noMoves {
        var check := InCheck();
        if check {
          checkmate := true;
        } else {
          stalemate := true;
        }
      } else {
        checkmate := false;
      }
    }

    /** The list `get_valid_moves` starts from: all possible moves, then the king's castles. */
    method GetCandidates() returns (moves: seq<Move>)
      requires Coherent(State())
      modifies this`whiteToMove
      ensures State() == old(State())
      ensures moves == Candidates(State())
    {
      CoherentCastleReach(State());
      moves := GetAllPossibleMoves();
      if whiteToMove {
        moves := GetCastleMoves(whiteKing.row, whiteKing.col, moves);
      } else {
        moves := GetCastleMoves(blackKing.row, blackKing.col, moves);
      }
    }

    /**
     * The backward pass of `get_valid_moves`: each move, from the last to
     * the first, is tried and removed when it leaves the mover in check.
     */
    method RemoveUnsafe(candidates: seq<Move>) returns (moves: seq<Move>)
      requires WellFormed(board)
      requires forall x :: x in candidates ==> Applicable(x) && Fits(State(), x)
      requires forall j, k :: 0 <= j < k < |candidates| ==> !SameMove(candidates[j], candidates[k])
      modifies this
      ensures moves == KeepSafe(old(State()), candidates)
      ensures State() == if |candidates| == 0 then old(State())
                         else old(State()).(checkmate := false, stalemate := false)
    {
      ghost var p := State();
      ghost var C := candidates;
      moves := candidates;
      assert moves == C[..|C|] + KeepSafe(p, C[|C|..]);
      var i := |moves| - 1;
      while i >= 0
        invariant -1 <= i < |C|
        invariant moves == C[..i + 1] + KeepSafe(p, C[i + 1..])
        invariant State() == if i == |C| - 1 then p else p.(checkmate := false, stalemate := false)
      {
        moves := TryCandidate(p, C, i, moves);
        i := i - 1;
      }
      assert C[0..] == C;
    }

    /**
     * One turn of the backward pass: the i-th move is made and taken back,
     * and removed from the list when it left the mover in check.
     */
    method TryCandidate(ghost p: Position, ghost C: seq<Move>, i: int, moves: seq<Move>) returns (out: seq<Move>)
      requires WellFormed(p.board) && forall x :: x in C ==> Applicable(x) && Fits(p, x)
      requires forall j, k :: 0 <= j < k < |C| ==> !SameMove(C[j], C[k])
      requires 0 <= i < |C| && moves == C[..i + 1] + KeepSafe(p, C[i + 1..])
      requires State() == p || State() == p.(checkmate := false, stalemate := false)
      modifies this
      ensures out == C[..i] + KeepSafe(p, C[i..])
      ensures State() == p.(checkmate := false, stalemate := false)
    {
      FlagsIgnored(p, checkmate, stalemate, C[i]);
      KeepSafeAt(p, C, i);
      KeepOrDropAt(C, i, moves, KeepSafe(p, C[i + 1..]));
      out := moves;
      var check := MovesIntoCheck(moves[i]);
      if check {
        out := RemoveFirst(moves, moves[i]);
      }
    }

    /**
     * The test inside `get_valid_moves`: make the move, hand the turn back,
     * ask `in_check`, hand the turn on again and take the move back.
     */
    method MovesIntoCheck(m: Move) returns (check: bool)
      requires WellFormed(board) && Fits(State(), m) && Applicable(m)
      modifies this
      ensures check == !Safe(old(State()), m)
      ensures State() == old(State()).(checkmate := false, stalemate := false)
    {
      ghost var p := State();
      RoundTrip(p, m);
      MakeMove(m);
      whiteToMove := !whiteToMove;
      check := InCheck();
      whiteToMove := !whiteToMove;
      UndoMove();
    }

    /**
     * `in_check`: whether the king of the side to move stands on a square
     * the other side attacks.
     */
    method InCheck() returns (check: bool)
      requires WellFormed(board)
      modifies this`whiteToMove
      ensures whiteToMove == old(whiteToMove)
      ensures check == GameModel.InCheck(State())
    {
      if whiteToMove {
        check := SquareUnderAttack(whiteKing.row, whiteKing.col);
      } else {
        check := SquareUnderAttack(blackKing.row, blackKing.col);
      }
    }

    /**
     * `square_under_attack`: hand the turn to the other side, list its moves,
     * hand the turn back, and look for a move ending on (r, c).
     */
    method SquareUnderAttack(r: int, c: int) returns (attacked: bool)
      requires WellFormed(board)
      modifies this`whiteToMove
      ensures whiteToMove == old(whiteToMove)
      ensures attacked == Attacked(board, !whiteToMove, enPassant, r, c)
    {
      whiteToMove := !whiteToMove;
      var opponentsMoves := GetAllPossibleMoves();
      whiteToMove := !whiteToMove;
      var i := 0;
      while i < |opponentsMoves|
        invariant 0 <= i <= |opponentsMoves|
        invariant forall j :: 0 <= j < i ==> !(opponentsMoves[j].endRow == r && opponentsMoves[j].endCol == c)
      {
        if opponentsMoves[i].endRow == r && opponentsMoves[i].endCol == c {
          return true;
        }
        i := i + 1;
      }
      return false;
    }

    /**
     * `get_all_possible_moves`: every square in row-major order; a piece of
     * the side to move adds its moves through the generator for its kind.
     */
    method GetAllPossibleMoves() returns (moves: seq<Move>)
      requires WellFormed(board)
      ensures moves == AllPossibleMoves(board, whiteToMove, enPassant)
    {
      moves := [];
      ghost var k := 0;
      var r := 0;
      while r < 8
        invariant 0 <= r <= 8 && k == 8 * r
        invariant moves == ScanMoves(board, whiteToMove, enPassant, k)
      {
        moves := ScanRow(r, k, moves);
        r, k := r + 1, k + 8;
      }
    }

    /** One row of the scan, column by column; k counts the squares already scanned. */
    method ScanRow(r: int, ghost k: int, moves: seq<Move>) returns (out: seq<Move>)
      requires WellFormed(board) && 0 <= r < 8 && k == 8 * r
      requires moves == ScanMoves(board, whiteToMove, enPassant, k)
      ensures out == ScanMoves(board, whiteToMove, enPassant, k + 8)
    {
      out := moves;
      ghost var j := k;
      var c := 0;
      while c < 8
        invariant 0 <= c <= 8 && j == k + c
        invariant out == ScanMoves(board, whiteToMove, enPassant, j)
      {
        out := ScanSquare(r, c, j, out);
        c, j := c + 1, j + 1;
      }
    }

    /** One square of the scan: the moves of a piece of the mover standing there. */
    method ScanSquare(r: int, c: int, ghost k: int, moves: seq<Move>) returns (out: seq<Move>)
      requires WellFormed(board) && OnBoard(r, c) && k == 8 * r + c
      requires moves == ScanMoves(board, whiteToMove, enPassant, k)
      ensures out == ScanMoves(board, whiteToMove, enPassant, k + 1)
    {
      ScanMovesNext(board, whiteToMove, enPassant, r, c, moves);
      out := moves;
      if IsFriend(board[r][c], whiteToMove) {
        out := GetPieceMoves(r, c, moves);
      }
    }

    /** The `move_functions` table: the generator for the kind of the piece on (r, c). */
    method GetPieceMoves(r: int, c: int, moves: seq<Move>) returns (out: seq<Move>)
      requires WellFormed(board) && OnBoard(r, c) && IsFriend(board[r][c], whiteToMove)
      ensures out == moves + PieceMoves(board, whiteToMove, enPassant, r, c)
    {
      match board[r][c].kind
      case Pawn => out := GetPawnMoves(r, c, moves);
      case Knight => out := GetKnightMoves(r, c, moves);
      case Bishop => out := GetBishopMoves(r, c, moves);
      case Rook => out := GetRookMoves(r, c, moves);
      case Queen => out := GetQueenMoves(r, c, moves);
      case King => out := GetKingMoves(r, c, moves);
    }

    /**
     * `get_pawn_moves`: the forward steps, then the left and the right
     * diagonal.  The source writes the white and the black case out
     * separately; they differ only in the direction of travel and the home
     * row, which `Forward` and `HomeRow` give.
     */
    method GetPawnMoves(r: int, c: int, moves: seq<Move>) returns (out: seq<Move>)
      requires WellFormed(board) && OnBoard(r, c) && board[r][c] == Piece(Mover(whiteToMove), Pawn)
      ensures out == moves + PawnMoves(board, whiteToMove, enPassant, r, c)
    {
      PawnMovesParts(moves, board, whiteToMove, enPassant, r, c);
      out := AddPawnPush(r, c, moves);
      if c - 1 >= 0 {
        out := AddPawnCapture(r, c, c - 1, out);
      } else {
        assert PawnCapture(board, whiteToMove, enPassant, r, c, c - 1) == [];
        assert out + [] == out;
      }
      if c + 1 <= 7 {
        out := AddPawnCapture(r, c, c + 1, out);
      } else {
        assert PawnCapture(board, whiteToMove, enPassant, r, c, c + 1) == [];
        assert out + [] == out;
      }
    }

    /** One step forward onto an empty square and, from the home row, a second one. */
    method AddPawnPush(r: int, c: int, moves: seq<Move>) returns (out: seq<Move>)
      requires IsGrid(board) && OnBoard(r, c) && OnBoard(r + Forward(whiteToMove), c)
      ensures out == moves + PawnPush(board, whiteToMove, r, c)
    {
      var f := if whiteToMove then -1 else 1;
      out := moves;
      if board[r + f][c] == Empty {
        out := out + [MoveOn(board, r, c, r + f, c, false, false)];
        if r == HomeRow(whiteToMove) && board[r + 2 * f][c] == Empty {
          out := out + [MoveOn(board, r, c, r + 2 * f, c, false, false)];
        }
      }
    }

    /** The diagonal into column ec: onto an enemy piece, else onto the en-passant target. */
    method AddPawnCapture(r: int, c: int, ec: int, moves: seq<Move>) returns (out: seq<Move>)
      requires IsGrid(board) && OnBoard(r, c) && OnBoard(r + Forward(whiteToMove), ec)
      ensures out == moves + PawnCapture(board, whiteToMove, enPassant, r, c, ec)
    {
      var er := r + (if whiteToMove then -1 else 1);
      out := moves;
      if IsEnemy(board[er][ec], whiteToMove) {
        out := out + [MoveOn(board, r, c, er, ec, false, false)];
      } else if enPassant == Some(Sq(er, ec)) {
        out := out + [MoveOn(board, r, c, er, ec, true, false)];
      }
    }

    /** `get_knight_moves`. */
    method GetKnightMoves(r: int, c: int, moves: seq<Move>) returns (out: seq<Move>)
      requires IsGrid(board) && OnBoard(r, c)
      ensures out == moves + StepMoves(board, whiteToMove, r, c, KnightOffsets)
    {
      out := AddSteps(r, c, KnightOffsets, moves);
    }

    /** `get_king_moves`. */
    method GetKingMoves(r: int, c: int, moves: seq<Move>) returns (out: seq<Move>)
      requires IsGrid(board) && OnBoard(r, c)
      ensures out == moves + StepMoves(board, whiteToMove, r, c, KingOffsets)
    {
      out := AddSteps(r, c, KingOffsets, moves);
    }

    /**
     * The loop shared by the knight and the king: each offset that lands on
     * the board, on an enemy piece or an empty square, adds a move.
     */
    method AddSteps(r: int, c: int, offsets: seq<Offset>, moves: seq<Move>) returns (out: seq<Move>)
      requires IsGrid(board) && OnBoard(r, c)
      ensures out == moves + StepMoves(board, whiteToMove, r, c, offsets)
    {
      out := moves;
      var i := 0;
      while i < |offsets|
        invariant 0 <= i <= |offsets|
        invariant out == moves + StepMoves(board, whiteToMove, r, c, offsets[..i])
      {
        StepMovesPrefix(moves, board, whiteToMove, r, c, offsets, i);
        out := AddStep(r, c, offsets[i], out);
        i := i + 1;
      }
      assert offsets[..i] == offsets;
    }

    /** One offset of the knight or king loop: onto an empty or enemy square on the board. */
    method AddStep(r: int, c: int, o: Offset, moves: seq<Move>) returns (out: seq<Move>)
      requires IsGrid(board) && OnBoard(r, c)
      ensures out == moves + Step(board, whiteToMove, r, c, o)
    {
      out := moves;
      var endRow, endCol := r + o.0, c + o.1;
      if 0 <= endRow < 8 && 0 <= endCol < 8 {
        var endPiece := board[endRow][endCol];
        if IsEnemy(endPiece, whiteToMove) || endPiece == Empty {
          out := out + [MoveOn(board, r, c, endRow, endCol, false, false)];
        }
      }
    }

    /** `get_bishop_moves`. */
    method GetBishopMoves(r: int, c: int, moves: seq<Move>) returns (out: seq<Move>)
      requires IsGrid(board) && OnBoard(r, c)
      ensures out == moves + SlideMoves(board, whiteToMove, r, c, BishopDirections)
    {
      out := AddSlides(r, c, BishopDirections, moves);
    }

    /** `get_rook_moves`. */
    method GetRookMoves(r: int, c: int, moves: seq<Move>) returns (out: seq<Move>)
      requires IsGrid(board) && OnBoard(r, c)
      ensures out == moves + SlideMoves(board, whiteToMove, r, c, RookDirections)
    {
      out := AddSlides(r, c, RookDirections, moves);
    }

    /** `get_queen_moves`: the rook's moves, then the bishop's. */
    method GetQueenMoves(r: int, c: int, moves: seq<Move>) returns (out: seq<Move>)
      requires IsGrid(board) && OnBoard(r, c)
      ensures out == moves + SlideMoves(board, whiteToMove, r, c, RookDirections)
                           + SlideMoves(board, whiteToMove, r, c, BishopDirections)
    {
      out := GetRookMoves(r, c, moves);
      out := GetBishopMoves(r, c, out);
    }

    /** The loop shared by the bishop and the rook: one ray per direction, in order. */
    method AddSlides(r: int, c: int, directions: seq<Offset>, moves: seq<Move>) returns (out: seq<Move>)
      requires IsGrid(board) && OnBoard(r, c)
      ensures out == moves + SlideMoves(board, whiteToMove, r, c, directions)
    {
      out := moves;
      var k := 0;
      while k < |directions|
        invariant 0 <= k <= |directions|
        invariant out == moves + SlideMoves(board, whiteToMove, r, c, directions[..k])
      {
        SlideMovesPrefix(moves, board, whiteToMove, r, c, directions, k);
        out := AddRay(r, c, directions[k], out);
        k := k + 1;
      }
      SlideMovesWhole(board, whiteToMove, r, c, directions);
    }

    /**
     * The inner loop along direction d, at distances 1 to 7: an empty
     * square adds a move and goes on, an enemy piece adds a move and stops,
     * a friendly piece or the edge stops.
     */
    method AddRay(r: int, c: int, d: Offset, moves: seq<Move>) returns (out: seq<Move>)
      requires IsGrid(board) && OnBoard(r, c)
      ensures out == moves + Ray(board, whiteToMove, r, c, d, 1)
    {
      out := moves;
      var i := 1;
      while i < 8
        invariant 1 <= i <= 8
        invariant moves + Ray(board, whiteToMove, r, c, d, 1) == out + Ray(board, whiteToMove, r, c, d, i)
      {
        var stop;
        out, stop := RayStep(r, c, d, i, out);
        if stop {
          break;
        }
        i := i + 1;
      }
    }

    /**
     * One distance of the sliding loop: an empty square is added and the ray
     * goes on; an enemy square is added and ends the ray; a friendly square or
     * the edge of the board ends it.
     */
    method RayStep(r: int, c: int, d: Offset, i: int, moves: seq<Move>) returns (out: seq<Move>, stop: bool)
      requires IsGrid(board) && OnBoard(r, c) && 1 <= i < 8
      ensures stop ==> out == moves + Ray(board, whiteToMove, r, c, d, i)
      ensures !stop ==> out + Ray(board, whiteToMove, r, c, d, i + 1) == moves + Ray(board, whiteToMove, r, c, d, i)
    {
      out, stop := moves, true;
      var endRow, endCol := r + d.0 * i, c + d.1 * i;
      if 0 <= endRow < 8 && 0 <= endCol < 8 {
        var endPiece := board[endRow][endCol];
        var m := MoveOn(board, r, c, endRow, endCol, false, false);
        if endPiece == Empty {
          out, stop := out + [m], false;
          assert moves + ([m] + Ray(board, whiteToMove, r, c, d, i + 1)) == out + Ray(board, whiteToMove, r, c, d, i + 1);
        } else if IsEnemy(endPiece, whiteToMove) {
          out := out + [m];
        }
      }
    }

    /**
     * `get_castle_moves` for the king on (r, c): none while that square is
     * attacked, else the king side and the queen side for each right held.
     */
    method GetCastleMoves(r: int, c: int, moves: seq<Move>) returns (out: seq<Move>)
      requires WellFormed(board) && CastleReach(castlingAbility, whiteToMove, r, c)
      modifies this`whiteToMove
      ensures whiteToMove == old(whiteToMove)
      ensures out == moves + CastleMoves(board, whiteToMove, enPassant, castlingAbility, r, c)
    {
      out := moves;
      var attacked := SquareUnderAttack(r, c);
      if attacked {
        return;
      }
      ghost var kingSide: seq<Move> := [];
      if (whiteToMove && castlingAbility.wks) || (!whiteToMove && castlingAbility.bks) {
        out := GetKingSide(r, c, out);
        kingSide := KingSideMoves(board, whiteToMove, enPassant, r, c);
      }
      if (whiteToMove && castlingAbility.wqs) || (!whiteToMove && castlingAbility.bqs) {
        out := GetQueenSide(r, c, out);
        assert out == moves + (kingSide + QueenSideMoves(board, whiteToMove, enPassant, r, c));
      }
    }

    /** `_get_king_side`: two empty squares, neither attacked. */
    method GetKingSide(r: int, c: int, moves: seq<Move>) returns (out: seq<Move>)
      requires WellFormed(board) && OnBoard(r, c) && c + 2 <= 7
      modifies this`whiteToMove
      ensures whiteToMove == old(whiteToMove)
      ensures out == moves + KingSideMoves(board, whiteToMove, enPassant, r, c)
    {
      out := moves;
      if board[r][c + 1] == Empty && board[r][c + 2] == Empty {
        var first := SquareUnderAttack(r, c + 1);
        if !first {
          var second := SquareUnderAttack(r, c + 2);
          if !second {
            out := out + [MoveOn(board, r, c, r, c + 2, false, true)];
          }
        }
      }
    }

    /** `_get_queen_side`: three empty squares, the two nearest the king not attacked. */
    method GetQueenSide(r: int, c: int, moves: seq<Move>) returns (out: seq<Move>)
      requires WellFormed(board) && OnBoard(r, c) && c - 3 >= 0
      modifies this`whiteToMove
      ensures whiteToMove == old(whiteToMove)
      ensures out == moves + QueenSideMoves(board, whiteToMove, enPassant, r, c)
    {
      out := moves;
      if board[r][c - 1] == Empty && board[r][c - 2] == Empty && board[r][c - 3] == Empty {
        var first := SquareUnderAttack(r, c - 1);
        if !first {
          var second := SquareUnderAttack(r, c - 2);
          if !second {
            out := out + [MoveOn(board, r, c, r, c - 2, false, true)];
          }
        }
      }
    }
  }
}
