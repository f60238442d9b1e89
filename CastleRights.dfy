/**
 * The four castling rights and how a move takes them away.
 */
module CastleRights {
  import opened ChessBoard
  import opened ChessMove

  /** `Castle(wks, wqs, bks, bqs)`: white/black, king-side/queen-side. */
  datatype Castle = Castle(wks: bool, wqs: bool, bks: bool, bqs: bool)

  /** Every right held in `a` is also held in `b`. */
  predicate NoMoreThan(a: Castle, b: Castle) {
    (a.wks ==> b.wks) && (a.wqs ==> b.wqs) && (a.bks ==> b.bks) && (a.bqs ==> b.bqs)
  }

  /** Losing a rook on its corner square forfeits that wing. */
  function CaptureClear(cr: Castle, m: Move): Castle {
    if m.pieceCaptured == Piece(White, Rook) then
      (if m.endRow == 7 then
         (if m.endCol == 0 then cr.(wqs := false) else if m.endCol == 7 then cr.(wks := false) else cr)
       else cr)
    else if m.pieceCaptured == Piece(Black, Rook) then
      (if m.endRow == 0 then
         (if m.endCol == 0 then cr.(bqs := false) else if m.endCol == 7 then cr.(bks := false) else cr)
       else cr)
    else cr
  }

  /**
   * Moving a king forfeits both of its colour's rights; moving a rook off its
   * back rank forfeits the queen side from column 0 and the king side from
   * any other column.
   */
  function MoverClear(cr: Castle, m: Move): Castle {
    if m.pieceMoved == Piece(White, King) then cr.(wks := false, wqs := false)
    else if m.pieceMoved == Piece(Black, King) then cr.(bks := false, bqs := false)
    else if m.pieceMoved == Piece(White, Rook) then
      (if m.startRow == 7 then (if m.startCol == 0 then cr.(wqs := false) else cr.(wks := false)) else cr)
    else if m.pieceMoved == Piece(Black, Rook) then
      (if m.startRow == 0 then (if m.startCol == 0 then cr.(bqs := false) else cr.(bks := false)) else cr)
    else cr
  }

  /**
   * `update_castle_rights`: the capture rule, the mover rule, then the capture
   * rule again, in source order.  Never grants a right.
   */
  function UpdatedRights(cr: Castle, m: Move): (r: Castle)
    ensures NoMoreThan(r, cr)
  {
    CaptureClear(MoverClear(CaptureClear(cr, m), m), m)
  }

  /** Each right, stated on its own: which moves take it away. */
  function RightsAfter(cr: Castle, m: Move): Castle {
    Castle(
      cr.wks && m.pieceMoved != Piece(White, King)
        && !(m.pieceMoved == Piece(White, Rook) && m.startRow == 7 && m.startCol != 0)
        && !(m.pieceCaptured == Piece(White, Rook) && m.endRow == 7 && m.endCol == 7),
      cr.wqs && m.pieceMoved != Piece(White, King)
        && !(m.pieceMoved == Piece(White, Rook) && m.startRow == 7 && m.startCol == 0)
        && !(m.pieceCaptured == Piece(White, Rook) && m.endRow == 7 && m.endCol == 0),
      cr.bks && m.pieceMoved != Piece(Black, King)
        && !(m.pieceMoved == Piece(Black, Rook) && m.startRow == 0 && m.startCol != 0)
        && !(m.pieceCaptured == Piece(Black, Rook) && m.endRow == 0 && m.endCol == 7),
      cr.bqs && m.pieceMoved != Piece(Black, King)
        && !(m.pieceMoved == Piece(Black, Rook) && m.startRow == 0 && m.startCol == 0)
        && !(m.pieceCaptured == Piece(Black, Rook) && m.endRow == 0 && m.endCol == 0))
  }

  /** The branchy update agrees with the per-right description. */
  lemma UpdatedRightsMatchesRightsAfter(cr: Castle, m: Move)
    ensures UpdatedRights(cr, m) == RightsAfter(cr, m)
  {
  }

  /** The capture rule is idempotent, so the repeated block changes nothing. */
  lemma CaptureClearIdempotent(cr: Castle, m: Move)
    ensures CaptureClear(CaptureClear(cr, m), m) == CaptureClear(cr, m)
    ensures UpdatedRights(cr, m) == CaptureClear(MoverClear(cr, m), m)
  {
  }

  /** A king move clears both rights of its colour; the other colour loses only what the capture rule takes. */
  lemma KingMoveClearsBoth(cr: Castle, m: Move, c: Color)
    requires m.pieceMoved == Piece(c, King)
    ensures var r := UpdatedRights(cr, m);
      (c == White ==> !r.wks && !r.wqs && r.bks == RightsAfter(cr, m).bks && r.bqs == RightsAfter(cr, m).bqs)
      && (c == Black ==> !r.bks && !r.bqs && r.wks == RightsAfter(cr, m).wks && r.wqs == RightsAfter(cr, m).wqs)
  {
  }

  /**
   * A rook leaving its colour's back rank clears only one wing: column 0 the
   * queen side, any other column the king side.
   */
  lemma RookMoveClearsOneWing(cr: Castle, m: Move, c: Color)
    requires m.pieceMoved == Piece(c, Rook) && m.startRow == (if c == White then 7 else 0)
    requires !(m.pieceCaptured.Piece? && m.pieceCaptured.kind == Rook)
    ensures UpdatedRights(cr, m) ==
      if c == White then (if m.startCol == 0 then cr.(wqs := false) else cr.(wks := false))
      else (if m.startCol == 0 then cr.(bqs := false) else cr.(bks := false))
  {
  }

  /** Capturing a rook on a corner square clears that wing. */
  lemma CornerCaptureClearsWing(cr: Castle, m: Move)
    ensures m.pieceCaptured == Piece(White, Rook) && m.endRow == 7 && m.endCol == 0 ==> !UpdatedRights(cr, m).wqs
    ensures m.pieceCaptured == Piece(White, Rook) && m.endRow == 7 && m.endCol == 7 ==> !UpdatedRights(cr, m).wks
    ensures m.pieceCaptured == Piece(Black, Rook) && m.endRow == 0 && m.endCol == 0 ==> !UpdatedRights(cr, m).bqs
    ensures m.pieceCaptured == Piece(Black, Rook) && m.endRow == 0 && m.endCol == 7 ==> !UpdatedRights(cr, m).bks
  {
  }
}
