/**
 * Cells, squares and the 8x8 grid of the chess engine.
 *
 * A cell of the board is either empty (the code "--") or a piece, written
 * as a colour letter followed by a kind letter ("wP", "bK", ...).  Row 0 is
 * black's back rank and row 7 is white's.
 */
module ChessBoard {

  datatype Option<+T> = None | Some(value: T)

  datatype Color = White | Black

  datatype Kind = Pawn | Knight | Bishop | Rook | Queen | King

  /** One board cell: "--" or a two-character piece code. */
  datatype Cell = Empty | Piece(color: Color, kind: Kind)

  /** A (row, col) pair. */
  datatype Square = Sq(row: int, col: int)

  type Grid = seq<seq<Cell>>

  /** The colour whose turn it is, given the engine's whiteToMove flag. */
  function Mover(whiteToMove: bool): Color {
    if whiteToMove then White else Black
  }

  function Opposite(c: Color): Color {
    if c == White then Black else White
  }

  function ColorChar(c: Color): char {
    if c == White then 'w' else 'b'
  }

  function KindChar(k: Kind): char {
    match k
    case Pawn => 'P'
    case Knight => 'N'
    case Bishop => 'B'
    case Rook => 'R'
    case Queen => 'Q'
    case King => 'K'
  }

  /** The two-character code the engine stores in a board cell. */
  function Code(x: Cell): (s: string)
    ensures |s| == 2
    ensures x == Empty <==> s == "--"
  {
    match x
    case Empty => "--"
    case Piece(c, k) => [ColorChar(c), KindChar(k)]
  }

  /** Reads a cell code back; anything that is not a code is rejected. */
  function ParseCode(s: string): Option<Cell> {
    if s == "--" then Some(Empty)
    else if |s| != 2 then None
    else
      var color := if s[0] == 'w' then Some(White) else if s[0] == 'b' then Some(Black) else None;
      var kind := match s[1]
        case 'P' => Some(Pawn)
        case 'N' => Some(Knight)
        case 'B' => Some(Bishop)
        case 'R' => Some(Rook)
        case 'Q' => Some(Queen)
        case 'K' => Some(King)
        case _ => None;
      if color.Some? && kind.Some? then Some(Piece(color.value, kind.value)) else None
  }

  /** Every cell has a distinct code, which reads back as that cell. */
  lemma CodeRoundTrip(x: Cell)
    ensures ParseCode(Code(x)) == Some(x)
  {
  }

  /** A piece of the side to move (`turn == 'w' and whiteToMove` or the black case). */
  predicate IsFriend(x: Cell, whiteToMove: bool) {
    x.Piece? && x.color == Mover(whiteToMove)
  }

  /** A piece of the other side (`end_piece[0] == enemy_color`). */
  predicate IsEnemy(x: Cell, whiteToMove: bool) {
    x.Piece? && x.color != Mover(whiteToMove)
  }

  /** Python's `abs` on integers. */
  function Abs(x: int): nat {
    if x < 0 then -x else x
  }

  predicate OnBoard(r: int, c: int) {
    0 <= r < 8 && 0 <= c < 8
  }

  predicate IsGrid(b: Grid) {
    |b| == 8 && forall r :: 0 <= r < 8 ==> |b[r]| == 8
  }

  /**
   * No white pawn on row 0 and no black pawn on row 7: the pawn generator
   * looks one row ahead without a bounds check, and promotion keeps pawns
   * off those rows.
   */
  predicate PawnsOffLastRank(b: Grid)
    requires IsGrid(b)
  {
    forall c :: 0 <= c < 8 ==> b[0][c] != Piece(White, Pawn) && b[7][c] != Piece(Black, Pawn)
  }

  predicate WellFormed(b: Grid) {
    IsGrid(b) && PawnsOffLastRank(b)
  }

  /** The board with one cell overwritten (`board[r][c] = x`). */
  function Set(b: Grid, r: int, c: int, x: Cell): (b': Grid)
    requires IsGrid(b) && OnBoard(r, c)
    ensures IsGrid(b')
    ensures b'[r][c] == x
    ensures forall i, j :: OnBoard(i, j) && (i != r || j != c) ==> b'[i][j] == b[i][j]
  {
    b[r := b[r][c := x]]
  }

  /** Two grids that agree on every square are the same grid. */
  lemma GridExt(a: Grid, b: Grid)
    requires IsGrid(a) && IsGrid(b)
    requires forall i, j :: OnBoard(i, j) ==> a[i][j] == b[i][j]
    ensures a == b
  {
    forall i | 0 <= i < 8
      ensures a[i] == b[i]
    {
      assert forall j :: 0 <= j < 8 ==> a[i][j] == b[i][j];
    }
  }

  /** The starting position. */
  function InitialBoard(): Grid {
    [[Piece(Black, Rook), Piece(Black, Knight), Piece(Black, Bishop), Piece(Black, Queen),
      Piece(Black, King), Piece(Black, Bishop), Piece(Black, Knight), Piece(Black, Rook)],
     seq(8, _ => Piece(Black, Pawn)),
     seq(8, _ => Empty),
     seq(8, _ => Empty),
     seq(8, _ => Empty),
     seq(8, _ => Empty),
     seq(8, _ => Piece(White, Pawn)),
     [Piece(White, Rook), Piece(White, Knight), Piece(White, Bishop), Piece(White, Queen),
      Piece(White, King), Piece(White, Bishop), Piece(White, Knight), Piece(White, Rook)]]
  }
}
