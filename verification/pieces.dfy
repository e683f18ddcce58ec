/** The data model of src/chess_board.rs: pieces, squares, moves and the value
    of a `ChessBoard` (what `clone()` copies). Rows are numbered from White's
    side: White starts on rows 0 and 1, Black on rows 6 and 7. */
module Pieces {
  import opened Wrappers

  /** `PieceType`; the Rust variant `None` is `NoPiece` here. */
  datatype PieceType = Pawn | Knight | Bishop | Rook | Queen | King | NoPiece

  /** `Color`; the Rust variant `None` is `NoColor` here. */
  datatype Color = Black | White | NoColor

  /** A square, as two `usize` coordinates; nothing keeps them below 8. */
  datatype Position = Position(row: nat, col: nat)

  datatype Piece = Piece(pieceType: PieceType, position: Position, color: Color, hasMoved: bool)

  datatype ChessMove =
    | OrdinaryMove(from: Position, to: Position)
    | Castle(king: Position, rook: Position)
    | Promotion(from: Position, to: Position, pieceType: PieceType)

  /** `PartyState`; the Rust variant `None` is `Normal` here. */
  datatype PartyState = Check | CheckMate | Pat | Normal

  type Grid = seq<seq<Option<Piece>>>

  /** The board is always a vector of 8 rows of 8 squares. */
  predicate IsGrid(g: Grid) {
    |g| == 8 && forall r :: 0 <= r < 8 ==> |g[r]| == 8
  }

  /** The `is_move_possible!` macro: both coordinates lie in 0..8. */
  predicate InBounds(r: int, c: int) {
    0 <= r < 8 && 0 <= c < 8
  }

  predicate OnBoard(p: Position) {
    InBounds(p.row, p.col)
  }

  /** The grid with one square replaced. */
  function SetSquare(g: Grid, r: nat, c: nat, x: Option<Piece>): (g': Grid)
    requires IsGrid(g) && InBounds(r, c)
    ensures IsGrid(g')
    ensures g'[r][c] == x
    ensures forall i, j :: 0 <= i < 8 && 0 <= j < 8 && (i, j) != (r, c) ==> g'[i][j] == g[i][j]
  {
    g[r := g[r][c := x]]
  }

  /** Two grids with the same squares are the same grid. */
  lemma GridExtensionality(g1: Grid, g2: Grid)
    requires IsGrid(g1) && IsGrid(g2)
    requires forall i, j :: 0 <= i < 8 && 0 <= j < 8 ==> g1[i][j] == g2[i][j]
    ensures g1 == g2
  {
    forall i | 0 <= i < 8 ensures g1[i] == g2[i] {
      assert forall j :: 0 <= j < 8 ==> g1[i][j] == g2[i][j];
    }
  }

  /** Writing a square twice leaves only the second write. */
  lemma SetSquareTwice(g: Grid, r: nat, c: nat, x: Option<Piece>, y: Option<Piece>)
    requires IsGrid(g) && InBounds(r, c)
    ensures SetSquare(SetSquare(g, r, c, x), r, c, y) == SetSquare(g, r, c, y)
  {
    GridExtensionality(SetSquare(SetSquare(g, r, c, x), r, c, y), SetSquare(g, r, c, y));
  }

  /** The value of a `ChessBoard`: its six fields. */
  datatype Board = Board(
    grid: Grid,
    blackPositions: seq<Position>,
    whitePositions: seq<Position>,
    lastMove: Option<ChessMove>,
    partyState: PartyState,
    turn: Color)

  /** `change_turn`: White becomes Black, every other value becomes White. */
  function NextTurn(c: Color): (n: Color)
    ensures c == White ==> n == Black
    ensures c != White ==> n == White
  {
    if c == White then Black else White
  }

  /** A piece that `eval_function` and `zobrist_hash` refuse (they panic on it). */
  predicate BadPiece(p: Piece) {
    p.color == NoColor || p.pieceType == NoPiece
  }

  /** Square `k` of the scans of the evaluation and of the hash, which visit
      rows 0..6 and, in each, columns 0..6: both loop over `0..7`, so row 7
      and column 7 are never read. */
  function Scanned(g: Grid, k: nat): Option<Piece>
    requires IsGrid(g) && k < 49
  {
    g[k / 7][k % 7]
  }

  lemma ScannedAt(g: Grid, r: nat, c: nat)
    requires IsGrid(g) && r < 7 && c < 7
    ensures 7 * r + c < 49 && Scanned(g, 7 * r + c) == g[r][c]
    ensures (7 * r + c) / 7 == r && (7 * r + c) % 7 == c
  {
    assert (7 * r + c) / 7 == r && (7 * r + c) % 7 == c;
  }

  predicate NoDup<T(==)>(s: seq<T>) {
    forall i, j :: 0 <= i < j < |s| ==> s[i] != s[j]
  }

  /** Square `p` is on the board and holds a piece of colour `c`. */
  predicate Holds(g: Grid, p: Position, c: Color)
    requires IsGrid(g)
  {
    OnBoard(p) && g[p.row][p.col].Some? && g[p.row][p.col].value.color == c
  }

  /** The board invariant that every mutation must keep: each side's list
      holds, without repetition, exactly the squares where that side has a
      piece; every piece on the grid is White or Black, has a kind, and
      records its own square in its `position` field. */
  ghost predicate Valid(b: Board) {
    && IsGrid(b.grid)
    && NoDup(b.whitePositions)
    && NoDup(b.blackPositions)
    && (forall p :: p in b.whitePositions <==> Holds(b.grid, p, White))
    && (forall p :: p in b.blackPositions <==> Holds(b.grid, p, Black))
    && (forall r, c :: 0 <= r < 8 && 0 <= c < 8 && b.grid[r][c].Some? ==>
          !BadPiece(b.grid[r][c].value) && b.grid[r][c].value.position == Position(r, c))
  }

  /** The back rank of `INITIAL_BOARD`, column by column. */
  const BackRank: seq<PieceType> := [Rook, Knight, Bishop, Queen, King, Bishop, Knight, Rook]

  /** `INITIAL_BOARD[i][j]`: the kind and colour that `new` places on square (i, j). */
  function InitialLayout(i: nat, j: nat): (PieceType, Color)
    requires InBounds(i, j)
  {
    if i == 0 then (BackRank[j], White)
    else if i == 1 then (Pawn, White)
    else if i == 6 then (Pawn, Black)
    else if i == 7 then (BackRank[j], Black)
    else (NoPiece, NoColor)
  }

  /** What `new` leaves on square (i, j). */
  function InitialSquare(i: nat, j: nat): Option<Piece>
    requires InBounds(i, j)
  {
    var (t, c) := InitialLayout(i, j);
    if t != NoPiece then Some(Piece(t, Position(i, j), c, false)) else None
  }

  const EmptyGrid: Grid := seq(8, _ => seq(8, _ => None))

  const InitialGrid: Grid := seq(8, i requires 0 <= i < 8 => seq(8, j requires 0 <= j < 8 => InitialSquare(i, j)))

  /** The board `ChessBoard::new` builds: positions are pushed in row-major
      order, so White's list is rows 0-1 and Black's rows 6-7, left to right. */
  function NewBoard(): Board {
    Board(InitialGrid,
          seq(16, k requires 0 <= k < 16 => Position(6 + k / 8, k % 8)),
          seq(16, k requires 0 <= k < 16 => Position(k / 8, k % 8)),
          None, Normal, White)
  }

  lemma InitialGridAt(r: nat, c: nat)
    requires InBounds(r, c)
    ensures IsGrid(InitialGrid) && InitialGrid[r][c] == InitialSquare(r, c)
  {
  }

  lemma NewBoardIsValid()
    ensures Valid(NewBoard())
    ensures NewBoard().turn == White && NewBoard().partyState == Normal && NewBoard().lastMove == None
    ensures forall r, c :: 0 <= r < 8 && 0 <= c < 8 ==>
      (NewBoard().grid[r][c].Some? <==> r in {0, 1, 6, 7})
    ensures forall r, c :: 0 <= r < 8 && 0 <= c < 8 && NewBoard().grid[r][c].Some? ==>
      var p := NewBoard().grid[r][c].value;
      !p.hasMoved && (p.color == White <==> r < 2) && (p.color == Black <==> r >= 6)
  {
    var b := NewBoard();
    assert IsGrid(b.grid) by { InitialGridAt(0, 0); }
    forall r, c | 0 <= r < 8 && 0 <= c < 8
      ensures b.grid[r][c] == InitialSquare(r, c)
    {
      InitialGridAt(r, c);
    }
    NewListWhite();
    NewListBlack();
  }

  /** White's list of the new board holds exactly the squares of rows 0-1. */
  lemma NewListWhite()
    ensures IsGrid(InitialGrid)
    ensures forall p :: p in NewBoard().whitePositions <==> Holds(InitialGrid, p, White)
  {
    var l := NewBoard().whitePositions;
    InitialGridAt(0, 0);
    forall p | Holds(InitialGrid, p, White) ensures p in l {
      InitialGridAt(p.row, p.col);
      var k := 8 * p.row + p.col;
      assert l[k] == p;
    }
    forall p | p in l ensures Holds(InitialGrid, p, White) {
      var k :| 0 <= k < 16 && l[k] == p;
      assert p == Position(k / 8, k % 8);
      InitialGridAt(p.row, p.col);
    }
  }

  /** Black's list of the new board holds exactly the squares of rows 6-7. */
  lemma NewListBlack()
    ensures IsGrid(InitialGrid)
    ensures forall p :: p in NewBoard().blackPositions <==> Holds(InitialGrid, p, Black)
  {
    var l := NewBoard().blackPositions;
    InitialGridAt(0, 0);
    forall p | Holds(InitialGrid, p, Black) ensures p in l {
      InitialGridAt(p.row, p.col);
      var k := 8 * (p.row - 6) + p.col;
      assert l[k] == p;
    }
    forall p | p in l ensures Holds(InitialGrid, p, Black) {
      var k :| 0 <= k < 16 && l[k] == p;
      assert p == Position(6 + k / 8, k % 8);
      InitialGridAt(p.row, p.col);
    }
  }
}
