/** The `ChessBoard` object of src/chess_board.rs: its six fields, updated in
    place by the methods that mutate the board, and read by the methods
    that generate moves and test for check. Every method is proved to
    compute what the functions of BoardRules and MoveRules say of the board
    value `State()`; a method returns `Panic` exactly where the source
    aborts, and then nothing is promised about the fields. */
module Engine {
  import opened Wrappers
  import opened Pieces
  import opened BoardRules
  import opened MoveRules

  /** `acc` in front of the list of a successful result; a panic stays one. */
  function Prepend<T>(acc: seq<T>, r: Result<seq<T>>): Result<seq<T>> {
    match r
    case Ok(v) => Ok(acc + v)
    case Panic => Panic
  }

  lemma PrependEmpty<T>(r: Result<seq<T>>)
    ensures Prepend([], r) == r
  {
    if r.Ok? {
      assert [] + r.value == r.value;
    }
  }

  lemma PrependTwice<T>(a: seq<T>, b: seq<T>, r: Result<seq<T>>)
    ensures Prepend(a, Prepend(b, r)) == Prepend(a + b, r)
  {
    if r.Ok? {
      assert a + (b + r.value) == (a + b) + r.value;
    }
  }

  /** The positions of colour `color` among the first `n` squares of
      `INITIAL_BOARD` in row-major order, as `new` pushes them. */
  function InitialListed(color: Color, n: nat): seq<Position>
    requires n <= 64
  {
    if n == 0 then []
    else
      var (t, c) := InitialLayout((n - 1) / 8, (n - 1) % 8);
      InitialListed(color, n - 1) + (if t != NoPiece && c == color then [Position((n - 1) / 8, (n - 1) % 8)] else [])
  }

  lemma InitialListedStep(color: Color, i: nat, j: nat)
    requires i < 8 && j < 8
    ensures var (t, c) := InitialLayout(i, j);
      InitialListed(color, 8 * i + j + 1) ==
        InitialListed(color, 8 * i + j) + (if t != NoPiece && c == color then [Position(i, j)] else [])
  {
    assert (8 * i + j) / 8 == i && (8 * i + j) % 8 == j;
  }

  lemma {:induction false} InitialListedWhite(n: nat)
    requires n <= 64
    ensures InitialListed(White, n) == seq(if n < 16 then n else 16, k requires 0 <= k < 16 => Position(k / 8, k % 8))
  {
    if n > 0 {
      InitialListedWhite(n - 1);
    }
  }

  lemma {:induction false} InitialListedBlack(n: nat)
    requires n <= 64
    ensures InitialListed(Black, n) == seq(if n < 48 then 0 else n - 48, k requires 0 <= k < 16 => Position(6 + k / 8, k % 8))
  {
    if n > 0 {
      InitialListedBlack(n - 1);
    }
  }

  lemma AppendAssoc<T>(a: seq<T>, b: seq<T>, c: seq<T>)
    ensures a + (b + c) == (a + b) + c
  {
  }

  class ChessBoard {
    var board: Grid
    var blackPositions: seq<Position>
    var whitePositions: seq<Position>
    var lastMove: Option<ChessMove>
    var partyState: PartyState
    var turn: Color

    /** The value of the object: what `clone()` copies. */
    function State(): Board
      reads this
    {
      Board(board, blackPositions, whitePositions, lastMove, partyState, turn)
    }

    /** One pass of the inner loop of `ChessBoard::new`: row `i` of
        `INITIAL_BOARD` is placed and its positions pushed. */
    static method PlaceRow(g: Grid, i: nat, white: seq<Position>, black: seq<Position>)
      returns (g': Grid, white': seq<Position>, black': seq<Position>)
      requires i < 8 && IsGrid(g)
      requires forall c :: 0 <= c < 8 ==> g[i][c] == None
      requires white == InitialListed(White, 8 * i) && black == InitialListed(Black, 8 * i)
      ensures IsGrid(g')
      ensures forall r, c :: 0 <= r < 8 && 0 <= c < 8 && r != i ==> g'[r][c] == g[r][c]
      ensures forall c :: 0 <= c < 8 ==> g'[i][c] == InitialSquare(i, c)
      ensures white' == InitialListed(White, 8 * i + 8) && black' == InitialListed(Black, 8 * i + 8)
    {
      g', white', black' := g, white, black;
      var j := 0;
      while j < 8
        invariant 0 <= j <= 8 && IsGrid(g')
        invariant forall r, c :: 0 <= r < 8 && 0 <= c < 8 && r != i ==> g'[r][c] == g[r][c]
        invariant forall c :: 0 <= c < 8 ==> g'[i][c] == (if c < j then InitialSquare(i, c) else None)
        invariant white' == InitialListed(White, 8 * i + j) && black' == InitialListed(Black, 8 * i + j)
      {
        ghost var before := g';
        g', white', black' := PlaceSquare(g', i, j, white', black');
        forall c | 0 <= c < 8
          ensures g'[i][c] == (if c < j + 1 then InitialSquare(i, c) else None)
        {
          if c != j {
            assert g'[i][c] == before[i][c];
          }
        }
        j := j + 1;
      }
    }

    /** One square of the loop over `INITIAL_BOARD`: a piece, if the layout
        has one there, is placed and its position pushed onto its colour's
        list. */
    static method PlaceSquare(g: Grid, i: nat, j: nat, white: seq<Position>, black: seq<Position>)
      returns (g': Grid, white': seq<Position>, black': seq<Position>)
      requires i < 8 && j < 8 && IsGrid(g) && g[i][j] == None
      requires white == InitialListed(White, 8 * i + j) && black == InitialListed(Black, 8 * i + j)
      ensures IsGrid(g') && g'[i][j] == InitialSquare(i, j)
      ensures forall r, c :: 0 <= r < 8 && 0 <= c < 8 && (r, c) != (i, j) ==> g'[r][c] == g[r][c]
      ensures white' == InitialListed(White, 8 * i + j + 1) && black' == InitialListed(Black, 8 * i + j + 1)
    {
      InitialListedStep(White, i, j);
      InitialListedStep(Black, i, j);
      g', white', black' := g, white, black;
      var (pieceType, color) := InitialLayout(i, j);
      if pieceType != NoPiece {
        var position := Position(i, j);
        g' := SetSquare(g', i, j, Some(Piece(pieceType, position, color, false)));
        match color {
          case Black => black' := black' + [position];
          case White => white' := white' + [position];
          case NoColor =>
        }
      }
    }

    /** `ChessBoard::new`: the pieces of `INITIAL_BOARD` are placed and their
        positions pushed in row-major order; White moves first. */
    constructor ()
      ensures State() == NewBoard()
    {
      var black: seq<Position> := [];
      var white: seq<Position> := [];
      var g: Grid := EmptyGrid;
      var i := 0;
      while i < 8
        invariant 0 <= i <= 8 && IsGrid(g)
        invariant forall r, c :: 0 <= r < 8 && 0 <= c < 8 ==> g[r][c] == (if r < i then InitialSquare(r, c) else None)
        invariant white == InitialListed(White, 8 * i) && black == InitialListed(Black, 8 * i)
      {
        g, white, black := PlaceRow(g, i, white, black);
        i := i + 1;
      }
      InitialListedWhite(64);
      InitialListedBlack(64);
      forall r, c | 0 <= r < 8 && 0 <= c < 8 ensures g[r][c] == InitialGrid[r][c] {
        InitialGridAt(r, c);
      }
      InitialGridAt(0, 0);
      GridExtensionality(g, InitialGrid);
      board := g;
      blackPositions := black;
      whitePositions := white;
      lastMove := None;
      partyState := Normal;
      turn := White;
    }

    /** `clone()`: a new object with the same value. */
    constructor Clone(other: ChessBoard)
      ensures State() == old(other.State())
    {
      board := other.board;
      blackPositions := other.blackPositions;
      whitePositions := other.whitePositions;
      lastMove := other.lastMove;
      partyState := other.partyState;
      turn := other.turn;
    }

    /** `change_turn`. */
    method ChangeTurn()
      modifies this
      ensures State() == old(State()).(turn := NextTurn(old(turn)))
    {
      if turn == White {
        turn := Black;
      } else {
        turn := White;
      }
    }

    /** `change_party_state`. */
    method ChangePartyState(s: PartyState)
      modifies this
      ensures State() == old(State()).(partyState := s)
    {
      partyState := s;
    }

    /** `add_piece_position`. */
    method AddPiecePosition(piece: Piece)
      modifies this
      ensures State() == AddPiece(old(State()), piece)
    {
      match piece.color {
        case Black => blackPositions := blackPositions + [piece.position];
        case White => whitePositions := whitePositions + [piece.position];
        case NoColor =>
      }
    }

    /** `iter().position(..)` followed by `remove(index)`. */
    static method RemoveFirst(list: seq<Position>, p: Position) returns (r: Result<seq<Position>>)
      ensures r == RemoveFrom(list, p)
    {
      var i := 0;
      while i < |list| && list[i] != p
        invariant 0 <= i <= |list|
        invariant forall k :: 0 <= k < i ==> list[k] != p
      {
        i := i + 1;
      }
      if i == |list| {
        return Panic;
      }
      r := Ok(list[..i] + list[i + 1..]);
    }

    /** `remove_piece_position`. */
    method RemovePiecePosition(piece: Piece) returns (r: Result<()>)
      modifies this
      ensures r.Ok? <==> RemovePiece(old(State()), piece).Ok?
      ensures r.Ok? ==> State() == RemovePiece(old(State()), piece).value
    {
      match piece.color {
        case Black =>
          var l := RemoveFirst(blackPositions, piece.position);
          if l.Panic? {
            return Panic;
          }
          blackPositions := l.value;
        case White =>
          var l := RemoveFirst(whitePositions, piece.position);
          if l.Panic? {
            return Panic;
          }
          whitePositions := l.value;
        case NoColor =>
      }
      r := Ok(());
    }

    /** The body shared by the OrdinaryMove and Promotion arms of
        `make_a_move`; `promote` is the promotion kind, if any. */
    method Relocate(from: Position, to: Position, promote: Option<PieceType>) returns (r: Result<()>)
      requires IsGrid(board)
      modifies this
      ensures r.Ok? <==> MovePiece(old(State()), from, to, promote).Ok?
      ensures r.Ok? ==> State() == MovePiece(old(State()), from, to, promote).value
    {
      if !OnBoard(from) || board[from.row][from.col].None? || !OnBoard(to) {
        return Panic;
      }
      var piece := board[from.row][from.col].value;
      if board[to.row][to.col].Some? {
        var attacked := board[to.row][to.col].value;
        var ok := RemovePiecePosition(attacked);
        if ok.Panic? {
          return Panic;
        }
      }
      piece := piece.(hasMoved := true);
      var ok := RemovePiecePosition(piece);
      if ok.Panic? {
        return Panic;
      }
      piece := piece.(position := to);
      if promote.Some? {
        piece := piece.(pieceType := promote.value);
      }
      AddPiecePosition(piece);
      SetSquareTwice(board, to.row, to.col, None, Some(piece));
      board := SetSquare(board, to.row, to.col, None);
      board := SetSquare(board, to.row, to.col, Some(piece));
      board := SetSquare(board, from.row, from.col, None);
      r := Ok(());
    }

    /** One half of the Castle arm: re-list the piece with column `newCol`
        and move it there within the row of `sq`. */
    method CastleStepMove(piece: Piece, sq: Position, newCol: nat) returns (r: Result<()>)
      requires IsGrid(board) && OnBoard(sq)
      modifies this
      ensures r.Ok? <==> CastleStep(old(State()), piece, sq, newCol).Ok?
      ensures r.Ok? ==> State() == CastleStep(old(State()), piece, sq, newCol).value
    {
      var p := piece;
      var ok := RemovePiecePosition(p);
      if ok.Panic? {
        return Panic;
      }
      p := p.(position := p.position.(col := newCol));
      AddPiecePosition(p);
      if newCol >= 8 {
        return Panic;
      }
      board := SetSquare(board, sq.row, newCol, Some(p));
      board := SetSquare(board, sq.row, sq.col, None);
      r := Ok(());
    }

    /** The Castle arm of `make_a_move`: the rook moves first, then the king. */
    method CastleMove(king: Position, rook: Position) returns (r: Result<()>)
      requires IsGrid(board)
      modifies this
      ensures r.Ok? <==> CastlePieces(old(State()), king, rook).Ok?
      ensures r.Ok? ==> State() == CastlePieces(old(State()), king, rook).value
    {
      if !OnBoard(king) || board[king.row][king.col].None? {
        return Panic;
      }
      var kingPiece := board[king.row][king.col].value;
      if !OnBoard(rook) || board[rook.row][rook.col].None? {
        return Panic;
      }
      var rookPiece := board[rook.row][rook.col].value;
      kingPiece := kingPiece.(hasMoved := true);
      rookPiece := rookPiece.(hasMoved := true);
      var newRookCol: nat;
      var newKingCol: nat;
      if rook.col == 7 {
        newRookCol := rook.col - 2;
        newKingCol := king.col + 2;
      } else {
        newRookCol := rook.col + 3;
        if king.col < 2 {
          return Panic;
        }
        newKingCol := king.col - 2;
      }
      r := CastleStepMove(rookPiece, rook, newRookCol);
      if r.Panic? {
        return;
      }
      r := CastleStepMove(kingPiece, king, newKingCol);
    }

    /** `make_a_move`: the move's arm, then `last_move` and `change_turn`. */
    method MakeAMove(m: ChessMove) returns (r: Result<()>)
      requires IsGrid(board)
      modifies this
      ensures r.Ok? <==> ApplyMove(old(State()), m).Ok?
      ensures r.Ok? ==> State() == ApplyMove(old(State()), m).value
    {
      match m {
        case Castle(king, rook) => r := CastleMove(king, rook);
        case OrdinaryMove(from, to) => r := Relocate(from, to, None);
        case Promotion(from, to, kind) => r := Relocate(from, to, Some(kind));
      }
      if r.Panic? {
        return;
      }
      lastMove := Some(m);
      ChangeTurn();
    }

    // -------------------------------------------------------------------
    // Piece lists and the king
    // -------------------------------------------------------------------

    /** The `for pos in ..positions.iter()` loop of the piece queries: the
        piece on each listed square, unwrapped. */
    method PiecesOnSquares(list: seq<Position>) returns (r: Result<seq<Piece>>)
      requires IsGrid(board)
      ensures r == PiecesAt(board, list)
    {
      var pieces: seq<Piece> := [];
      assert list[0..] == list;
      PrependEmpty(PiecesAt(board, list));
      for i := 0 to |list|
        invariant PiecesAt(board, list) == Prepend(pieces, PiecesAt(board, list[i..]))
      {
        var pos := list[i];
        assert list[i..][0] == pos;
        if !OnBoard(pos) || board[pos.row][pos.col].None? {
          return Panic;
        }
        assert list[i..][1..] == list[i + 1..];
        PrependTwice(pieces, [board[pos.row][pos.col].value], PiecesAt(board, list[i + 1..]));
        pieces := pieces + [board[pos.row][pos.col].value];
      }
      assert list[|list|..] == [] && pieces + [] == pieces;
      r := Ok(pieces);
    }

    /** `get_friendly_pieces_by_color`. */
    method GetFriendlyPiecesByColor(color: Color) returns (r: Result<seq<Piece>>)
      requires IsGrid(board)
      ensures r == PiecesOf(State(), color)
    {
      match color {
        case White => r := PiecesOnSquares(whitePositions);
        case Black => r := PiecesOnSquares(blackPositions);
        case NoColor => r := Panic;
      }
    }

    /** `get_friendly_pieces`. */
    method GetFriendlyPieces() returns (r: Result<seq<Piece>>)
      requires IsGrid(board)
      ensures r == FriendlyPieces(State())
    {
      match turn {
        case White => r := PiecesOnSquares(whitePositions);
        case Black => r := PiecesOnSquares(blackPositions);
        case NoColor => r := Panic;
      }
    }

    /** `get_ennemy_pieces`. */
    method GetEnnemyPieces() returns (r: Result<seq<Piece>>)
      requires IsGrid(board)
      ensures r == EnemyPieces(State())
    {
      match turn {
        case White => r := PiecesOnSquares(blackPositions);
        case Black => r := PiecesOnSquares(whitePositions);
        case NoColor => r := Panic;
      }
    }

    /** `get_ennemy_pieces_by_color`: its argument is never read, so it
        returns the pieces of the side not to move whatever `color` is. */
    method GetEnnemyPiecesByColor(color: Color) returns (r: Result<seq<Piece>>)
      requires IsGrid(board)
      ensures r == EnemyPieces(State())
    {
      r := GetEnnemyPieces();
    }

    /** `get_king`: `find` over the friendly pieces. */
    method GetKing() returns (r: Result<Piece>)
      requires IsGrid(board)
      ensures r == MoveRules.GetKing(State())
    {
      var friendly := GetFriendlyPieces();
      if friendly.Panic? {
        return Panic;
      }
      var ps := friendly.value;
      var i := 0;
      while i < |ps| && ps[i].pieceType != King
        invariant 0 <= i <= |ps|
        invariant forall k :: 0 <= k < i ==> ps[k].pieceType != King
      {
        i := i + 1;
      }
      if i == |ps| {
        return Panic;
      }
      r := Ok(ps[i]);
    }

    // -------------------------------------------------------------------
    // Move generation
    // -------------------------------------------------------------------

    /** The `for col in start..end` scan of `get_castle_moves` along row
        `row`: whether every scanned square is empty; the first occupied
        square stops the scan, and a column past the board panics. */
    method ScanEmpty(row: nat, start: nat, end: int) returns (r: Result<bool>)
      requires IsGrid(board) && row < 8
      ensures r.Panic? <==> ScanPanics(board[row], start, end)
      ensures r.Ok? ==> (r.value <==> forall c :: start <= c < end ==> InBounds(row, c) && board[row][c].None?)
    {
      var col: int := start;
      while col < end
        invariant start <= col
        invariant ScanPanics(board[row], start, end) == ScanPanics(board[row], col, end)
        invariant forall c :: start <= c < col ==> InBounds(row, c) && board[row][c].None?
        decreases end - col
      {
        if col >= 8 {
          return Panic;
        }
        if board[row][col].Some? {
          assert !(InBounds(row, col) && board[row][col].None?);
          return Ok(false);
        }
        col := col + 1;
      }
      r := Ok(true);
    }

    /** `get_castle_moves`: the castle moves are collected and then dropped. */
    method GetCastleMoves(king: Piece) returns (r: Result<seq<ChessMove>>)
      requires IsGrid(board)
      ensures r == CastleMoves(State(), king)
    {
      var chessMoves: seq<ChessMove> := [];
      if !king.hasMoved {
        if king.position.row >= 8 {
          return Panic;
        }
        var row := king.position.row;
        if board[row][0].Some? {
          var piece := board[row][0].value;
          if piece.pieceType == Rook && !piece.hasMoved {
            var start := piece.position.col + 1;
            if king.position.col == 0 {
              return Panic;
            }
            var end := king.position.col - 1;
            var empty := ScanEmpty(row, start, end);
            if empty.Panic? {
              return Panic;
            }
            if empty.value {
              chessMoves := chessMoves + [Castle(king.position, piece.position)];
            }
          }
        }
        if board[row][7].Some? {
          var piece := board[row][7].value;
          if piece.pieceType == Rook && !piece.hasMoved {
            if piece.position.col == 0 {
              return Panic;
            }
            var end := piece.position.col - 1;
            var start := king.position.col + 1;
            var empty := ScanEmpty(row, start, end);
            if empty.Panic? {
              return Panic;
            }
            if empty.value {
              chessMoves := chessMoves + [Castle(king.position, piece.position)];
            }
          }
        }
      }
      r := Ok([]);
    }

    /** One diagonal step of the pawn loop `for &offset in [-1, 1]`. */
    method PawnCaptureMoves(piece: Piece, checking: bool, offset: int) returns (r: Result<seq<ChessMove>>)
      requires IsGrid(board)
      ensures r == PawnCapture(State(), piece, checking, offset)
    {
      var row := piece.position.row + Forward(piece.color);
      var col := piece.position.col + offset;
      if !InBounds(row, col) {
        return Ok([]);
      }
      var capturePos := Position(row, col);
      if board[row][col].Some? {
        var target := board[row][col].value;
        r := Ok([]);
        if target.color != piece.color {
          if checking {
            if target.pieceType == King {
              r := Ok([OrdinaryMove(piece.position, capturePos)]);
            }
          } else if target.pieceType != King {
            r := Ok(Advance(piece, capturePos));
          }
        }
      } else {
        if piece.position.row >= 8 {
          return Panic;
        }
        r := Ok([]);
        if board[piece.position.row][col].Some? {
          var target := board[piece.position.row][col].value;
          if EnPassant(State(), piece, target) {
            r := Ok([OrdinaryMove(piece.position, capturePos)]);
          }
        }
      }
    }

    /** The Pawn arm of `get_other_moves`: the pushes (normal mode only),
        then the loop `for &offset in [-1, 1]` over the two diagonals. */
    method GetPawnMoves(piece: Piece, checking: bool) returns (r: Result<seq<ChessMove>>)
      requires IsGrid(board)
      ensures r == PawnMoves(State(), piece, checking)
    {
      var chessMoves: seq<ChessMove> := [];
      if !checking {
        var oneRow := piece.position.row + Forward(piece.color);
        if InBounds(oneRow, piece.position.col) && board[oneRow][piece.position.col].None? {
          chessMoves := Advance(piece, Position(oneRow, piece.position.col));
          if !piece.hasMoved {
            var twoRow := piece.position.row + 2 * Forward(piece.color);
            if !InBounds(twoRow, piece.position.col) {
              return Panic;
            }
            if board[twoRow][piece.position.col].None? {
              chessMoves := chessMoves + [OrdinaryMove(piece.position, Position(twoRow, piece.position.col))];
            }
          }
        }
      }
      assert Ok(chessMoves) == (if checking then Ok([]) else PawnPushes(board, piece));
      var left := PawnCaptureMoves(piece, checking, -1);
      if left.Panic? {
        return Panic;
      }
      var right := PawnCaptureMoves(piece, checking, 1);
      if right.Panic? {
        return Panic;
      }
      r := Ok(chessMoves + left.value + right.value);
    }

    /** The `loop` of `get_other_moves` along direction (dx, dy) from the
        piece's square. */
    method WalkRay(piece: Piece, checking: bool, dx: int, dy: int) returns (moves: seq<ChessMove>)
      requires IsGrid(board) && (dx, dy) != (0, 0)
      ensures moves == Ray(board, piece, checking, dx, dy, piece.position.row, piece.position.col)
    {
      var g := board;
      moves := [];
      var x: int := piece.position.row;
      var y: int := piece.position.col;
      while true
        invariant Ray(g, piece, checking, dx, dy, piece.position.row, piece.position.col) ==
          moves + Ray(g, piece, checking, dx, dy, x, y)
        decreases Room(x, dx) + Room(y, dy)
      {
        if !InBounds(x + dx, y + dy) {
          break;
        }
        RayStep(g, piece, checking, dx, dy, x, y);
        var position := Position(x + dx, y + dy);
        if g[x + dx][y + dy].Some? {
          var result := g[x + dx][y + dy].value;
          if result.color != piece.color && (result.pieceType == King) == checking {
            moves := moves + [OrdinaryMove(piece.position, position)];
          }
          break;
        }
        ghost var prefix := moves;
        ghost var rest := Ray(g, piece, checking, dx, dy, x + dx, y + dy);
        ghost var step := if checking then [] else [OrdinaryMove(piece.position, position)];
        if !checking {
          moves := moves + [OrdinaryMove(piece.position, position)];
        }
        assert moves == prefix + step;
        x := x + dx;
        y := y + dy;
        if SingleStep(piece.pieceType) {
          assert moves == prefix + step + [];
          break;
        }
        AppendAssoc(prefix, step, rest);
      }
    }

    /** The `for (dx, dy) in directions.iter()` loop of `get_other_moves`. */
    method WalkDirections(piece: Piece, checking: bool, directions: seq<(int, int)>) returns (moves: seq<ChessMove>)
      requires IsGrid(board) && forall i :: 0 <= i < |directions| ==> directions[i] != (0, 0)
      ensures moves == DirMoves(board, piece, checking, directions)
    {
      moves := [];
      assert directions[0..] == directions;
      for i := 0 to |directions|
        invariant DirMoves(board, piece, checking, directions) == moves + DirMoves(board, piece, checking, directions[i..])
      {
        assert directions[i..][1..] == directions[i + 1..];
        var ray := WalkRay(piece, checking, directions[i].0, directions[i].1);
        moves := moves + ray;
      }
      assert directions[|directions|..] == [] && moves + [] == moves;
    }

    /** `get_other_moves`: the Pawn arm, or a walk along each direction of
        the piece's kind. */
    method GetOtherMoves(piece: Piece, checking: bool) returns (r: Result<seq<ChessMove>>)
      requires IsGrid(board)
      ensures r == OtherMoves(State(), piece, checking)
    {
      if piece.pieceType == Pawn {
        r := GetPawnMoves(piece, checking);
      } else {
        var moves := WalkDirections(piece, checking, Directions(piece.pieceType));
        r := Ok(moves);
      }
    }

    // -------------------------------------------------------------------
    // Check, legality and game status
    // -------------------------------------------------------------------

    /** `is_king_in_check`: the loops over the enemy pieces and their
        attack-mode moves, returning true at the first ordinary move of a
        non-King piece onto the king's square. */
    method IsKingInCheck() returns (r: Result<bool>)
      requires IsGrid(board)
      ensures r == InCheck(State())
    {
      var opposite := GetEnnemyPieces();
      if opposite.Panic? {
        return Panic;
      }
      var king := GetKing();
      if king.Panic? {
        return Panic;
      }
      var ps := opposite.value;
      var t := king.value.position;
      ghost var b := State();
      assert ps[0..] == ps;
      for i := 0 to |ps|
        invariant Attacks(b, ps, t) == Attacks(b, ps[i..], t)
      {
        assert ps[i..][0] == ps[i] && ps[i..][1..] == ps[i + 1..];
        var moves := GetOtherMoves(ps[i], true);
        if moves.Panic? {
          return Panic;
        }
        var hit := Hits(ps[i], moves.value, t);
        if hit {
          return Ok(true);
        }
      }
      r := Ok(false);
    }

    /** The inner loop of `is_king_in_check`: whether a non-King piece has an
        ordinary move onto the king's square. */
    static method Hits(piece: Piece, moves: seq<ChessMove>, t: Position) returns (hit: bool)
      ensures hit == (piece.pieceType != King && HitsSquare(moves, t))
    {
      for j := 0 to |moves|
        invariant forall k :: 0 <= k < j ==>
          !(piece.pieceType != King && moves[k].OrdinaryMove? && moves[k].to == t)
      {
        var m := moves[j];
        if piece.pieceType != King && m.OrdinaryMove? && m.to == t {
          assert HitsSquare(moves, t);
          return true;
        }
      }
      hit := false;
    }

    /** A move simulated on a clone: `make_a_move`, then `change_turn` so
        that the mover's king is the one examined by `is_king_in_check`. */
    method SimulateSafe(m: ChessMove) returns (r: Result<bool>)
      requires IsGrid(board)
      ensures r == LeavesKingSafe(State(), m)
    {
      var clone := new ChessBoard.Clone(this);
      var made := clone.MakeAMove(m);
      if made.Panic? {
        return Panic;
      }
      clone.ChangeTurn();
      var check := clone.IsKingInCheck();
      if check.Panic? {
        return Panic;
      }
      r := Ok(!check.value);
    }

    /** The filtering loops of the King arm of `get_all_moves`. */
    method KeepSafeMoves(ms: seq<ChessMove>) returns (r: Result<seq<ChessMove>>)
      requires IsGrid(board)
      ensures r == KeepSafe(State(), ms)
    {
      var kept: seq<ChessMove> := [];
      assert ms[0..] == ms;
      PrependEmpty(KeepSafe(State(), ms));
      for i := 0 to |ms|
        invariant KeepSafe(State(), ms) == Prepend(kept, KeepSafe(State(), ms[i..]))
      {
        assert ms[i..][0] == ms[i] && ms[i..][1..] == ms[i + 1..];
        var safe := SimulateSafe(ms[i]);
        if safe.Panic? {
          return Panic;
        }
        var step := if safe.value then [ms[i]] else [];
        PrependTwice(kept, step, KeepSafe(State(), ms[i + 1..]));
        kept := kept + step;
      }
      assert ms[|ms|..] == [] && kept + [] == kept;
      r := Ok(kept);
    }

    /** The inner loop of `find_safe_moves`: ordinary moves are simulated
        and kept when safe, every other move is skipped. */
    method KeepSafeOrdinaryMoves(ms: seq<ChessMove>) returns (r: Result<seq<ChessMove>>)
      requires IsGrid(board)
      ensures r == KeepSafeOrdinary(State(), ms)
    {
      var kept: seq<ChessMove> := [];
      assert ms[0..] == ms;
      PrependEmpty(KeepSafeOrdinary(State(), ms));
      for i := 0 to |ms|
        invariant KeepSafeOrdinary(State(), ms) == Prepend(kept, KeepSafeOrdinary(State(), ms[i..]))
      {
        assert ms[i..][0] == ms[i] && ms[i..][1..] == ms[i + 1..];
        if !ms[i].OrdinaryMove? {
          continue;
        }
        var safe := SimulateSafe(ms[i]);
        if safe.Panic? {
          return Panic;
        }
        var step := if safe.value then [ms[i]] else [];
        PrependTwice(kept, step, KeepSafeOrdinary(State(), ms[i + 1..]));
        kept := kept + step;
      }
      assert ms[|ms|..] == [] && kept + [] == kept;
      r := Ok(kept);
    }

    /** `get_all_moves`. */
    method GetAllMoves() returns (r: Result<seq<ChessMove>>)
      requires IsGrid(board)
      ensures r == AllMoves(State())
    {
      var pieces := GetFriendlyPieces();
      if pieces.Panic? {
        return Panic;
      }
      var ps := pieces.value;
      var chessMoves: seq<ChessMove> := [];
      assert ps[0..] == ps;
      PrependEmpty(AllMovesOf(State(), ps));
      for i := 0 to |ps|
        invariant AllMovesOf(State(), ps) == Prepend(chessMoves, AllMovesOf(State(), ps[i..]))
      {
        assert ps[i..][0] == ps[i] && ps[i..][1..] == ps[i + 1..];
        var piece := ps[i];
        var moves := GetOtherMoves(piece, false);
        if moves.Panic? {
          return Panic;
        }
        var share := moves.value;
        if piece.pieceType == King {
          var kept := KeepSafeMoves(moves.value);
          if kept.Panic? {
            return Panic;
          }
          var castles := GetCastleMoves(piece);
          if castles.Panic? {
            return Panic;
          }
          var keptCastles := KeepSafeMoves(castles.value);
          if keptCastles.Panic? {
            return Panic;
          }
          share := kept.value + keptCastles.value;
        }
        assert PieceMoves(State(), piece) == Ok(share);
        PrependTwice(chessMoves, share, AllMovesOf(State(), ps[i + 1..]));
        chessMoves := chessMoves + share;
      }
      assert ps[|ps|..] == [] && chessMoves + [] == chessMoves;
      r := Ok(chessMoves);
    }

    /** `find_safe_moves`. */
    method FindSafeMoves() returns (r: Result<seq<ChessMove>>)
      requires IsGrid(board)
      ensures r == SafeMoves(State())
    {
      var friendly := GetFriendlyPieces();
      if friendly.Panic? {
        return Panic;
      }
      var ps := friendly.value;
      var safeMoves: seq<ChessMove> := [];
      assert ps[0..] == ps;
      PrependEmpty(SafeMovesOf(State(), ps));
      for i := 0 to |ps|
        invariant SafeMovesOf(State(), ps) == Prepend(safeMoves, SafeMovesOf(State(), ps[i..]))
      {
        assert ps[i..][0] == ps[i] && ps[i..][1..] == ps[i + 1..];
        var moves := GetOtherMoves(ps[i], false);
        if moves.Panic? {
          return Panic;
        }
        var kept := KeepSafeOrdinaryMoves(moves.value);
        if kept.Panic? {
          return Panic;
        }
        PrependTwice(safeMoves, kept.value, SafeMovesOf(State(), ps[i + 1..]));
        safeMoves := safeMoves + kept.value;
      }
      assert ps[|ps|..] == [] && safeMoves + [] == safeMoves;
      r := Ok(safeMoves);
    }

    /** `get_party_moves`. */
    method GetPartyMoves() returns (r: Result<seq<ChessMove>>)
      requires IsGrid(board)
      ensures r == PartyMoves(State())
    {
      var check := IsKingInCheck();
      if check.Panic? {
        return Panic;
      }
      if check.value {
        r := FindSafeMoves();
      } else {
        r := GetAllMoves();
      }
    }

    /** `_update_party`: the party state becomes CheckMate or Check when the
        side to move is in check, Pat when it is not and has no move. */
    method UpdateParty() returns (r: Result<seq<ChessMove>>)
      requires IsGrid(board)
      modifies this
      ensures r.Ok? <==> MoveRules.UpdateParty(old(State())).Ok?
      ensures r.Ok? ==> (State(), r.value) == MoveRules.UpdateParty(old(State())).value
    {
      var check := IsKingInCheck();
      if check.Panic? {
        return Panic;
      }
      if check.value {
        var safeMoves := FindSafeMoves();
        if safeMoves.Panic? {
          return Panic;
        }
        if |safeMoves.value| == 0 {
          ChangePartyState(CheckMate);
        } else {
          ChangePartyState(Check);
        }
        r := safeMoves;
      } else {
        var moves := GetAllMoves();
        if moves.Panic? {
          return Panic;
        }
        if |moves.value| == 0 {
          ChangePartyState(Pat);
        }
        r := moves;
      }
    }

    /** `update_board`: `make_a_move`, then `_update_party`. */
    method UpdateBoard(m: ChessMove) returns (r: Result<seq<ChessMove>>)
      requires IsGrid(board)
      modifies this
      ensures r.Ok? <==> MoveRules.UpdateBoard(old(State()), m).Ok?
      ensures r.Ok? ==> (State(), r.value) == MoveRules.UpdateBoard(old(State()), m).value
    {
      var made := MakeAMove(m);
      if made.Panic? {
        return Panic;
      }
      r := UpdateParty();
    }
  }
}
