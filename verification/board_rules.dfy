/** `make_a_move` and its helpers `add_piece_position` / `remove_piece_position`
    (src/chess_board.rs:163-283) as functions on the board value, step by step
    in the order the source performs them, with the properties the engine
    relies on: what each move does to the grid, the lists, the turn and the
    last move, when it panics, and that it keeps the board invariant. */
module BoardRules {
  import opened Wrappers
  import opened Pieces

  /** `iter().position(|&p| p == target)`: the first index holding `p`, or -1. */
  function IndexOf(list: seq<Position>, p: Position): (i: int)
    ensures -1 <= i < |list|
    ensures i == -1 <==> p !in list
    ensures i >= 0 ==> list[i] == p && forall k :: 0 <= k < i ==> list[k] != p
  {
    if list == [] then -1
    else if list[0] == p then 0
    else
      var j := IndexOf(list[1..], p);
      if j == -1 then -1
      else j + 1
  }

  /** Removing the first occurrence of `p` from a position list; a missing
      position is the "cannot found piece position" panic. */
  function RemoveFrom(list: seq<Position>, p: Position): (r: Result<seq<Position>>)
    ensures r.Panic? <==> p !in list
    ensures r.Ok? ==> |r.value| == |list| - 1
  {
    var i := IndexOf(list, p);
    if i < 0 then Panic else Ok(list[..i] + list[i + 1..])
  }

  /** Cutting index `i` out of a list without repeats leaves a list without
      repeats holding every other element. */
  lemma CutDistinct(list: seq<Position>, i: nat)
    requires NoDup(list) && i < |list|
    ensures NoDup(list[..i] + list[i + 1..])
    ensures forall q :: q in list[..i] + list[i + 1..] <==> q in list && q != list[i]
  {
    var r := list[..i] + list[i + 1..];
    forall a, b' | 0 <= a < b' < |r| ensures r[a] != r[b'] {
      var a0 := if a < i then a else a + 1;
      var b0 := if b' < i then b' else b' + 1;
      assert r[a] == list[a0] && r[b'] == list[b0];
    }
    forall q ensures q in r <==> q in list && q != list[i] {
      if q in r {
        var k :| 0 <= k < |r| && r[k] == q;
        var k0 := if k < i then k else k + 1;
        assert list[k0] == q && k0 != i;
      }
      if q in list && q != list[i] {
        var k :| 0 <= k < |list| && list[k] == q;
        if k < i { assert r[k] == q; } else { assert r[k - 1] == q; }
      }
    }
  }

  lemma RemoveFromDistinct(list: seq<Position>, p: Position)
    requires NoDup(list) && p in list
    ensures RemoveFrom(list, p).Ok?
    ensures NoDup(RemoveFrom(list, p).value)
    ensures forall q :: q in RemoveFrom(list, p).value <==> q in list && q != p
  {
    var i := IndexOf(list, p);
    CutDistinct(list, i);
  }

  /** `remove_piece_position`: drops the piece's recorded position from its
      side's list; a piece without colour changes nothing. Only the lists change. */
  function RemovePiece(b: Board, piece: Piece): (r: Result<Board>)
    ensures r.Ok? ==> (r.value.grid == b.grid && r.value.turn == b.turn
                       && r.value.lastMove == b.lastMove && r.value.partyState == b.partyState)
    ensures piece.color == White ==> (r.Panic? <==> piece.position !in b.whitePositions)
    ensures piece.color == Black ==> (r.Panic? <==> piece.position !in b.blackPositions)
    ensures piece.color == NoColor ==> r == Ok(b)
  {
    match piece.color
    case Black =>
      var l :- RemoveFrom(b.blackPositions, piece.position);
      Ok(b.(blackPositions := l))
    case White =>
      var l :- RemoveFrom(b.whitePositions, piece.position);
      Ok(b.(whitePositions := l))
    case NoColor => Ok(b)
  }

  /** `add_piece_position`: appends the piece's position to its side's list. */
  function AddPiece(b: Board, piece: Piece): (r: Board)
    ensures r.grid == b.grid && r.turn == b.turn && r.lastMove == b.lastMove && r.partyState == b.partyState
    ensures r.whitePositions == if piece.color == White then b.whitePositions + [piece.position] else b.whitePositions
    ensures r.blackPositions == if piece.color == Black then b.blackPositions + [piece.position] else b.blackPositions
  {
    match piece.color
    case Black => b.(blackPositions := b.blackPositions + [piece.position])
    case White => b.(whitePositions := b.whitePositions + [piece.position])
    case NoColor => b
  }

  function Write(b: Board, r: nat, c: nat, x: Option<Piece>): Board
    requires IsGrid(b.grid) && InBounds(r, c)
  {
    b.(grid := SetSquare(b.grid, r, c, x))
  }

  /** The body shared by the OrdinaryMove and Promotion arms of `make_a_move`
      (`promote` is `Some(kind)` for a promotion): an off-board square is an
      index panic, an empty source square is "piece not found", a captured
      piece leaves its owner's list, the mover is marked as moved and
      re-listed at `to`, then `to` receives it and `from` is emptied. */
  function MovePiece(b: Board, from: Position, to: Position, promote: Option<PieceType>): Result<Board>
    requires IsGrid(b.grid)
  {
    if !OnBoard(from) then Panic
    else match b.grid[from.row][from.col]
      case None => Panic
      case Some(piece) =>
        if !OnBoard(to) then Panic
        else
          var b1 :- match b.grid[to.row][to.col]
                    case Some(attacked) => RemovePiece(b, attacked)
                    case None => Ok(b);
          var moved := piece.(hasMoved := true);
          var b2 :- RemovePiece(b1, moved);
          var placed := moved.(position := to,
                               pieceType := if promote.Some? then promote.value else moved.pieceType);
          var b3 := AddPiece(b2, placed);
          Ok(Write(Write(b3, to.row, to.col, Some(placed)), from.row, from.col, None))
  }

  /** The columns the Castle arm sends the rook and the king to: a rook in
      column 7 goes to column 5 and the king two columns right; any other rook
      goes three columns right and the king two columns left. */
  function CastleTargets(king: Position, rook: Position): (int, int) {
    if rook.col == 7 then (5, king.col + 2) else (rook.col + 3, king.col - 2)
  }

  /** The Castle arm of `make_a_move`: both pieces are marked as moved and
      the rook is moved first; a king in column 0 or 1 beside a rook outside
      column 7 underflows, a target column of 8 or more is an index panic. */
  function CastlePieces(b: Board, king: Position, rook: Position): Result<Board>
    requires IsGrid(b.grid)
  {
    if !OnBoard(king) then Panic
    else match b.grid[king.row][king.col]
      case None => Panic
      case Some(kingPiece) =>
        if !OnBoard(rook) then Panic
        else match b.grid[rook.row][rook.col]
          case None => Panic
          case Some(rookPiece) =>
            if rook.col != 7 && king.col < 2 then Panic
            else
              var b3 :- CastleStep(b, rookPiece.(hasMoved := true), rook, CastleTargets(king, rook).0);
              CastleStep(b3, kingPiece.(hasMoved := true), king, CastleTargets(king, rook).1)
  }

  /** One half of a castle: the piece leaves its list, is re-listed with its
      recorded column changed to `newCol`, and is moved within the row of
      `sq` from `sq` to column `newCol` (a column of 8 or more is an index
      panic, raised after the list update). */
  function CastleStep(b: Board, piece: Piece, sq: Position, newCol: nat): Result<Board>
    requires IsGrid(b.grid) && OnBoard(sq)
  {
    var b1 :- RemovePiece(b, piece);
    var moved := piece.(position := piece.position.(col := newCol));
    var b2 := AddPiece(b1, moved);
    if newCol >= 8 then Panic
    else Ok(Write(Write(b2, sq.row, newCol, Some(moved)), sq.row, sq.col, None))
  }

  /** `make_a_move`: applies one move, then records it and flips the turn. */
  function ApplyMove(b: Board, m: ChessMove): (r: Result<Board>)
    requires IsGrid(b.grid)
    ensures r.Ok? ==> IsGrid(r.value.grid)
    ensures r.Ok? ==> (r.value.lastMove == Some(m) && r.value.turn == NextTurn(b.turn)
                       && r.value.partyState == b.partyState)
  {
    var b1 :- match m
              case OrdinaryMove(from, to) => MovePiece(b, from, to, None)
              case Promotion(from, to, kind) => MovePiece(b, from, to, Some(kind))
              case Castle(king, rook) => CastlePieces(b, king, rook);
    Ok(b1.(lastMove := Some(m), turn := NextTurn(b1.turn)))
  }

  // ---------------------------------------------------------------------
  // The board invariant across the two kinds of grid mutation make_a_move
  // performs: taking a captured piece off, and relocating a piece.
  // ---------------------------------------------------------------------

  /** Taking a piece off its square and out of its owner's list keeps the
      invariant (the first step of a capture). */
  lemma RemoveCapturedValid(b: Board, t: Position)
    requires Valid(b) && OnBoard(t) && b.grid[t.row][t.col].Some?
    ensures RemovePiece(b, b.grid[t.row][t.col].value).Ok?
    ensures Valid(Write(RemovePiece(b, b.grid[t.row][t.col].value).value, t.row, t.col, None))
  {
    var a := b.grid[t.row][t.col].value;
    assert Holds(b.grid, t, a.color);
    var b1 := RemovePiece(b, a);
    if a.color == White {
      RemoveFromDistinct(b.whitePositions, t);
    } else {
      RemoveFromDistinct(b.blackPositions, t);
    }
    var b2 := Write(b1.value, t.row, t.col, None);
    forall p ensures Holds(b2.grid, p, White) <==> Holds(b.grid, p, White) && p != t {
    }
    forall p ensures Holds(b2.grid, p, Black) <==> Holds(b.grid, p, Black) && p != t {
    }
  }

  /** Moving a piece from `s` to the empty square `t`, with the list updates
      make_a_move performs (remove the old position, append the new one),
      keeps the invariant. `mover` is the piece as removed and `placed` the
      piece as written (moved flag, new position, possibly new kind). */
  lemma RelocateValid(b: Board, s: Position, t: Position, mover: Piece, placed: Piece)
    requires Valid(b) && OnBoard(s) && OnBoard(t) && s != t
    requires b.grid[s.row][s.col].Some? && b.grid[t.row][t.col].None?
    requires mover.color == b.grid[s.row][s.col].value.color && mover.position == s
    requires placed.color == mover.color && placed.position == t && placed.pieceType != NoPiece
    ensures RemovePiece(b, mover).Ok?
    ensures Valid(Write(Write(AddPiece(RemovePiece(b, mover).value, placed), t.row, t.col, Some(placed)),
                        s.row, s.col, None))
  {
    var g := b.grid;
    assert Holds(g, s, mover.color);
    var other := if mover.color == White then Black else White;
    if mover.color == White {
      RemoveFromDistinct(b.whitePositions, s);
    } else {
      RemoveFromDistinct(b.blackPositions, s);
    }
    var b1 := RemovePiece(b, mover).value;
    var b3 := Write(Write(AddPiece(b1, placed), t.row, t.col, Some(placed)), s.row, s.col, None);
    var g3 := b3.grid;
    MoveSquares(g, s, t, Some(placed));
    assert g3 == SetSquare(SetSquare(g, t.row, t.col, Some(placed)), s.row, s.col, None);
    forall p ensures Holds(g3, p, mover.color) <==> (Holds(g, p, mover.color) && p != s) || p == t {
      if OnBoard(p) && p != s && p != t {
        assert g3[p.row][p.col] == g[p.row][p.col];
      }
    }
    forall p ensures Holds(g3, p, other) <==> Holds(g, p, other) {
      if OnBoard(p) && p != s && p != t {
        assert g3[p.row][p.col] == g[p.row][p.col];
      }
    }
    forall r, c | 0 <= r < 8 && 0 <= c < 8 && g3[r][c].Some?
      ensures !BadPiece(g3[r][c].value) && g3[r][c].value.position == Position(r, c)
    {
      if Position(r, c) != t {
        assert g3[r][c] == g[r][c];
      }
    }
    if mover.color == White {
      SnocDistinct(b1.whitePositions, t);
      assert b3.whitePositions == b1.whitePositions + [t];
      assert b3.blackPositions == b.blackPositions;
    } else {
      SnocDistinct(b1.blackPositions, t);
      assert b3.blackPositions == b1.blackPositions + [t];
      assert b3.whitePositions == b.whitePositions;
    }
  }

  /** The squares after a piece moves from `s` to `t`: `t` holds `x`, `s`
      is empty, the rest are untouched. */
  lemma MoveSquares(g: Grid, s: Position, t: Position, x: Option<Piece>)
    requires IsGrid(g) && OnBoard(s) && OnBoard(t) && s != t
    ensures var g2 := SetSquare(SetSquare(g, t.row, t.col, x), s.row, s.col, None);
      && IsGrid(g2) && g2[t.row][t.col] == x && g2[s.row][s.col] == None
      && forall r, c :: 0 <= r < 8 && 0 <= c < 8 && Position(r, c) != s && Position(r, c) != t ==>
           g2[r][c] == g[r][c]
  {
  }

  /** Appending an element a list lacks keeps it free of repeats. */
  lemma SnocDistinct(list: seq<Position>, t: Position)
    requires NoDup(list) && t !in list
    ensures NoDup(list + [t])
  {
    var l := list + [t];
    forall i, j | 0 <= i < j < |l| ensures l[i] != l[j] {
      if j == |list| {
        assert l[i] == list[i];
      }
    }
  }

  /** The move an OrdinaryMove (`promote == None`) or a Promotion stands for. */
  function Relocation(from: Position, to: Position, promote: Option<PieceType>): ChessMove {
    if promote.None? then OrdinaryMove(from, to) else Promotion(from, to, promote.value)
  }

  /** The board MovePiece builds once both list removals have succeeded. */
  function Relocated(b1: Board, moved: Piece, placed: Piece, from: Position, to: Position): Result<Board>
    requires IsGrid(b1.grid) && OnBoard(from) && OnBoard(to)
  {
    var b2 :- RemovePiece(b1, moved);
    Ok(Write(Write(AddPiece(b2, placed), to.row, to.col, Some(placed)), from.row, from.col, None))
  }

  /** MovePiece on a valid board, with the capture step taken off the grid
      first: the same board as removing the captured piece and then moving
      onto the emptied square. */
  lemma MovePieceSplit(b: Board, from: Position, to: Position, promote: Option<PieceType>)
    requires Valid(b) && OnBoard(from) && OnBoard(to) && from != to
    requires b.grid[from.row][from.col].Some?
    ensures var piece := b.grid[from.row][from.col].value;
      var moved := piece.(hasMoved := true);
      var placed := moved.(position := to, pieceType := if promote.Some? then promote.value else moved.pieceType);
      var base := if b.grid[to.row][to.col].Some?
                  then Write(RemovePiece(b, b.grid[to.row][to.col].value).value, to.row, to.col, None)
                  else b;
      && (b.grid[to.row][to.col].Some? ==> RemovePiece(b, b.grid[to.row][to.col].value).Ok?)
      && Valid(base) && base.grid[to.row][to.col].None?
      && MovePiece(b, from, to, promote) == Relocated(base, moved, placed, from, to)
  {
    var piece := b.grid[from.row][from.col].value;
    var moved := piece.(hasMoved := true);
    var placed := moved.(position := to, pieceType := if promote.Some? then promote.value else moved.pieceType);
    if b.grid[to.row][to.col].Some? {
      RemoveCapturedValid(b, to);
      var b1 := RemovePiece(b, b.grid[to.row][to.col].value).value;
      var base := Write(b1, to.row, to.col, None);
      assert MovePiece(b, from, to, promote) == Relocated(b1, moved, placed, from, to);
      if RemovePiece(b1, moved).Ok? {
        var b2 := RemovePiece(b1, moved).value;
        assert RemovePiece(base, moved).value == b2.(grid := base.grid);
        GridExtensionality(SetSquare(base.grid, to.row, to.col, Some(placed)),
                           SetSquare(b1.grid, to.row, to.col, Some(placed)));
      }
    }
  }

  /** An Ordinary or Promotion move of the piece on `from` to another square
      succeeds on a valid board, keeps the invariant, leaves the moving piece
      on `to` with `position = to`, `has_moved = true` and, for a promotion, the
      new kind, empties `from` and changes no other square. A captured piece
      disappears from the grid and, by the invariant, from its owner's list. */
  lemma MoveEffect(b: Board, from: Position, to: Position, promote: Option<PieceType>)
    requires Valid(b) && OnBoard(from) && OnBoard(to) && from != to
    requires b.grid[from.row][from.col].Some?
    requires promote.Some? ==> promote.value != NoPiece
    ensures var r := ApplyMove(b, Relocation(from, to, promote));
      var piece := b.grid[from.row][from.col].value;
      && r.Ok? && Valid(r.value)
      && r.value.grid[to.row][to.col] == Some(piece.(position := to, hasMoved := true,
           pieceType := if promote.Some? then promote.value else piece.pieceType))
      && r.value.grid[from.row][from.col] == None
      && (forall i, j :: 0 <= i < 8 && 0 <= j < 8 && Position(i, j) != from && Position(i, j) != to ==>
            r.value.grid[i][j] == b.grid[i][j])
  {
    var piece := b.grid[from.row][from.col].value;
    var moved := piece.(hasMoved := true);
    var placed := moved.(position := to, pieceType := if promote.Some? then promote.value else moved.pieceType);
    MovePieceSplit(b, from, to, promote);
    var base := if b.grid[to.row][to.col].Some?
                then Write(RemovePiece(b, b.grid[to.row][to.col].value).value, to.row, to.col, None)
                else b;
    RelocateValid(base, from, to, moved, placed);
    var r := MovePiece(b, from, to, promote);
    assert r.Ok? && Valid(r.value);
    assert Valid(r.value.(lastMove := Some(Relocation(from, to, promote)), turn := NextTurn(r.value.turn)));
  }

  /** An Ordinary or Promotion move from an empty square panics ("piece not found"). */
  lemma EmptySourcePanics(b: Board, from: Position, to: Position, promote: Option<PieceType>)
    requires IsGrid(b.grid) && OnBoard(from) && b.grid[from.row][from.col].None?
    ensures ApplyMove(b, Relocation(from, to, promote)) == Panic
  {
  }

  /** A castle whose king or rook square is off the board or empty panics
      (an index panic, or "King not found" / "Rook not found"). */
  lemma CastleMissingPanics(b: Board, king: Position, rook: Position)
    requires IsGrid(b.grid)
    requires || !OnBoard(king) || b.grid[king.row][king.col].None?
             || !OnBoard(rook) || b.grid[rook.row][rook.col].None?
    ensures ApplyMove(b, Castle(king, rook)) == Panic
  {
  }

  /** On a valid board, a move from a square to itself panics: the piece is
      first removed from its list as the "captured" occupant of `to`, so the
      second removal, as the mover, finds nothing. */
  lemma SameSquarePanics(b: Board, from: Position, promote: Option<PieceType>)
    requires Valid(b) && OnBoard(from) && b.grid[from.row][from.col].Some?
    ensures ApplyMove(b, Relocation(from, from, promote)) == Panic
  {
    var piece := b.grid[from.row][from.col].value;
    assert Holds(b.grid, from, piece.color);
    if piece.color == White {
      RemoveFromDistinct(b.whitePositions, from);
    } else {
      RemoveFromDistinct(b.blackPositions, from);
    }
    var b1 := RemovePiece(b, piece).value;
    assert RemovePiece(b1, piece.(hasMoved := true)) == Panic;
  }

  /** On a valid board, with the rook's target on the board, CastlePieces is
      two relocations: the rook to its target, then the king to its own. */
  lemma CastleSplit(b: Board, king: Position, rook: Position)
    requires Valid(b) && OnBoard(king) && OnBoard(rook)
    requires b.grid[king.row][king.col].Some? && b.grid[rook.row][rook.col].Some?
    requires rook.col == 7 || king.col >= 2
    requires var (nr, nk) := CastleTargets(king, rook); InBounds(rook.row, nr) && InBounds(king.row, nk)
    ensures var (nr, nk) := CastleTargets(king, rook);
      var rk := b.grid[rook.row][rook.col].value.(hasMoved := true);
      var k := b.grid[king.row][king.col].value.(hasMoved := true);
      var first := Relocated(b, rk, rk.(position := Position(rook.row, nr)), rook, Position(rook.row, nr));
      first.Ok? ==>
        CastlePieces(b, king, rook) == Relocated(first.value, k, k.(position := Position(king.row, nk)), king, Position(king.row, nk))
  {
  }

  /** The squares after two relocations on a grid: `x` from `s1` to `t1`,
      then `y` from `s2` to `t2`. */
  lemma TwoRelocations(g: Grid, s1: Position, t1: Position, x: Option<Piece>,
                       s2: Position, t2: Position, y: Option<Piece>)
    requires IsGrid(g) && OnBoard(s1) && OnBoard(t1) && OnBoard(s2) && OnBoard(t2)
    requires s1 != t1 && s2 != t2 && s1 != s2 && s2 != t1 && t1 != t2 && s1 != t2
    ensures var g1 := SetSquare(SetSquare(g, t1.row, t1.col, x), s1.row, s1.col, None);
      var g2 := SetSquare(SetSquare(g1, t2.row, t2.col, y), s2.row, s2.col, None);
      && g2[t1.row][t1.col] == x && g2[t2.row][t2.col] == y
      && g2[s1.row][s1.col] == None && g2[s2.row][s2.col] == None
      && (forall i, j :: (0 <= i < 8 && 0 <= j < 8 && Position(i, j) != s1 && Position(i, j) != s2
            && Position(i, j) != t1 && Position(i, j) != t2) ==> g2[i][j] == g[i][j])
  {
    var g1 := SetSquare(SetSquare(g, t1.row, t1.col, x), s1.row, s1.col, None);
    var g2 := SetSquare(SetSquare(g1, t2.row, t2.col, y), s2.row, s2.col, None);
    assert g1[t1.row][t1.col] == x && g1[s1.row][s1.col] == None;
    assert g2[t1.row][t1.col] == g1[t1.row][t1.col];
    assert g2[s1.row][s1.col] == g1[s1.row][s1.col];
  }

  /** The castle preconditions under which CastlePieces succeeds cleanly: two
      distinct occupied squares whose targets are on the board, empty and
      distinct. */
  predicate CleanCastle(b: Board, king: Position, rook: Position)
    requires IsGrid(b.grid)
  {
    var (nr, nk) := CastleTargets(king, rook);
    && OnBoard(king) && OnBoard(rook) && king != rook
    && b.grid[king.row][king.col].Some? && b.grid[rook.row][rook.col].Some?
    && (rook.col == 7 || king.col >= 2)
    && InBounds(rook.row, nr) && InBounds(king.row, nk) && (rook.row, nr) != (king.row, nk)
    && b.grid[rook.row][nr].None? && b.grid[king.row][nk].None?
  }

  /** A clean castle on a valid board is the composition of the two
      relocations and keeps the invariant. */
  lemma CastleValid(b: Board, king: Position, rook: Position)
    requires Valid(b) && CleanCastle(b, king, rook)
    ensures var (nr, nk) := CastleTargets(king, rook);
      var rk := b.grid[rook.row][rook.col].value.(hasMoved := true);
      var k := b.grid[king.row][king.col].value.(hasMoved := true);
      var first := Relocated(b, rk, rk.(position := Position(rook.row, nr)), rook, Position(rook.row, nr));
      var c := CastlePieces(b, king, rook);
      && first.Ok? && c.Ok? && Valid(c.value)
      && c == Relocated(first.value, k, k.(position := Position(king.row, nk)), king, Position(king.row, nk))
  {
    var (nr, nk) := CastleTargets(king, rook);
    var kp := b.grid[king.row][king.col].value;
    var rk := b.grid[rook.row][rook.col].value.(hasMoved := true);
    var rk2 := rk.(position := Position(rook.row, nr));
    RelocateValid(b, rook, Position(rook.row, nr), rk, rk2);
    var b3 := Relocated(b, rk, rk2, rook, Position(rook.row, nr)).value;
    var k := kp.(hasMoved := true);
    assert b3.grid[king.row][king.col] == Some(kp);
    RelocateValid(b3, king, Position(king.row, nk), k, k.(position := Position(king.row, nk)));
    CastleSplit(b, king, rook);
  }

  /** A clean castle succeeds on a valid board and keeps the invariant: rook
      and king stand on their target squares, in their own rows, marked as
      moved; their old squares are empty and no other square changes. */
  lemma CastleEffect(b: Board, king: Position, rook: Position)
    requires Valid(b) && CleanCastle(b, king, rook)
    ensures var r := ApplyMove(b, Castle(king, rook));
      var (nr, nk) := CastleTargets(king, rook);
      var kp := b.grid[king.row][king.col].value;
      var rp := b.grid[rook.row][rook.col].value;
      && r.Ok? && Valid(r.value)
      && r.value.grid[rook.row][nr] == Some(rp.(hasMoved := true, position := Position(rook.row, nr)))
      && r.value.grid[king.row][nk] == Some(kp.(hasMoved := true, position := Position(king.row, nk)))
      && r.value.grid[rook.row][rook.col] == None
      && r.value.grid[king.row][king.col] == None
      && (forall i, j :: (0 <= i < 8 && 0 <= j < 8 && Position(i, j) != king && Position(i, j) != rook
            && Position(i, j) != Position(rook.row, nr) && Position(i, j) != Position(king.row, nk)) ==>
            r.value.grid[i][j] == b.grid[i][j])
  {
    var (nr, nk) := CastleTargets(king, rook);
    var rk := b.grid[rook.row][rook.col].value.(hasMoved := true);
    var k := b.grid[king.row][king.col].value.(hasMoved := true);
    CastleValid(b, king, rook);
    var c := CastlePieces(b, king, rook).value;
    var r := c.(lastMove := Some(Castle(king, rook)), turn := NextTurn(c.turn));
    assert ApplyMove(b, Castle(king, rook)) == Ok(r);
    var rk2 := rk.(position := Position(rook.row, nr));
    var k2 := k.(position := Position(king.row, nk));
    var g1 := SetSquare(SetSquare(b.grid, rook.row, nr, Some(rk2)), rook.row, rook.col, None);
    assert r.grid == SetSquare(SetSquare(g1, king.row, nk, Some(k2)), king.row, king.col, None);
    TwoRelocations(b.grid, rook, Position(rook.row, nr), Some(rk2), king, Position(king.row, nk), Some(k2));
  }
}
