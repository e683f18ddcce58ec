/** Move generation, check detection and game status of src/chess_board.rs
    (`get_other_moves`, `get_castle_moves`, `is_king_in_check`,
    `get_all_moves`, `find_safe_moves`, `get_party_moves`, `_update_party`,
    `get_king` and the piece-list queries) as functions of the board value.
    The class in chess_board.dfy computes the same results with the loops
    of the source and is proved equal to these functions. */
module MoveRules {
  import opened Wrappers
  import opened Pieces
  import opened BoardRules

  // ---------------------------------------------------------------------
  // Directions and rays
  // ---------------------------------------------------------------------

  /** The direction list `get_other_moves` gives each kind. The King's list
      has seven entries: (1, 1) is missing. Pawns and `NoPiece` get none. */
  function Directions(t: PieceType): (ds: seq<(int, int)>)
    ensures forall i :: 0 <= i < |ds| ==> ds[i] != (0, 0)
  {
    match t
    case Rook => [(0, 1), (0, -1), (1, 0), (-1, 0)]
    case Bishop => [(1, 1), (1, -1), (-1, -1), (-1, 1)]
    case Knight => [(2, 1), (2, -1), (-2, 1), (-2, -1), (1, 2), (1, -2), (-1, 2), (-1, -2)]
    case Queen => [(0, 1), (0, -1), (1, 0), (-1, 0), (1, 1), (1, -1), (-1, -1), (-1, 1)]
    case King => [(1, 0), (0, 1), (-1, 1), (-1, 0), (-1, -1), (0, -1), (1, -1)]
    case Pawn => []
    case NoPiece => []
  }

  /** `is_single_move_piece`: Knight and King stop after one step. */
  predicate SingleStep(t: PieceType) {
    t == Knight || t == King
  }

  /** How many more steps of size `d` fit before coordinate `x` leaves 0..8. */
  function Room(x: int, d: int): nat {
    if d > 0 then (if x < 8 then 8 - x else 0)
    else if d < 0 then (if x >= 0 then x + 1 else 0)
    else 0
  }

  /** The `loop` of `get_other_moves` along one direction from (x, y): each
      empty square is emitted in normal mode and the walk goes on (unless
      the piece takes single steps); the first occupied square ends the walk
      and is emitted only when it holds an enemy piece that is a King
      exactly in attack mode. */
  function Ray(g: Grid, piece: Piece, checking: bool, dr: int, dc: int, x: int, y: int): seq<ChessMove>
    requires IsGrid(g) && (dr, dc) != (0, 0)
    decreases Room(x, dr) + Room(y, dc)
  {
    if !InBounds(x + dr, y + dc) then []
    else
      var to := Position(x + dr, y + dc);
      match g[x + dr][y + dc]
      case Some(occupant) =>
        if occupant.color != piece.color && (occupant.pieceType == King) == checking
        then [OrdinaryMove(piece.position, to)] else []
      case None =>
        (if checking then [] else [OrdinaryMove(piece.position, to)])
        + (if SingleStep(piece.pieceType) then [] else Ray(g, piece, checking, dr, dc, x + dr, y + dc))
  }

  /** One step of a ray onto a square of the board, with the room left
      shrinking. */
  lemma RayStep(g: Grid, piece: Piece, checking: bool, dr: int, dc: int, x: int, y: int)
    requires IsGrid(g) && (dr, dc) != (0, 0) && InBounds(x + dr, y + dc)
    ensures Room(x + dr, dr) + Room(y + dc, dc) < Room(x, dr) + Room(y, dc)
    ensures g[x + dr][y + dc].Some? ==>
      var occupant := g[x + dr][y + dc].value;
      Ray(g, piece, checking, dr, dc, x, y) ==
        if occupant.color != piece.color && (occupant.pieceType == King) == checking
        then [OrdinaryMove(piece.position, Position(x + dr, y + dc))] else []
    ensures g[x + dr][y + dc].None? ==>
      Ray(g, piece, checking, dr, dc, x, y) ==
        (if checking then [] else [OrdinaryMove(piece.position, Position(x + dr, y + dc))])
        + (if SingleStep(piece.pieceType) then [] else Ray(g, piece, checking, dr, dc, x + dr, y + dc))
  {
  }

  /** The rays along every direction of `dirs`, in order. */
  function DirMoves(g: Grid, piece: Piece, checking: bool, dirs: seq<(int, int)>): seq<ChessMove>
    requires IsGrid(g) && forall i :: 0 <= i < |dirs| ==> dirs[i] != (0, 0)
  {
    if dirs == [] then []
    else Ray(g, piece, checking, dirs[0].0, dirs[0].1, piece.position.row, piece.position.col)
         + DirMoves(g, piece, checking, dirs[1..])
  }

  // ---------------------------------------------------------------------
  // Pawns
  // ---------------------------------------------------------------------

  /** `generate_promotion_moves`: Queen, Rook, Bishop, Knight, in that order. */
  const PromotionKinds: seq<PieceType> := [Queen, Rook, Bishop, Knight]

  function PromotionMoves(from: Position, to: Position): (ms: seq<ChessMove>)
    ensures |ms| == |PromotionKinds|
    ensures forall i :: 0 <= i < |ms| ==> ms[i] == Promotion(from, to, PromotionKinds[i])
  {
    [Promotion(from, to, Queen), Promotion(from, to, Rook),
     Promotion(from, to, Bishop), Promotion(from, to, Knight)]
  }

  /** Black pawns walk towards row 0, every other colour towards row 7. */
  function Forward(c: Color): int {
    if c == Black then -1 else 1
  }

  function PromotionRow(c: Color): nat {
    if c == Black then 0 else 7
  }

  /** Promotions onto a back-rank square, an ordinary move elsewhere. */
  function Advance(piece: Piece, to: Position): seq<ChessMove> {
    if to.row == PromotionRow(piece.color) then PromotionMoves(piece.position, to)
    else [OrdinaryMove(piece.position, to)]
  }

  /** The non-capturing pawn moves of normal mode: one step onto an empty
      square, and from there, for a pawn that has not moved, a second step
      onto an empty square. The second square is indexed without a bounds
      check, so a pawn whose double step leaves the board panics. */
  function PawnPushes(g: Grid, piece: Piece): Result<seq<ChessMove>>
    requires IsGrid(g)
  {
    var r1 := piece.position.row + Forward(piece.color);
    var c := piece.position.col;
    if !(InBounds(r1, c) && g[r1][c].None?) then Ok([])
    else
      var first := Advance(piece, Position(r1, c));
      if piece.hasMoved then Ok(first)
      else
        var r2 := piece.position.row + 2 * Forward(piece.color);
        if !InBounds(r2, c) then Panic
        else if g[r2][c].None? then Ok(first + [OrdinaryMove(piece.position, Position(r2, c))])
        else Ok(first)
  }

  function Abs(n: int): nat {
    if n < 0 then -n else n
  }

  /** En passant: the square beside the pawn holds an enemy pawn that the
      last move, an ordinary two-row move, brought there. */
  predicate EnPassant(b: Board, piece: Piece, target: Piece) {
    && target.color != piece.color
    && target.pieceType == Pawn
    && b.lastMove.Some? && b.lastMove.value.OrdinaryMove?
    && target.position == b.lastMove.value.to
    && Abs(b.lastMove.value.from.row - b.lastMove.value.to.row) == 2
  }

  /** The diagonal step of column offset `offset`: onto an enemy piece it is
      a capture (in attack mode only of a King, in normal mode of anything
      but a King, as promotions on the back rank); onto an empty square it
      is an en passant capture of the piece beside the pawn, in both modes. */
  function PawnCapture(b: Board, piece: Piece, checking: bool, offset: int): Result<seq<ChessMove>>
    requires IsGrid(b.grid)
  {
    var r := piece.position.row + Forward(piece.color);
    var c := piece.position.col + offset;
    if !InBounds(r, c) then Ok([])
    else
      var to := Position(r, c);
      match b.grid[r][c]
      case Some(target) =>
        if target.color == piece.color then Ok([])
        else if checking then Ok(if target.pieceType == King then [OrdinaryMove(piece.position, to)] else [])
        else if target.pieceType == King then Ok([])
        else Ok(Advance(piece, to))
      case None =>
        if piece.position.row >= 8 then Panic
        else match b.grid[piece.position.row][c]
          case None => Ok([])
          case Some(target) =>
            Ok(if EnPassant(b, piece, target) then [OrdinaryMove(piece.position, to)] else [])
  }

  /** The Pawn arm: pushes (normal mode only), then the captures on the left
      and on the right. */
  function PawnMoves(b: Board, piece: Piece, checking: bool): Result<seq<ChessMove>>
    requires IsGrid(b.grid)
  {
    var pushes :- if checking then Ok([]) else PawnPushes(b.grid, piece);
    var left :- PawnCapture(b, piece, checking, -1);
    var right :- PawnCapture(b, piece, checking, 1);
    Ok(pushes + left + right)
  }

  /** `get_other_moves`: the moves of one piece, without the self-check test. */
  function OtherMoves(b: Board, piece: Piece, checking: bool): Result<seq<ChessMove>>
    requires IsGrid(b.grid)
  {
    if piece.pieceType == Pawn then PawnMoves(b, piece, checking)
    else Ok(DirMoves(b.grid, piece, checking, Directions(piece.pieceType)))
  }

  /** The emptiness scan `for col in start..end` of `get_castle_moves`,
      which stops at the first occupied square: it panics when it reaches a
      column of 8 or more. */
  function ScanPanics(row: seq<Option<Piece>>, start: int, end: int): bool
    requires |row| == 8
    decreases end - start
  {
    if start >= end then false
    else if start < 0 || start >= 8 then true
    else if row[start].Some? then false
    else ScanPanics(row, start + 1, end)
  }

  /** An unmoved rook on square `sq` of the king's row. */
  predicate UnmovedRook(sq: Option<Piece>) {
    sq.Some? && sq.value.pieceType == Rook && !sq.value.hasMoved
  }

  /** `get_castle_moves`: for an unmoved king the squares between it and an
      unmoved rook in column 0 or 7 are scanned, but the moves collected are
      dropped and an empty list returned. The scan can still panic: on a
      king row off the board, on the `usize` underflow of `king.col - 1`
      or `rook.col - 1` when that column is 0, and on a scanned column past
      the board. */
  function CastleMoves(b: Board, king: Piece): Result<seq<ChessMove>>
    requires IsGrid(b.grid)
  {
    if king.hasMoved then Ok([])
    else if king.position.row >= 8 then Panic
    else
      var row := b.grid[king.position.row];
      var leftPanics := UnmovedRook(row[0]) &&
        (king.position.col == 0 || ScanPanics(row, row[0].value.position.col + 1, king.position.col - 1));
      var rightPanics := UnmovedRook(row[7]) &&
        (row[7].value.position.col == 0 || ScanPanics(row, king.position.col + 1, row[7].value.position.col - 1));
      if leftPanics || rightPanics then Panic else Ok([])
  }

  // ---------------------------------------------------------------------
  // Piece lists and the king
  // ---------------------------------------------------------------------

  /** The pieces standing on the listed squares, in list order; an
      off-board square or an empty one (`unwrap`) panics. */
  function PiecesAt(g: Grid, list: seq<Position>): Result<seq<Piece>>
    requires IsGrid(g)
  {
    if list == [] then Ok([])
    else if !OnBoard(list[0]) || g[list[0].row][list[0].col].None? then Panic
    else
      var rest :- PiecesAt(g, list[1..]);
      Ok([g[list[0].row][list[0].col].value] + rest)
  }

  /** `get_friendly_pieces_by_color`: the pieces of `color`; NoColor panics. */
  function PiecesOf(b: Board, color: Color): Result<seq<Piece>>
    requires IsGrid(b.grid)
  {
    match color
    case White => PiecesAt(b.grid, b.whitePositions)
    case Black => PiecesAt(b.grid, b.blackPositions)
    case NoColor => Panic
  }

  /** `get_friendly_pieces`: the pieces of the side to move. */
  function FriendlyPieces(b: Board): Result<seq<Piece>>
    requires IsGrid(b.grid)
  {
    PiecesOf(b, b.turn)
  }

  /** `get_ennemy_pieces`, and also `get_ennemy_pieces_by_color`, which
      ignores its argument: the pieces of the side not to move. */
  function EnemyPieces(b: Board): Result<seq<Piece>>
    requires IsGrid(b.grid)
  {
    match b.turn
    case White => PiecesAt(b.grid, b.blackPositions)
    case Black => PiecesAt(b.grid, b.whitePositions)
    case NoColor => Panic
  }

  /** The index of the first King in `ps`, or |ps|. */
  function FirstKing(ps: seq<Piece>): (i: nat)
    ensures i <= |ps|
    ensures i < |ps| ==> ps[i].pieceType == King
    ensures forall j :: 0 <= j < i ==> ps[j].pieceType != King
  {
    if ps == [] then 0
    else if ps[0].pieceType == King then 0
    else 1 + FirstKing(ps[1..])
  }

  /** `get_king`: the first King among the friendly pieces; none panics. */
  function GetKing(b: Board): Result<Piece>
    requires IsGrid(b.grid)
  {
    var ps :- FriendlyPieces(b);
    var i := FirstKing(ps);
    if i < |ps| then Ok(ps[i]) else Panic
  }

  // ---------------------------------------------------------------------
  // Check detection
  // ---------------------------------------------------------------------

  /** Some move of `moves` is an ordinary move onto square `t`. */
  predicate HitsSquare(moves: seq<ChessMove>, t: Position) {
    exists m :: m in moves && m.OrdinaryMove? && m.to == t
  }

  /** The loop of `is_king_in_check` over the enemy pieces: each piece's
      attack-mode moves are generated (a King's too, though they are then
      ignored); the first non-King piece with an ordinary move onto `t`
      returns true at once. */
  function Attacks(b: Board, ps: seq<Piece>, t: Position): Result<bool>
    requires IsGrid(b.grid)
  {
    if ps == [] then Ok(false)
    else
      var moves :- OtherMoves(b, ps[0], true);
      if ps[0].pieceType != King && HitsSquare(moves, t) then Ok(true)
      else Attacks(b, ps[1..], t)
  }

  /** `is_king_in_check`: the enemy pieces are listed first, then the king. */
  function InCheck(b: Board): Result<bool>
    requires IsGrid(b.grid)
  {
    var enemies :- EnemyPieces(b);
    var king :- GetKing(b);
    Attacks(b, enemies, king.position)
  }

  // ---------------------------------------------------------------------
  // Legal moves and game status
  // ---------------------------------------------------------------------

  /** The simulation on a clone: the move is made (which flips the turn)
      and the turn is flipped back, so the mover's own king is examined. */
  function Simulate(b: Board, m: ChessMove): (r: Result<Board>)
    requires IsGrid(b.grid)
    ensures r.Ok? ==> IsGrid(r.value.grid)
  {
    var b1 :- ApplyMove(b, m);
    Ok(b1.(turn := NextTurn(b1.turn)))
  }

  /** The move leaves the mover's king out of check. */
  function LeavesKingSafe(b: Board, m: ChessMove): Result<bool>
    requires IsGrid(b.grid)
  {
    var b1 :- Simulate(b, m);
    var check :- InCheck(b1);
    Ok(!check)
  }

  /** The moves of `ms` that leave the king safe, in order. */
  function KeepSafe(b: Board, ms: seq<ChessMove>): Result<seq<ChessMove>>
    requires IsGrid(b.grid)
  {
    if ms == [] then Ok([])
    else
      var safe :- LeavesKingSafe(b, ms[0]);
      var rest :- KeepSafe(b, ms[1..]);
      Ok((if safe then [ms[0]] else []) + rest)
  }

  /** One piece's share of `get_all_moves`: a King's moves and castle moves
      are filtered by the simulation, every other piece's moves are kept as
      generated. */
  function PieceMoves(b: Board, piece: Piece): Result<seq<ChessMove>>
    requires IsGrid(b.grid)
  {
    var moves :- OtherMoves(b, piece, false);
    if piece.pieceType == King then
      var kept :- KeepSafe(b, moves);
      var castles :- CastleMoves(b, piece);
      var keptCastles :- KeepSafe(b, castles);
      Ok(kept + keptCastles)
    else Ok(moves)
  }

  function AllMovesOf(b: Board, ps: seq<Piece>): Result<seq<ChessMove>>
    requires IsGrid(b.grid)
  {
    if ps == [] then Ok([])
    else
      var first :- PieceMoves(b, ps[0]);
      var rest :- AllMovesOf(b, ps[1..]);
      Ok(first + rest)
  }

  /** `get_all_moves`. */
  function AllMoves(b: Board): Result<seq<ChessMove>>
    requires IsGrid(b.grid)
  {
    var ps :- FriendlyPieces(b);
    AllMovesOf(b, ps)
  }

  /** The ordinary moves of `ms` that leave the king safe; other kinds of
      move are skipped without simulation. */
  function KeepSafeOrdinary(b: Board, ms: seq<ChessMove>): Result<seq<ChessMove>>
    requires IsGrid(b.grid)
  {
    if ms == [] then Ok([])
    else if !ms[0].OrdinaryMove? then KeepSafeOrdinary(b, ms[1..])
    else
      var safe :- LeavesKingSafe(b, ms[0]);
      var rest :- KeepSafeOrdinary(b, ms[1..]);
      Ok((if safe then [ms[0]] else []) + rest)
  }

  function SafeMovesOf(b: Board, ps: seq<Piece>): Result<seq<ChessMove>>
    requires IsGrid(b.grid)
  {
    if ps == [] then Ok([])
    else
      var moves :- OtherMoves(b, ps[0], false);
      var first :- KeepSafeOrdinary(b, moves);
      var rest :- SafeMovesOf(b, ps[1..]);
      Ok(first + rest)
  }

  /** `find_safe_moves`. */
  function SafeMoves(b: Board): Result<seq<ChessMove>>
    requires IsGrid(b.grid)
  {
    var ps :- FriendlyPieces(b);
    SafeMovesOf(b, ps)
  }

  /** `get_party_moves`: the safe moves when in check, all moves otherwise. */
  function PartyMoves(b: Board): Result<seq<ChessMove>>
    requires IsGrid(b.grid)
  {
    var check :- InCheck(b);
    if check then SafeMoves(b) else AllMoves(b)
  }

  /** The party state `_update_party` leaves, given whether the side to move
      is in check and how many moves it has. */
  function NewPartyState(current: PartyState, check: bool, count: nat): PartyState {
    if check then (if count == 0 then CheckMate else Check)
    else if count == 0 then Pat
    else current
  }

  /** `_update_party`: the new board (only `party_state` changes) and the
      moves it returns. */
  function UpdateParty(b: Board): (r: Result<(Board, seq<ChessMove>)>)
    requires IsGrid(b.grid)
    ensures r.Ok? ==> r.value.0 == b.(partyState := r.value.0.partyState)
  {
    var check :- InCheck(b);
    var moves :- if check then SafeMoves(b) else AllMoves(b);
    Ok((b.(partyState := NewPartyState(b.partyState, check, |moves|)), moves))
  }

  /** `update_board`: make the move, then update the party. */
  function UpdateBoard(b: Board, m: ChessMove): (r: Result<(Board, seq<ChessMove>)>)
    requires IsGrid(b.grid)
    ensures r.Ok? ==> IsGrid(r.value.0.grid)
  {
    var b1 :- ApplyMove(b, m);
    UpdateParty(b1)
  }
}
