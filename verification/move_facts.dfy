/** Square-by-square statements of the move rules of src/chess_board.rs,
    proved about the functions of MoveRules. */
module MoveFacts {
  import opened Wrappers
  import opened Pieces
  import opened BoardRules
  import opened MoveRules

  // ---------------------------------------------------------------------
  // Rays, stated by the number of steps k taken along a direction
  // ---------------------------------------------------------------------

  /** Coordinate `x` after `k` steps of size `d`. */
  function Along(x: int, d: int, k: int): int {
    x + k * d
  }

  /** The square `j` steps along (dr, dc) from (x, y) is on the board and empty. */
  predicate EmptyAlong(g: Grid, x: int, y: int, dr: int, dc: int, j: int)
    requires IsGrid(g)
  {
    InBounds(Along(x, dr, j), Along(y, dc, j)) && g[Along(x, dr, j)][Along(y, dc, j)].None?
  }

  /** The square `k` steps along is on the board and a legal landing square:
      empty in normal mode, or held by an enemy piece that is a King exactly
      in attack mode. */
  predicate Lands(g: Grid, piece: Piece, checking: bool, x: int, y: int, dr: int, dc: int, k: int)
    requires IsGrid(g)
  {
    var r := Along(x, dr, k);
    var c := Along(y, dc, k);
    && InBounds(r, c)
    && match g[r][c]
       case None => !checking
       case Some(o) => o.color != piece.color && (o.pieceType == King) == checking
  }

  /** Step `k` of the walk is emitted: every earlier square is empty, the
      landing square is legal, and a single-step piece takes only one step. */
  predicate RayHit(g: Grid, piece: Piece, checking: bool, dr: int, dc: int, x: int, y: int, k: int)
    requires IsGrid(g)
  {
    && 1 <= k
    && (SingleStep(piece.pieceType) ==> k == 1)
    && (forall j :: 1 <= j < k ==> EmptyAlong(g, x, y, dr, dc, j))
    && Lands(g, piece, checking, x, y, dr, dc, k)
  }

  function Target(x: int, y: int, dr: int, dc: int, k: int): Position
    requires InBounds(Along(x, dr, k), Along(y, dc, k))
  {
    Position(Along(x, dr, k), Along(y, dc, k))
  }

  lemma AlongShift(x: int, d: int, k: int)
    ensures Along(x + d, d, k) == Along(x, d, k + 1)
  {
    assert (k + 1) * d == k * d + d;
  }

  /** The walk from (x1, y1) = (x, y) + (dr, dc) is the walk from (x, y)
      shifted by one step. */
  lemma ShiftWalk(g: Grid, piece: Piece, checking: bool, dr: int, dc: int, x: int, y: int, x1: int, y1: int)
    requires IsGrid(g) && x1 == x + dr && y1 == y + dc
    ensures forall j :: EmptyAlong(g, x1, y1, dr, dc, j) == EmptyAlong(g, x, y, dr, dc, j + 1)
    ensures forall k :: Lands(g, piece, checking, x1, y1, dr, dc, k) == Lands(g, piece, checking, x, y, dr, dc, k + 1)
  {
    forall j ensures Along(x1, dr, j) == Along(x, dr, j + 1) && Along(y1, dc, j) == Along(y, dc, j + 1) {
      AlongShift(x, dr, j);
      AlongShift(y, dc, j);
    }
  }

  /** For k >= 2, step k from (x, y) is emitted exactly when the first square
      is empty, the piece slides, and step k - 1 from the next square is. */
  lemma RayHitShift(g: Grid, piece: Piece, checking: bool, dr: int, dc: int, x: int, y: int, k: int)
    requires IsGrid(g) && InBounds(x + dr, y + dc) && g[x + dr][y + dc].None? && !SingleStep(piece.pieceType)
    requires k >= 2
    ensures RayHit(g, piece, checking, dr, dc, x, y, k) == RayHit(g, piece, checking, dr, dc, x + dr, y + dc, k - 1)
    ensures InBounds(Along(x, dr, k), Along(y, dc, k)) ==>
      Along(x + dr, dr, k - 1) == Along(x, dr, k) && Along(y + dc, dc, k - 1) == Along(y, dc, k)
  {
    ShiftWalk(g, piece, checking, dr, dc, x, y, x + dr, y + dc);
    assert Along(x, dr, 1) == x + dr && Along(y, dc, 1) == y + dc;
    assert EmptyAlong(g, x, y, dr, dc, 1);
    if RayHit(g, piece, checking, dr, dc, x + dr, y + dc, k - 1) {
      forall j | 1 <= j < k ensures EmptyAlong(g, x, y, dr, dc, j) {
        if j > 1 {
          assert EmptyAlong(g, x + dr, y + dc, dr, dc, j - 1);
        }
      }
    }
    var x1, y1 := x + dr, y + dc;
    if RayHit(g, piece, checking, dr, dc, x, y, k) {
      forall j | 1 <= j < k - 1 ensures EmptyAlong(g, x1, y1, dr, dc, j) {
        assert EmptyAlong(g, x, y, dr, dc, j + 1);
      }
    }
    AlongShift(x, dr, k - 1);
    AlongShift(y, dc, k - 1);
  }

  /** Any emitted step needs the first square on the board, and a step past
      it needs that square empty and a sliding piece. */
  lemma HitNeedsFirstStep(g: Grid, piece: Piece, checking: bool, dr: int, dc: int, x: int, y: int, k: int)
    requires IsGrid(g) && RayHit(g, piece, checking, dr, dc, x, y, k)
    ensures InBounds(x + dr, y + dc)
    ensures k == 1 || (g[x + dr][y + dc].None? && !SingleStep(piece.pieceType))
  {
    assert Along(x, dr, 1) == x + dr && Along(y, dc, 1) == y + dc;
    if k > 1 {
      assert EmptyAlong(g, x, y, dr, dc, 1);
    }
  }

  /** The walk from (x, y) emits exactly the ordinary moves from the piece's
      square to the targets of the steps for which RayHit holds. */
  ghost predicate RayCharacterized(g: Grid, piece: Piece, checking: bool, dr: int, dc: int, x: int, y: int)
    requires IsGrid(g) && (dr, dc) != (0, 0)
  {
    var ray := Ray(g, piece, checking, dr, dc, x, y);
    && (forall m :: m in ray ==> m.OrdinaryMove? && m.from == piece.position)
    && (forall m :: m in ray ==>
          exists k :: RayHit(g, piece, checking, dr, dc, x, y, k) && m.to == Target(x, y, dr, dc, k))
    && (forall k :: RayHit(g, piece, checking, dr, dc, x, y, k) ==>
          OrdinaryMove(piece.position, Target(x, y, dr, dc, k)) in ray)
  }

  /** A walk whose first square is off the board, occupied, or taken by a
      single-step piece emits at most that first square. */
  lemma RayStopCase(g: Grid, piece: Piece, checking: bool, dr: int, dc: int, x: int, y: int)
    requires IsGrid(g) && (dr, dc) != (0, 0)
    requires !InBounds(x + dr, y + dc) || g[x + dr][y + dc].Some? || SingleStep(piece.pieceType)
    ensures RayCharacterized(g, piece, checking, dr, dc, x, y)
  {
    assert Along(x, dr, 1) == x + dr && Along(y, dc, 1) == y + dc;
    forall k | RayHit(g, piece, checking, dr, dc, x, y, k)
      ensures InBounds(x + dr, y + dc) && k == 1
    {
      HitNeedsFirstStep(g, piece, checking, dr, dc, x, y, k);
    }
    forall m | m in Ray(g, piece, checking, dr, dc, x, y)
      ensures RayHit(g, piece, checking, dr, dc, x, y, 1) && m.to == Target(x, y, dr, dc, 1)
    {
    }
  }

  /** A walk that slides over an empty first square emits that square in
      normal mode, followed by the walk from there. */
  lemma RaySlideCase(g: Grid, piece: Piece, checking: bool, dr: int, dc: int, x: int, y: int)
    requires IsGrid(g) && (dr, dc) != (0, 0)
    requires InBounds(x + dr, y + dc) && g[x + dr][y + dc].None? && !SingleStep(piece.pieceType)
    requires RayCharacterized(g, piece, checking, dr, dc, x + dr, y + dc)
    ensures RayCharacterized(g, piece, checking, dr, dc, x, y)
  {
    var ray := Ray(g, piece, checking, dr, dc, x, y);
    var rest := Ray(g, piece, checking, dr, dc, x + dr, y + dc);
    assert Along(x, dr, 1) == x + dr && Along(y, dc, 1) == y + dc;
    assert ray == (if checking then [] else [OrdinaryMove(piece.position, Position(x + dr, y + dc))]) + rest;
    forall m | m in ray ensures exists k :: RayHit(g, piece, checking, dr, dc, x, y, k) && m.to == Target(x, y, dr, dc, k) {
      if m in rest {
        var k1 :| RayHit(g, piece, checking, dr, dc, x + dr, y + dc, k1) && m.to == Target(x + dr, y + dc, dr, dc, k1);
        RayHitShift(g, piece, checking, dr, dc, x, y, k1 + 1);
        assert RayHit(g, piece, checking, dr, dc, x, y, k1 + 1);
      } else {
        assert RayHit(g, piece, checking, dr, dc, x, y, 1);
      }
    }
    forall k | RayHit(g, piece, checking, dr, dc, x, y, k)
      ensures OrdinaryMove(piece.position, Target(x, y, dr, dc, k)) in ray
    {
      if k > 1 {
        RayHitShift(g, piece, checking, dr, dc, x, y, k);
        assert OrdinaryMove(piece.position, Target(x + dr, y + dc, dr, dc, k - 1)) in rest;
      }
    }
  }

  /** The walk along one direction emits exactly the ordinary moves from the
      piece's square to the squares `k` steps along for which RayHit holds:
      rays stop at the first occupied square, which is emitted only when it
      holds an enemy that is a King exactly in attack mode, empty squares are
      emitted only in normal mode, and Knight and King take one step. */
  lemma {:induction false} RayExactly(g: Grid, piece: Piece, checking: bool, dr: int, dc: int, x: int, y: int)
    requires IsGrid(g) && (dr, dc) != (0, 0)
    ensures forall m :: m in Ray(g, piece, checking, dr, dc, x, y) ==> m.OrdinaryMove? && m.from == piece.position
    ensures forall m :: m in Ray(g, piece, checking, dr, dc, x, y) ==>
      exists k :: RayHit(g, piece, checking, dr, dc, x, y, k) && m.to == Target(x, y, dr, dc, k)
    ensures forall k :: RayHit(g, piece, checking, dr, dc, x, y, k) ==>
      OrdinaryMove(piece.position, Target(x, y, dr, dc, k)) in Ray(g, piece, checking, dr, dc, x, y)
    decreases Room(x, dr) + Room(y, dc)
  {
    if !InBounds(x + dr, y + dc) || g[x + dr][y + dc].Some? || SingleStep(piece.pieceType) {
      RayStopCase(g, piece, checking, dr, dc, x, y);
    } else {
      RayExactly(g, piece, checking, dr, dc, x + dr, y + dc);
      RaySlideCase(g, piece, checking, dr, dc, x, y);
    }
  }

  /** A move is generated along the direction list exactly when it is
      generated along one of its directions. */
  lemma {:induction false} DirMovesMembers(g: Grid, piece: Piece, checking: bool, dirs: seq<(int, int)>)
    requires IsGrid(g) && forall i :: 0 <= i < |dirs| ==> dirs[i] != (0, 0)
    ensures forall m :: m in DirMoves(g, piece, checking, dirs) <==>
      exists i :: 0 <= i < |dirs| &&
        m in Ray(g, piece, checking, dirs[i].0, dirs[i].1, piece.position.row, piece.position.col)
  {
    if dirs != [] {
      DirMovesMembers(g, piece, checking, dirs[1..]);
      forall m | m in DirMoves(g, piece, checking, dirs)
        ensures exists i :: (0 <= i < |dirs| &&
          m in Ray(g, piece, checking, dirs[i].0, dirs[i].1, piece.position.row, piece.position.col))
      {
        if m !in Ray(g, piece, checking, dirs[0].0, dirs[0].1, piece.position.row, piece.position.col) {
          assert m in DirMoves(g, piece, checking, dirs[1..]);
          var i :| 0 <= i < |dirs[1..]| &&
            m in Ray(g, piece, checking, dirs[1..][i].0, dirs[1..][i].1, piece.position.row, piece.position.col);
          assert dirs[1..][i] == dirs[i + 1];
        }
      }
      forall m, i | 0 <= i < |dirs| &&
          m in Ray(g, piece, checking, dirs[i].0, dirs[i].1, piece.position.row, piece.position.col)
        ensures m in DirMoves(g, piece, checking, dirs)
      {
        if i > 0 {
          assert dirs[1..][i - 1] == dirs[i];
        }
      }
    }
  }

  /** Every piece but a pawn: `get_other_moves` never panics, emits only
      ordinary moves from the piece's square, and emits a move to `to`
      exactly when `to` is a RayHit along one of the kind's directions. */
  lemma NonPawnMoves(b: Board, piece: Piece, checking: bool)
    requires IsGrid(b.grid) && piece.pieceType != Pawn
    ensures var r := OtherMoves(b, piece, checking);
      var ds := Directions(piece.pieceType);
      var (x, y) := (piece.position.row, piece.position.col);
      && r.Ok?
      && (forall m :: m in r.value ==> m.OrdinaryMove? && m.from == piece.position)
      && (forall m :: m in r.value ==> exists i, k :: (0 <= i < |ds| &&
            RayHit(b.grid, piece, checking, ds[i].0, ds[i].1, x, y, k) && m.to == Target(x, y, ds[i].0, ds[i].1, k)))
      && (forall i, k :: 0 <= i < |ds| && RayHit(b.grid, piece, checking, ds[i].0, ds[i].1, x, y, k) ==>
            OrdinaryMove(piece.position, Target(x, y, ds[i].0, ds[i].1, k)) in r.value)
  {
    var ds := Directions(piece.pieceType);
    var (x, y) := (piece.position.row, piece.position.col);
    DirMovesMembers(b.grid, piece, checking, ds);
    forall i | 0 <= i < |ds| {
      RayExactly(b.grid, piece, checking, ds[i].0, ds[i].1, x, y);
    }
  }

  /** The King's missing direction: no King ever gets a move one row up and
      one column right of its square, in either mode. */
  lemma KingNeverUpRight(b: Board, piece: Piece, checking: bool)
    requires IsGrid(b.grid) && piece.pieceType == King
    ensures OtherMoves(b, piece, checking).Ok?
    ensures OrdinaryMove(piece.position, Position(piece.position.row + 1, piece.position.col + 1))
            !in OtherMoves(b, piece, checking).value
  {
    NonPawnMoves(b, piece, checking);
    var ds := Directions(King);
    forall i, k | 0 <= i < |ds| && RayHit(b.grid, piece, checking, ds[i].0, ds[i].1, piece.position.row, piece.position.col, k)
      ensures Target(piece.position.row, piece.position.col, ds[i].0, ds[i].1, k)
              != Position(piece.position.row + 1, piece.position.col + 1)
    {
      assert k == 1;
    }
  }

  /** Knight and King: every move lands one direction vector away. */
  lemma SingleStepMoves(b: Board, piece: Piece, checking: bool)
    requires IsGrid(b.grid) && SingleStep(piece.pieceType)
    ensures OtherMoves(b, piece, checking).Ok?
    ensures forall m :: m in OtherMoves(b, piece, checking).value ==>
      m.OrdinaryMove? && exists i :: (0 <= i < |Directions(piece.pieceType)| &&
        m.to.row == piece.position.row + Directions(piece.pieceType)[i].0 &&
        m.to.col == piece.position.col + Directions(piece.pieceType)[i].1)
  {
    NonPawnMoves(b, piece, checking);
    var ds := Directions(piece.pieceType);
    forall m | m in OtherMoves(b, piece, checking).value
      ensures exists i :: (0 <= i < |ds| &&
        m.to.row == piece.position.row + ds[i].0 && m.to.col == piece.position.col + ds[i].1)
    {
      var i, k :| 0 <= i < |ds| && RayHit(b.grid, piece, checking, ds[i].0, ds[i].1, piece.position.row, piece.position.col, k)
        && m.to == Target(piece.position.row, piece.position.col, ds[i].0, ds[i].1, k);
      assert k == 1;
    }
  }

  /** Attack mode: every move generated is an ordinary move onto a square
      holding an enemy King, except a pawn's en passant move onto an empty
      square. */
  lemma AttackModeTargets(b: Board, piece: Piece)
    requires IsGrid(b.grid)
    ensures OtherMoves(b, piece, true).Ok? ==>
      forall m :: m in OtherMoves(b, piece, true).value ==>
        && m.OrdinaryMove? && OnBoard(m.to)
        && (b.grid[m.to.row][m.to.col].Some? ==>
              b.grid[m.to.row][m.to.col].value.pieceType == King &&
              b.grid[m.to.row][m.to.col].value.color != piece.color)
        && (piece.pieceType != Pawn ==> b.grid[m.to.row][m.to.col].Some?)
  {
    if piece.pieceType != Pawn {
      NonPawnMoves(b, piece, true);
      var ds := Directions(piece.pieceType);
      forall m | m in OtherMoves(b, piece, true).value
        ensures OnBoard(m.to) && b.grid[m.to.row][m.to.col].Some? &&
          b.grid[m.to.row][m.to.col].value.pieceType == King &&
          b.grid[m.to.row][m.to.col].value.color != piece.color
      {
        var i, k :| 0 <= i < |ds| && RayHit(b.grid, piece, true, ds[i].0, ds[i].1, piece.position.row, piece.position.col, k)
          && m.to == Target(piece.position.row, piece.position.col, ds[i].0, ds[i].1, k);
      }
    }
  }

  // ---------------------------------------------------------------------
  // Pawns
  // ---------------------------------------------------------------------

  /** Normal-mode pushes: every push goes straight ahead in the pawn's
      column onto an empty square, one row forward, or two rows forward for
      a pawn that has not moved and whose first square is empty too; it is
      a promotion exactly on the back rank, into the four kinds in order.
      Conversely the one-row push onto an empty square is always there, and
      so is the double step of an unmoved pawn over two empty squares. */
  lemma PawnPushRules(g: Grid, piece: Piece)
    requires IsGrid(g)
    ensures var r := PawnPushes(g, piece);
      var (row, col) := (piece.position.row, piece.position.col);
      var r1 := row + Forward(piece.color);
      var r2 := row + 2 * Forward(piece.color);
      && (r.Ok? ==> forall m :: m in r.value ==>
            && !m.Castle? && m.from == piece.position && m.to.col == col && OnBoard(m.to)
            && g[m.to.row][m.to.col].None?
            && (m.to.row == r1 || (m.to.row == r2 && !piece.hasMoved && InBounds(r1, col) && g[r1][col].None?))
            && (m.to.row == r1 ==> (m.Promotion? <==> r1 == PromotionRow(piece.color)))
            && (m.to.row != r1 ==> m.OrdinaryMove?)
            && (m.Promotion? ==> m.pieceType in PromotionKinds))
      && (InBounds(r1, col) && g[r1][col].None? && r.Ok? ==>
            |Advance(piece, Position(r1, col))| <= |r.value| &&
            r.value[..|Advance(piece, Position(r1, col))|] == Advance(piece, Position(r1, col)))
      && (InBounds(r1, col) && g[r1][col].None? && !piece.hasMoved && !InBounds(r2, col) ==> r.Panic?)
      && (InBounds(r1, col) && g[r1][col].None? && !piece.hasMoved && InBounds(r2, col) && g[r2][col].None? ==>
            r.Ok? && OrdinaryMove(piece.position, Position(r2, col)) in r.value)
  {
  }

  /** Normal mode: a diagonal onto an occupied square is a capture of an
      enemy piece other than a King; a promotion happens exactly on the
      back rank. */
  lemma PawnCaptureRules(b: Board, piece: Piece, offset: int)
    requires IsGrid(b.grid)
    ensures var r := PawnCapture(b, piece, false, offset);
      r.Ok? ==> forall m :: m in r.value ==>
        && !m.Castle? && m.from == piece.position && OnBoard(m.to)
        && m.to.row == piece.position.row + Forward(piece.color) && m.to.col == piece.position.col + offset
        && (b.grid[m.to.row][m.to.col].Some? ==>
              b.grid[m.to.row][m.to.col].value.color != piece.color &&
              b.grid[m.to.row][m.to.col].value.pieceType != King)
        && (m.Promotion? ==> m.to.row == PromotionRow(piece.color) && b.grid[m.to.row][m.to.col].Some?)
  {
  }

  /** Normal mode, the converse of `PawnCaptureRules`: an in-bounds
      diagonal holding an enemy piece other than a King is captured, by the
      four promotions Queen, Rook, Bishop, Knight in that order on the back
      rank and by one ordinary move elsewhere; an in-bounds diagonal holding
      an own piece or an enemy King, and a diagonal off the board, give no
      move. */
  lemma PawnCaptureTargets(b: Board, piece: Piece, offset: int)
    requires IsGrid(b.grid)
    ensures var r0 := piece.position.row + Forward(piece.color);
      var c := piece.position.col + offset;
      var r := PawnCapture(b, piece, false, offset);
      && (!InBounds(r0, c) ==> r == Ok([]))
      && (InBounds(r0, c) && b.grid[r0][c].Some? ==>
            var t := b.grid[r0][c].value;
            var to := Position(r0, c);
            && (t.color == piece.color || t.pieceType == King ==> r == Ok([]))
            && (t.color != piece.color && t.pieceType != King && r0 == PromotionRow(piece.color) ==>
                  r == Ok([Promotion(piece.position, to, Queen), Promotion(piece.position, to, Rook),
                           Promotion(piece.position, to, Bishop), Promotion(piece.position, to, Knight)]))
            && (t.color != piece.color && t.pieceType != King && r0 != PromotionRow(piece.color) ==>
                  r == Ok([OrdinaryMove(piece.position, to)])))
  {
  }

  /** Attack mode, the converse of `AttackModeTargets` for a pawn: an
      in-bounds diagonal holding an enemy King gives exactly the ordinary
      move onto it, one holding any other piece gives no move, and so does
      a diagonal off the board. */
  lemma PawnAttackTargets(b: Board, piece: Piece, offset: int)
    requires IsGrid(b.grid)
    ensures var r0 := piece.position.row + Forward(piece.color);
      var c := piece.position.col + offset;
      var r := PawnCapture(b, piece, true, offset);
      && (!InBounds(r0, c) ==> r == Ok([]))
      && (InBounds(r0, c) && b.grid[r0][c].Some? ==>
            var t := b.grid[r0][c].value;
            && (t.color != piece.color && t.pieceType == King ==>
                  r == Ok([OrdinaryMove(piece.position, Position(r0, c))]))
            && (!(t.color != piece.color && t.pieceType == King) ==> r == Ok([])))
  {
  }

  /** Normal and attack mode alike, an empty in-bounds diagonal: reading the
      square beside the pawn panics when the pawn's own row is off the board;
      otherwise there is exactly one move, the ordinary move onto the
      diagonal, when that square holds a piece that can be taken en passant,
      and none when it does not. */
  lemma PawnEnPassant(b: Board, piece: Piece, checking: bool, offset: int)
    requires IsGrid(b.grid)
    ensures var r0 := piece.position.row + Forward(piece.color);
      var c := piece.position.col + offset;
      var r := PawnCapture(b, piece, checking, offset);
      InBounds(r0, c) && b.grid[r0][c].None? ==>
        && (r.Panic? <==> piece.position.row >= 8)
        && (piece.position.row < 8 ==>
              var beside := b.grid[piece.position.row][c];
              && (beside.Some? && EnPassant(b, piece, beside.value) ==>
                    r == Ok([OrdinaryMove(piece.position, Position(r0, c))]))
              && (!(beside.Some? && EnPassant(b, piece, beside.value)) ==> r == Ok([])))
  {
  }

  /** Every promotion a pawn generates is onto the back rank and into one of
      Queen, Rook, Bishop, Knight; no pawn ever generates a castle. */
  lemma PawnPromotions(b: Board, piece: Piece)
    requires IsGrid(b.grid)
    ensures PawnMoves(b, piece, false).Ok? ==>
      forall m :: m in PawnMoves(b, piece, false).value ==>
        !m.Castle? && (m.Promotion? ==> m.to.row == PromotionRow(piece.color) && m.pieceType in PromotionKinds)
  {
    PawnPushRules(b.grid, piece);
    PawnCaptureRules(b, piece, -1);
    PawnCaptureRules(b, piece, 1);
  }
}
