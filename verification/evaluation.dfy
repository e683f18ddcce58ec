/** The static evaluation of src/evaluation.rs. `eval_function` is the
    tapered evaluation: a scan of the board accumulates midgame and endgame
    scores per side (material value plus piece-square bonus) and a game
    phase, and the two scores are blended by the clamped phase with
    truncating `i32` division. `eval_function_old` is the earlier material
    count. Each method is proved equal to a function of the board value. */
module Evaluation {
  import opened Wrappers
  import opened Pieces
  import opened MoveRules
  import opened PieceTables
  import opened Engine
  import opened LegalityFacts

  const I32Min: int := -0x8000_0000
  const I32Max: int := 0x7fff_ffff

  function Min(a: int, b: int): int {
    if a <= b then a else b
  }

  function Max(a: int, b: int): int {
    if a <= b then b else a
  }

  // ---------------------------------------------------------------------
  // Truncating division
  // ---------------------------------------------------------------------

  /** Rust's `/` on `i32`: the quotient rounded toward zero (Dafny's `/`
      rounds toward negative infinity for a positive divisor). */
  function TruncDiv(a: int, b: int): int
    requires b > 0
  {
    if a >= 0 then a / b else -((-a) / b)
  }

  /** The quotient has the sign of `a` and leaves a remainder smaller than
      `b` in absolute value: it is `a / b` rounded toward zero. */
  lemma TruncDivRounds(a: int, b: int)
    requires b > 0
    ensures var q := TruncDiv(a, b);
      && Abs(q * b) <= Abs(a) < Abs(q * b) + b
      && (a >= 0 ==> q >= 0) && (a <= 0 ==> q <= 0)
  {
    var q := TruncDiv(a, b);
    if a >= 0 {
      assert q == a / b;
      assert a == q * b + a % b && 0 <= a % b < b;
      MulNonneg(q, b);
    } else {
      var q' := (-a) / b;
      assert q == -q';
      assert -a == q' * b + (-a) % b && 0 <= (-a) % b < b;
      MulNonneg(q', b);
      NegateMul(q', b);
    }
  }

  lemma NegateMul(x: int, b: int)
    ensures (-x) * b == -(x * b)
  {
  }

  lemma TruncDivNegate(a: int, b: int)
    requires b > 0
    ensures TruncDiv(-a, b) == -TruncDiv(a, b)
  {
  }

  /** Truncating division by 24 is monotone. */
  lemma TruncDivMonotone(a: int, c: int)
    requires a <= c
    ensures TruncDiv(a, 24) <= TruncDiv(c, 24)
  {
  }

  lemma TruncDivMultiple(x: int)
    ensures TruncDiv(x * 24, 24) == x
  {
  }

  // ---------------------------------------------------------------------
  // The phase blend
  // ---------------------------------------------------------------------

  /** `mg_phase` is the game phase clamped at 24 ("in case of early
      promotion"), `eg_phase` the rest of 24, and the two scores are
      weighted by them and divided by 24. */
  function Blend(mg: int, eg: int, phase: int): int {
    var mgPhase := if phase > 24 then 24 else phase;
    var egPhase := 24 - mgPhase;
    TruncDiv(mg * mgPhase + eg * egPhase, 24)
  }

  lemma MulNonneg(a: int, b: int)
    requires a >= 0 && b >= 0
    ensures a * b >= 0
  {
  }

  /** For a non-negative phase the blend lies between the two scores; it is
      the midgame score from phase 24 on and the endgame score at phase 0. */
  lemma BlendBetween(mg: int, eg: int, phase: int)
    requires phase >= 0
    ensures Min(mg, eg) <= Blend(mg, eg, phase) <= Max(mg, eg)
    ensures phase >= 24 ==> Blend(mg, eg, phase) == mg
    ensures phase == 0 ==> Blend(mg, eg, phase) == eg
  {
    var p := if phase > 24 then 24 else phase;
    var n := mg * p + eg * (24 - p);
    var lo := Min(mg, eg);
    var hi := Max(mg, eg);
    assert n - lo * 24 == (mg - lo) * p + (eg - lo) * (24 - p);
    MulNonneg(mg - lo, p);
    MulNonneg(eg - lo, 24 - p);
    assert hi * 24 - n == (hi - mg) * p + (hi - eg) * (24 - p);
    MulNonneg(hi - mg, p);
    MulNonneg(hi - eg, 24 - p);
    TruncDivMonotone(lo * 24, n);
    TruncDivMonotone(n, hi * 24);
    TruncDivMultiple(lo);
    TruncDivMultiple(hi);
    if phase >= 24 {
      assert n == mg * 24;
      TruncDivMultiple(mg);
    }
    if phase == 0 {
      assert n == eg * 24;
      TruncDivMultiple(eg);
    }
  }

  /** Negating both scores negates the blend. */
  lemma BlendNegate(mg: int, eg: int, phase: int)
    ensures Blend(-mg, -eg, phase) == -Blend(mg, eg, phase)
  {
    var p := if phase > 24 then 24 else phase;
    assert (-mg) * p + (-eg) * (24 - p) == -(mg * p + eg * (24 - p));
    TruncDivNegate(mg * p + eg * (24 - p), 24);
  }

  // ---------------------------------------------------------------------
  // The board scan of `eval_function`
  // ---------------------------------------------------------------------

  /** The five accumulators of `eval_function`. */
  datatype Tally = Tally(whiteMg: int, blackMg: int, whiteEg: int, blackEg: int, phase: int)

  /** One square of the scan: a piece adds its phase weight, then its
      material value and table bonus to its side's scores. White reads
      `table[row][col]`, Black the mirrored `table[7 - row][col]`; a
      `NoColor` piece panics, and so does a `NoPiece` kind (`todo!()`). */
  function AddSquare(t: Tally, sq: Option<Piece>, row: nat, col: nat): Result<Tally>
    requires row < 8 && col < 8
  {
    match sq
    case None => Ok(t)
    case Some(p) =>
      var phase := t.phase + GamePhaseValue(p.pieceType);
      match p.color
      case White =>
        var mg :- MgTable(p.pieceType);
        var eg := EgTable(p.pieceType).value;
        Ok(t.(whiteMg := t.whiteMg + mg[row][col] + MgPieceValue(p.pieceType),
              whiteEg := t.whiteEg + eg[row][col] + EgPieceValue(p.pieceType),
              phase := phase))
      case Black =>
        var mg :- MgTable(p.pieceType);
        var eg := EgTable(p.pieceType).value;
        Ok(t.(blackMg := t.blackMg + mg[7 - row][col] + MgPieceValue(p.pieceType),
              blackEg := t.blackEg + eg[7 - row][col] + EgPieceValue(p.pieceType),
              phase := phase))
      case NoColor => Panic
  }

  /** The accumulators after the first `n` squares of the scan. */
  function TallyUpTo(g: Grid, n: nat): Result<Tally>
    requires IsGrid(g) && n <= 49
    decreases n, 0
  {
    if n == 0 then Ok(Tally(0, 0, 0, 0, 0)) else TallyThrough(g, n - 1)
  }

  /** The accumulators after square `k` of the scan, that is after the
      first `k + 1` squares. */
  function TallyThrough(g: Grid, k: nat): Result<Tally>
    requires IsGrid(g) && k < 49
    decreases k, 1
  {
    var t :- TallyUpTo(g, k);
    AddSquare(t, Scanned(g, k), k / 7, k % 7)
  }

  /** `eval_function` of a board for the searching colour `color`: the
      scores are taken from White's side when `color` is White and from
      Black's side for every other colour. */
  function Tapered(color: Color, b: Board): Result<int>
    requires IsGrid(b.grid)
  {
    var t :- TallyUpTo(b.grid, 49);
    var mg := if color == White then t.whiteMg - t.blackMg else t.blackMg - t.whiteMg;
    var eg := if color == White then t.whiteEg - t.blackEg else t.blackEg - t.whiteEg;
    Ok(Blend(mg, eg, t.phase))
  }

  lemma TallyStep(g: Grid, row: nat, col: nat)
    requires IsGrid(g) && row < 7 && col < 7
    ensures TallyUpTo(g, 7 * row + col + 1) ==
      (var t :- TallyUpTo(g, 7 * row + col); AddSquare(t, g[row][col], row, col))
  {
    assert (7 * row + col) / 7 == row && (7 * row + col) % 7 == col;
  }

  /** A panic of the scan is never recovered from. */
  lemma {:induction false} TallyPanicSticks(g: Grid, n: nat, m: nat)
    requires IsGrid(g) && n <= m <= 49 && TallyUpTo(g, n).Panic?
    ensures TallyUpTo(g, m).Panic?
    decreases m
  {
    if n < m {
      TallyPanicSticks(g, n, m - 1);
    }
  }

  /** The mirror rule: a Black piece on (7 - r, c) reads the table entry a
      White piece of the same kind reads on (r, c). */
  lemma MirrorRule(t: Tally, k: PieceType, r: nat, c: nat, p1: Position, p2: Position, m1: bool, m2: bool)
    requires r < 8 && c < 8 && k != NoPiece
    ensures AddSquare(t, Some(Piece(k, p1, White, m1)), r, c).Ok?
    ensures AddSquare(t, Some(Piece(k, p2, Black, m2)), 7 - r, c).Ok?
    ensures var w := AddSquare(t, Some(Piece(k, p1, White, m1)), r, c).value;
      var bl := AddSquare(t, Some(Piece(k, p2, Black, m2)), 7 - r, c).value;
      && w.whiteMg - t.whiteMg == bl.blackMg - t.blackMg == MgTable(k).value[r][c] + MgPieceValue(k)
      && w.whiteEg - t.whiteEg == bl.blackEg - t.blackEg == EgTable(k).value[r][c] + EgPieceValue(k)
      && w.phase - t.phase == bl.phase - t.phase == GamePhaseValue(k)
  {
  }

  /** The scan panics exactly when one of its squares holds a piece with
      no colour or no kind. */
  lemma {:induction false} TallyPanics(g: Grid, n: nat)
    requires IsGrid(g) && n <= 49
    ensures TallyUpTo(g, n).Panic? <==>
      exists k :: 0 <= k < n && Scanned(g, k).Some? && BadPiece(Scanned(g, k).value)
  {
    if n > 0 {
      TallyPanics(g, n - 1);
      if TallyUpTo(g, n - 1).Ok? {
        assert !exists k :: 0 <= k < n - 1 && Scanned(g, k).Some? && BadPiece(Scanned(g, k).value);
      }
    }
  }

  /** Squares outside rows 0..6 and columns 0..6 are never read. */
  lemma {:induction false} TallyIgnoresEdge(g1: Grid, g2: Grid, n: nat)
    requires IsGrid(g1) && IsGrid(g2) && n <= 49
    requires forall r, c :: 0 <= r < 7 && 0 <= c < 7 ==> g1[r][c] == g2[r][c]
    ensures TallyUpTo(g1, n) == TallyUpTo(g2, n)
  {
    if n > 0 {
      TallyIgnoresEdge(g1, g2, n - 1);
      assert Scanned(g1, n - 1) == Scanned(g2, n - 1);
    }
  }

  /** Each square adds -200..1225 to one side's scores and 0..4 to the phase. */
  lemma {:induction false} TallyBounds(g: Grid, n: nat)
    requires IsGrid(g) && n <= 49
    ensures TallyUpTo(g, n).Ok? ==>
      var t := TallyUpTo(g, n).value;
      && -200 * n <= t.whiteMg <= 1225 * n && -200 * n <= t.blackMg <= 1225 * n
      && -200 * n <= t.whiteEg <= 1225 * n && -200 * n <= t.blackEg <= 1225 * n
      && 0 <= t.phase <= 4 * n
  {
    if n > 0 {
      TallyBounds(g, n - 1);
    }
  }

  /** On the same board the evaluation for Black is the exact negation of
      the evaluation for White, and every colour other than White scores
      as Black does. */
  lemma TaperedColorSymmetry(b: Board, other: Color)
    requires IsGrid(b.grid) && other != White
    ensures Tapered(White, b).Ok? <==> Tapered(other, b).Ok?
    ensures Tapered(White, b).Ok? ==> Tapered(other, b).value == -Tapered(White, b).value
  {
    if TallyUpTo(b.grid, 49).Ok? {
      var t := TallyUpTo(b.grid, 49).value;
      BlendNegate(t.whiteMg - t.blackMg, t.whiteEg - t.blackEg, t.phase);
      assert t.blackMg - t.whiteMg == -(t.whiteMg - t.blackMg);
      assert t.blackEg - t.whiteEg == -(t.whiteEg - t.blackEg);
    }
  }

  /** A piece on row 7 or column 7 changes neither the scores nor the phase. */
  lemma TaperedIgnoresEdge(color: Color, b1: Board, b2: Board)
    requires IsGrid(b1.grid) && IsGrid(b2.grid)
    requires forall r, c :: 0 <= r < 7 && 0 <= c < 7 ==> b1.grid[r][c] == b2.grid[r][c]
    ensures Tapered(color, b1) == Tapered(color, b2)
  {
    TallyIgnoresEdge(b1.grid, b2.grid, 49);
  }

  /** The evaluation panics exactly when a scanned square holds a piece with
      no colour or no kind; so it never panics on a valid board. */
  lemma TaperedPanics(color: Color, b: Board)
    requires IsGrid(b.grid)
    ensures Tapered(color, b).Panic? <==>
      exists r, c :: 0 <= r < 7 && 0 <= c < 7 && b.grid[r][c].Some? && BadPiece(b.grid[r][c].value)
  {
    TallyPanics(b.grid, 49);
    if exists k :: 0 <= k < 49 && Scanned(b.grid, k).Some? && BadPiece(Scanned(b.grid, k).value) {
      var k :| 0 <= k < 49 && Scanned(b.grid, k).Some? && BadPiece(Scanned(b.grid, k).value);
      assert b.grid[k / 7][k % 7] == Scanned(b.grid, k);
    }
    if exists r, c :: 0 <= r < 7 && 0 <= c < 7 && b.grid[r][c].Some? && BadPiece(b.grid[r][c].value) {
      var r, c :| 0 <= r < 7 && 0 <= c < 7 && b.grid[r][c].Some? && BadPiece(b.grid[r][c].value);
      assert (7 * r + c) / 7 == r && (7 * r + c) % 7 == c;
      assert Scanned(b.grid, 7 * r + c) == b.grid[r][c];
    }
  }

  /** The evaluation stays far inside the `i32` range: at most the 49
      scanned squares' worth of `TallyBounds` on either side. */
  lemma TaperedFitsI32(color: Color, b: Board)
    requires IsGrid(b.grid)
    ensures Tapered(color, b).Ok? ==> -69825 <= Tapered(color, b).value <= 69825
  {
    TallyBounds(b.grid, 49);
    if TallyUpTo(b.grid, 49).Ok? {
      var t := TallyUpTo(b.grid, 49).value;
      var mg := if color == White then t.whiteMg - t.blackMg else t.blackMg - t.whiteMg;
      var eg := if color == White then t.whiteEg - t.blackEg else t.blackEg - t.whiteEg;
      BlendBetween(mg, eg, t.phase);
    }
  }

  /** The body of the inner loop of `eval_function` on one square. */
  method ScanSquare(t: Tally, sq: Option<Piece>, row: nat, col: nat) returns (r: Result<Tally>)
    requires row < 8 && col < 8
    ensures r == AddSquare(t, sq, row, col)
  {
    if sq.None? {
      return Ok(t);
    }
    var piece := sq.value;
    var gamePhase := t.phase + GamePhaseValue(piece.pieceType);
    match piece.color {
      case White =>
        var mg := MgTable(piece.pieceType);
        if mg.Panic? {
          return Panic;
        }
        var whiteMg := t.whiteMg + mg.value[row][col] + MgPieceValue(piece.pieceType);
        var eg := EgTable(piece.pieceType);
        var whiteEg := t.whiteEg + eg.value[row][col] + EgPieceValue(piece.pieceType);
        r := Ok(t.(whiteMg := whiteMg, whiteEg := whiteEg, phase := gamePhase));
      case Black =>
        var mg := MgTable(piece.pieceType);
        if mg.Panic? {
          return Panic;
        }
        var blackMg := t.blackMg + mg.value[7 - row][col] + MgPieceValue(piece.pieceType);
        var eg := EgTable(piece.pieceType);
        var blackEg := t.blackEg + eg.value[7 - row][col] + EgPieceValue(piece.pieceType);
        r := Ok(t.(blackMg := blackMg, blackEg := blackEg, phase := gamePhase));
      case NoColor =>
        return Panic;
    }
  }

  /** `eval_function`: the nested loops over rows and columns 0..6, then the
      blend. The `Minimax` argument is only read for its colour, passed here
      as `color`. */
  method EvalFunction(color: Color, cb: ChessBoard) returns (r: Result<int>)
    requires IsGrid(cb.board)
    ensures r == Tapered(color, cb.State())
  {
    var g := cb.board;
    var t := Tally(0, 0, 0, 0, 0);
    for row := 0 to 7
      invariant TallyUpTo(g, 7 * row) == Ok(t)
    {
      var next := ScanRow(g, row, t);
      if next.Panic? {
        return Panic;
      }
      t := next.value;
    }
    var mgScore, egScore;
    if color == White {
      mgScore := t.whiteMg - t.blackMg;
      egScore := t.whiteEg - t.blackEg;
    } else {
      mgScore := t.blackMg - t.whiteMg;
      egScore := t.blackEg - t.whiteEg;
    }
    var mgPhase := t.phase;
    if mgPhase > 24 {
      mgPhase := 24;
    }
    var egPhase := 24 - mgPhase;
    r := Ok(TruncDiv(mgScore * mgPhase + egScore * egPhase, 24));
    assert TallyUpTo(g, 49) == Ok(t);
    assert r == Ok(Blend(mgScore, egScore, t.phase));
  }

  /** The inner loop of `eval_function`: the squares of one row added to
      the accumulators, or a panic that the whole scan shares. */
  method ScanRow(g: Grid, row: nat, t: Tally) returns (r: Result<Tally>)
    requires IsGrid(g) && row < 7 && TallyUpTo(g, 7 * row) == Ok(t)
    ensures r.Panic? ==> TallyUpTo(g, 49).Panic?
    ensures r.Ok? ==> TallyUpTo(g, 7 * row + 7) == r
  {
    var acc := t;
    for col := 0 to 7
      invariant TallyUpTo(g, 7 * row + col) == Ok(acc)
    {
      TallyStep(g, row, col);
      var next := ScanSquare(acc, g[row][col], row, col);
      if next.Panic? {
        TallyPanicSticks(g, 7 * row + col + 1, 49);
        return Panic;
      }
      acc := next.value;
    }
    r := Ok(acc);
  }

  // ---------------------------------------------------------------------
  // `eval_function_old`
  // ---------------------------------------------------------------------

  /** The material values of `eval_function_old`; a King counts nothing. */
  function Worth(t: PieceType): int {
    match t
    case Rook => 500
    case Bishop => 330
    case Knight => 320
    case Queen => 900
    case Pawn => 100
    case King => 0
    case NoPiece => 0
  }

  function Material(ps: seq<Piece>): int {
    if ps == [] then 0 else Worth(ps[0].pieceType) + Material(ps[1..])
  }

  /** `eval_function_old`: a checkmate is worth `i32::MIN` to the side to
      move and `i32::MAX` to the other, a stalemate 10; otherwise the
      searching colour's material minus the material of the side not to
      move (`get_ennemy_pieces_by_color` ignores its colour argument). */
  function MaterialScore(color: Color, b: Board): Result<int>
    requires IsGrid(b.grid)
  {
    match b.partyState
    case CheckMate => Ok(if color == b.turn then I32Min else I32Max)
    case Pat => Ok(10)
    case _ =>
      var enemies :- EnemyPieces(b);
      var friends :- PiecesOf(b, color);
      Ok(Material(friends) - Material(enemies))
  }

  lemma {:induction false} MaterialBounds(ps: seq<Piece>)
    ensures 0 <= Material(ps) <= 900 * |ps|
  {
    if ps != [] {
      MaterialBounds(ps[1..]);
    }
  }

  /** When the searching colour is the side not to move, the friendly and
      the enemy pieces are the same list and the old evaluation is 0. */
  lemma MaterialBlindSpot(b: Board)
    requires IsGrid(b.grid) && b.turn != NoColor
    requires b.partyState != CheckMate && b.partyState != Pat
    ensures MaterialScore(NextTurn(b.turn), b).Ok? ==> MaterialScore(NextTurn(b.turn), b).value == 0
  {
  }

  /** On a valid board with a side to move, the old evaluation never
      panics for a real colour and lies between -900 and 900 per piece. */
  lemma MaterialScoreValid(color: Color, b: Board)
    requires Valid(b) && b.turn != NoColor && color != NoColor
    requires b.partyState != CheckMate && b.partyState != Pat
    ensures MaterialScore(color, b).Ok?
    ensures -900 * (|b.whitePositions| + |b.blackPositions|) <= MaterialScore(color, b).value
      <= 900 * (|b.whitePositions| + |b.blackPositions|)
  {
    PiecesOfValid(b, White);
    PiecesOfValid(b, Black);
    var enemies := EnemyPieces(b).value;
    var friends := PiecesOf(b, color).value;
    MaterialBounds(enemies);
    MaterialBounds(friends);
  }

  /** The accumulation loop of `eval_function_old` over one piece list. */
  method SumWorth(ps: seq<Piece>) returns (points: int)
    ensures points == Material(ps)
  {
    points := 0;
    assert ps[0..] == ps;
    for i := 0 to |ps|
      invariant points + Material(ps[i..]) == Material(ps)
    {
      assert ps[i..][1..] == ps[i + 1..];
      points := points + Worth(ps[i].pieceType);
    }
    assert ps[|ps|..] == [];
  }

  /** `eval_function_old`. */
  method EvalFunctionOld(color: Color, cb: ChessBoard) returns (r: Result<int>)
    requires IsGrid(cb.board)
    ensures r == MaterialScore(color, cb.State())
  {
    match cb.partyState {
      case CheckMate =>
        r := Ok(if color == cb.turn then I32Min else I32Max);
      case Pat =>
        r := Ok(10);
      case _ =>
        var enemies := cb.GetEnnemyPiecesByColor(color);
        if enemies.Panic? {
          return Panic;
        }
        var ennemyPoints := SumWorth(enemies.value);
        var friends := cb.GetFriendlyPiecesByColor(color);
        if friends.Panic? {
          return Panic;
        }
        var friendPoints := SumWorth(friends.value);
        r := Ok(friendPoints - ennemyPoints);
    }
  }
}
