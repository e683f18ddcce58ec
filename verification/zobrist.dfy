// Zobrist hashing of a board: a table of random 64-bit keys, one per
// square and piece index, and one key for "Black to move". The hash of a
// board is the exclusive or of the keys of the pieces it holds.

module Zobrist {
  import opened Wrappers
  import opened Pieces
  import opened Bits
  import Engine

  /** `ZobristTableStruct`: 64 rows (squares) of 12 keys (piece indices)
      and the key of Black's turn. */
  datatype ZobristTable = ZobristTable(table: seq<seq<u64>>, blackTurn: u64)

  predicate IsZobristTable(z: ZobristTable) {
    |z.table| == 64 && forall i :: 0 <= i < 64 ==> |z.table[i]| == 12
  }

  // ---------------------------------------------------------------------
  // `init_zobrist_table`
  // ---------------------------------------------------------------------

  /** The key `init_zobrist_table` leaves at `(i, j)`: the loops only fill
      `0..63` by `0..11`, in row-major order, so row 63 and column 11 keep
      the 0 of `vec![vec![0; 12]; 64]`. `draw(k)` is the `k`-th value the
      random generator yields. */
  function InitialKey(draw: nat -> u64, i: int, j: int): u64 {
    if 0 <= i < 63 && 0 <= j < 11 then draw(11 * i + j) else 0
  }

  /** The table `init_zobrist_table` builds from the draws `draw`; the key
      of Black's turn is the draw after the 693 table draws. */
  function InitTable(draw: nat -> u64): (z: ZobristTable)
    ensures IsZobristTable(z)
    ensures forall i, j :: 0 <= i < 64 && 0 <= j < 12 ==> z.table[i][j] == InitialKey(draw, i, j)
    ensures z.blackTurn == draw(693)
  {
    ZobristTable(seq(64, i => seq(12, j => InitialKey(draw, i, j))), draw(693))
  }

  /** `init_zobrist_table`: the nested loops draw one key per visited entry. */
  method InitZobristTable(draw: nat -> u64) returns (z: ZobristTable)
    ensures z == InitTable(draw)
  {
    var table := seq(64, _ => seq(12, _ => 0));
    var next := 0;
    for i := 0 to 63
      invariant |table| == 64 && forall a :: 0 <= a < 64 ==> |table[a]| == 12
      invariant next == 11 * i
      invariant forall a, b :: 0 <= a < 64 && 0 <= b < 12 ==>
        table[a][b] == (if a < i && b < 11 then draw(11 * a + b) else 0)
    {
      for j := 0 to 11
        invariant |table| == 64 && forall a :: 0 <= a < 64 ==> |table[a]| == 12
        invariant next == 11 * i + j
        invariant forall a, b :: 0 <= a < 64 && 0 <= b < 12 ==>
          table[a][b] == (if (a < i || (a == i && b < j)) && b < 11 then draw(11 * a + b) else 0)
      {
        table := table[i := table[i][j := draw(next)]];
        next := next + 1;
      }
    }
    var blackTurn := draw(next);
    z := ZobristTable(table, blackTurn);
    var spec := InitTable(draw);
    forall a | 0 <= a < 64
      ensures table[a] == spec.table[a]
    {
      assert forall b | 0 <= b < 12 :: table[a][b] == spec.table[a][b];
    }
  }

  // ---------------------------------------------------------------------
  // `zobrist_hash`
  // ---------------------------------------------------------------------

  /** The kind part of the piece index; a `NoPiece` kind panics. */
  function KindId(t: PieceType): (r: Result<nat>)
    ensures r.Panic? <==> t == NoPiece
    ensures r.Ok? ==> r.value <= 5
  {
    match t
    case Rook => Ok(0)
    case Bishop => Ok(1)
    case Knight => Ok(2)
    case Queen => Ok(3)
    case Pawn => Ok(4)
    case King => Ok(5)
    case NoPiece => Panic
  }

  /** The colour part of the piece index; a `NoColor` piece panics. */
  function ColorOffset(c: Color): (r: Result<nat>)
    ensures r.Panic? <==> c == NoColor
    ensures r.Ok? ==> r.value <= 1
  {
    match c
    case White => Ok(0)
    case Black => Ok(1)
    case NoColor => Panic
  }

  /** The piece index: kind id plus colour offset, at most 6. */
  function PieceIndex(p: Piece): (r: Result<nat>)
    ensures r.Panic? <==> BadPiece(p)
    ensures r.Ok? ==> r.value <= 6
  {
    var offset :- ColorOffset(p.color);
    var id :- KindId(p.pieceType);
    Ok(id + offset)
  }

  /** The key a scanned square contributes: none for an empty square, the
      entry `(8 * row + col, index)` for a piece. */
  function SquareKey(z: ZobristTable, sq: Option<Piece>, row: nat, col: nat): (r: Result<u64>)
    requires IsZobristTable(z) && row < 7 && col < 7
    ensures r.Panic? <==> sq.Some? && BadPiece(sq.value)
  {
    match sq
    case None => Ok(0)
    case Some(p) =>
      var index :- PieceIndex(p);
      Ok(z.table[row * 8 + col][index])
  }

  /** The keys of the first `n` scanned squares, in scan order. */
  function KeysUpTo(z: ZobristTable, g: Grid, n: nat): (r: Result<seq<u64>>)
    requires IsZobristTable(z) && IsGrid(g) && n <= 49
    ensures r.Ok? ==> |r.value| == n
  {
    if n == 0 then Ok([])
    else
      var ks :- KeysUpTo(z, g, n - 1);
      var k :- SquareKey(z, Scanned(g, n - 1), (n - 1) / 7, (n - 1) % 7);
      Ok(ks + [k])
  }

  /** The exclusive or of a sequence of keys. */
  function XorAll(ks: seq<u64>): u64 {
    if ks == [] then 0 else Xor(XorAll(ks[..|ks| - 1]), ks[|ks| - 1])
  }

  /** `zobrist_hash`: Black's turn key when Black is to move, then the keys
      of the pieces on rows and columns 0..6. */
  function BoardHash(z: ZobristTable, b: Board): Result<u64>
    requires IsZobristTable(z) && IsGrid(b.grid)
  {
    var ks :- KeysUpTo(z, b.grid, 49);
    Ok(if b.turn == Black then Xor(z.blackTurn, XorAll(ks)) else XorAll(ks))
  }

  lemma XorAllSnoc(ks: seq<u64>, k: u64)
    ensures XorAll(ks + [k]) == Xor(XorAll(ks), k)
  {
    assert (ks + [k])[..|ks|] == ks;
  }

  lemma XorAllStep(base: u64, ks: seq<u64>, k: u64)
    ensures Xor(base, XorAll(ks + [k])) == Xor(Xor(base, XorAll(ks)), k)
  {
    XorAllSnoc(ks, k);
    XorAssoc(base, XorAll(ks), k);
  }

  /** Replacing one key changes the exclusive or by the old and the new key. */
  lemma {:induction false} XorAllReplace(ks: seq<u64>, i: nat, k: u64)
    requires i < |ks|
    ensures XorAll(ks[i := k]) == Xor(Xor(XorAll(ks), ks[i]), k)
    decreases |ks|
  {
    var last := |ks| - 1;
    var ks2 := ks[i := k];
    var y := XorAll(ks[..last]);
    assert XorAll(ks) == Xor(y, ks[last]);
    if i == last {
      assert ks2[..last] == ks[..last];
      assert XorAll(ks2) == Xor(y, k);
      XorCancel(y, ks[last], k);
    } else {
      assert ks2[..last] == ks[..last][i := k];
      XorAllReplace(ks[..last], i, k);
      assert XorAll(ks2) == Xor(Xor(Xor(y, ks[i]), k), ks[last]);
      XorSwap(y, ks[i], k, ks[last]);
    }
  }

  lemma KeysStep(z: ZobristTable, g: Grid, row: nat, col: nat)
    requires IsZobristTable(z) && IsGrid(g) && row < 7 && col < 7
    ensures var n := 7 * row + col;
      && (KeysUpTo(z, g, n + 1).Ok? <==> KeysUpTo(z, g, n).Ok? && SquareKey(z, g[row][col], row, col).Ok?)
      && (KeysUpTo(z, g, n + 1).Ok? ==>
            KeysUpTo(z, g, n + 1).value == KeysUpTo(z, g, n).value + [SquareKey(z, g[row][col], row, col).value])
  {
    var n := 7 * row + col;
    ScannedAt(g, row, col);
    assert n / 7 == row && n % 7 == col;
  }

  /** A panic of the scan is never recovered from. */
  lemma {:induction false} KeysPanicSticks(z: ZobristTable, g: Grid, n: nat, m: nat)
    requires IsZobristTable(z) && IsGrid(g) && n <= m <= 49 && KeysUpTo(z, g, n).Panic?
    ensures KeysUpTo(z, g, m).Panic?
    decreases m
  {
    if n < m {
      KeysPanicSticks(z, g, n, m - 1);
    }
  }

  /** The body of the inner loop of `zobrist_hash`: the key of one square. */
  method SquareKeyOf(z: ZobristTable, sq: Option<Piece>, row: nat, col: nat) returns (r: Result<u64>)
    requires IsZobristTable(z) && row < 7 && col < 7
    ensures r == SquareKey(z, sq, row, col)
  {
    if sq.None? {
      return Ok(0);
    }
    var piece := sq.value;
    var index := row * 8 + col;
    var colorOffset;
    match piece.color {
      case White => colorOffset := 0;
      case Black => colorOffset := 1;
      case NoColor => return Panic;
    }
    var id;
    match piece.pieceType {
      case Rook => id := 0;
      case Bishop => id := 1;
      case Knight => id := 2;
      case Queen => id := 3;
      case Pawn => id := 4;
      case King => id := 5;
      case NoPiece => return Panic;
    }
    r := Ok(z.table[index][id + colorOffset]);
  }

  /** `zobrist_hash` as the loops compute it. An empty square adds the key
      0, which leaves the hash unchanged. */
  method ZobristHash(z: ZobristTable, cb: Engine.ChessBoard) returns (r: Result<u64>)
    requires IsZobristTable(z) && IsGrid(cb.board)
    ensures r == BoardHash(z, cb.State())
  {
    var g := cb.board;
    var hash: u64 := 0;
    if cb.turn == Black {
      hash := Xor(hash, z.blackTurn);
    }
    ghost var base := hash;
    ghost var ks: seq<u64> := [];
    XorZero(base);
    XorZero(z.blackTurn);
    for row := 0 to 7
      invariant KeysUpTo(z, g, 7 * row) == Ok(ks) && hash == Xor(base, XorAll(ks))
    {
      var next;
      next, ks := HashRow(z, g, row, hash, base, ks);
      if next.Panic? {
        return Panic;
      }
      hash := next.value;
    }
    XorZero(XorAll(ks));
    r := Ok(hash);
  }

  /** The inner loop of `zobrist_hash`: the keys of the scanned squares of
      one row folded into the running hash, or a panic that the whole scan
      shares. */
  method HashRow(z: ZobristTable, g: Grid, row: nat, hash: u64, ghost base: u64, ghost ks: seq<u64>)
    returns (r: Result<u64>, ghost ks': seq<u64>)
    requires IsZobristTable(z) && IsGrid(g) && row < 7
    requires KeysUpTo(z, g, 7 * row) == Ok(ks) && hash == Xor(base, XorAll(ks))
    ensures r.Panic? ==> KeysUpTo(z, g, 49).Panic?
    ensures r.Ok? ==> KeysUpTo(z, g, 7 * row + 7) == Ok(ks') && r.value == Xor(base, XorAll(ks'))
  {
    var h := hash;
    ks' := ks;
    ghost var n := 7 * row;
    for col := 0 to 7
      invariant n == 7 * row + col
      invariant KeysUpTo(z, g, n) == Ok(ks') && h == Xor(base, XorAll(ks'))
    {
      var next;
      next, ks' := HashSquare(z, g, row, col, h, base, ks');
      n := n + 1;
      if next.Panic? {
        return Panic, ks';
      }
      h := next.value;
    }
    r := Ok(h);
  }

  /** The body of the inner loop of `zobrist_hash`: the square's key folded
      into the running hash, or a panic that the whole scan shares. */
  method HashSquare(z: ZobristTable, g: Grid, row: nat, col: nat, h: u64, ghost base: u64, ghost ks: seq<u64>)
    returns (r: Result<u64>, ghost ks': seq<u64>)
    requires IsZobristTable(z) && IsGrid(g) && row < 7 && col < 7
    requires KeysUpTo(z, g, 7 * row + col) == Ok(ks) && h == Xor(base, XorAll(ks))
    ensures r.Panic? ==> KeysUpTo(z, g, 49).Panic?
    ensures r.Ok? ==> KeysUpTo(z, g, 7 * row + (col + 1)) == Ok(ks') && r.value == Xor(base, XorAll(ks'))
  {
    var key := SquareKeyOf(z, g[row][col], row, col);
    HashStep(z, g, row, col, base, ks, h);
    ks' := ks;
    if key.Panic? {
      return Panic, ks';
    }
    ks' := ks + [key.value];
    r := Ok(Xor(h, key.value));
  }

  /** One pass of the inner loop of `zobrist_hash`: a bad square makes the
      whole scan panic, any other square's key is appended and folded in. */
  lemma HashStep(z: ZobristTable, g: Grid, row: nat, col: nat, base: u64, ks: seq<u64>, h: u64)
    requires IsZobristTable(z) && IsGrid(g) && row < 7 && col < 7
    requires KeysUpTo(z, g, 7 * row + col) == Ok(ks) && h == Xor(base, XorAll(ks))
    ensures SquareKey(z, g[row][col], row, col).Panic? ==> KeysUpTo(z, g, 49).Panic?
    ensures SquareKey(z, g[row][col], row, col).Ok? ==>
      var k := SquareKey(z, g[row][col], row, col).value;
      && KeysUpTo(z, g, 7 * row + (col + 1)) == Ok(ks + [k])
      && Xor(h, k) == Xor(base, XorAll(ks + [k]))
  {
    KeysStep(z, g, row, col);
    var key := SquareKey(z, g[row][col], row, col);
    if key.Panic? {
      KeysPanicSticks(z, g, 7 * row + col + 1, 49);
    } else {
      XorAllStep(base, ks, key.value);
    }
  }

  // ---------------------------------------------------------------------
  // Properties of the hash
  // ---------------------------------------------------------------------

  /** The hash panics exactly when a scanned square holds a piece with no
      colour or no kind. */
  lemma {:induction false} KeysPanics(z: ZobristTable, g: Grid, n: nat)
    requires IsZobristTable(z) && IsGrid(g) && n <= 49
    ensures KeysUpTo(z, g, n).Panic? <==>
      exists k :: 0 <= k < n && Scanned(g, k).Some? && BadPiece(Scanned(g, k).value)
  {
    if n > 0 {
      KeysPanics(z, g, n - 1);
      if KeysUpTo(z, g, n - 1).Ok? {
        assert !exists k :: 0 <= k < n - 1 && Scanned(g, k).Some? && BadPiece(Scanned(g, k).value);
      }
    }
  }

  lemma BoardHashPanics(z: ZobristTable, b: Board)
    requires IsZobristTable(z) && IsGrid(b.grid)
    ensures BoardHash(z, b).Panic? <==>
      exists r, c :: 0 <= r < 7 && 0 <= c < 7 && b.grid[r][c].Some? && BadPiece(b.grid[r][c].value)
  {
    KeysPanics(z, b.grid, 49);
    if exists k :: 0 <= k < 49 && Scanned(b.grid, k).Some? && BadPiece(Scanned(b.grid, k).value) {
      var k :| 0 <= k < 49 && Scanned(b.grid, k).Some? && BadPiece(Scanned(b.grid, k).value);
      assert b.grid[k / 7][k % 7] == Scanned(b.grid, k);
    }
    if exists r, c :: 0 <= r < 7 && 0 <= c < 7 && b.grid[r][c].Some? && BadPiece(b.grid[r][c].value) {
      var r, c :| 0 <= r < 7 && 0 <= c < 7 && b.grid[r][c].Some? && BadPiece(b.grid[r][c].value);
      ScannedAt(b.grid, r, c);
    }
  }

  /** Pieces on row 7 or column 7 do not change the hash. */
  lemma {:induction false} KeysIgnoreEdge(z: ZobristTable, g1: Grid, g2: Grid, n: nat)
    requires IsZobristTable(z) && IsGrid(g1) && IsGrid(g2) && n <= 49
    requires forall r, c :: 0 <= r < 7 && 0 <= c < 7 ==> g1[r][c] == g2[r][c]
    ensures KeysUpTo(z, g1, n) == KeysUpTo(z, g2, n)
  {
    if n > 0 {
      KeysIgnoreEdge(z, g1, g2, n - 1);
      assert Scanned(g1, n - 1) == Scanned(g2, n - 1);
    }
  }

  lemma BoardHashIgnoresEdge(z: ZobristTable, b1: Board, b2: Board)
    requires IsZobristTable(z) && IsGrid(b1.grid) && IsGrid(b2.grid) && b1.turn == b2.turn
    requires forall r, c :: 0 <= r < 7 && 0 <= c < 7 ==> b1.grid[r][c] == b2.grid[r][c]
    ensures BoardHash(z, b1) == BoardHash(z, b2)
  {
    KeysIgnoreEdge(z, b1.grid, b2.grid, 49);
  }

  /** Handing the move to Black toggles exactly the turn key; any colour
      other than Black hashes as White does. */
  lemma TurnToggle(z: ZobristTable, b: Board, other: Color)
    requires IsZobristTable(z) && IsGrid(b.grid) && other != Black
    ensures BoardHash(z, b.(turn := Black)).Ok? <==> BoardHash(z, b.(turn := other)).Ok?
    ensures BoardHash(z, b.(turn := Black)).Ok? ==>
      BoardHash(z, b.(turn := Black)).value == Xor(BoardHash(z, b.(turn := other)).value, z.blackTurn)
  {
    if KeysUpTo(z, b.grid, 49).Ok? {
      XorComm(z.blackTurn, XorAll(KeysUpTo(z, b.grid, 49).value));
    }
  }

  /** Grids that agree on the first `n` scanned squares have the same first
      `n` keys. */
  lemma {:induction false} KeysAgree(z: ZobristTable, g: Grid, g2: Grid, n: nat)
    requires IsZobristTable(z) && IsGrid(g) && IsGrid(g2) && n <= 49
    requires forall k :: 0 <= k < n ==> Scanned(g2, k) == Scanned(g, k)
    ensures KeysUpTo(z, g2, n) == KeysUpTo(z, g, n)
  {
    if n > 0 {
      KeysAgree(z, g, g2, n - 1);
    }
  }

  /** Past the one scanned square where two grids differ, the keys of the
      second are those of the first with that square's key replaced. */
  lemma {:induction false} KeysPast(z: ZobristTable, g: Grid, g2: Grid, pos: nat, v: u64, n: nat)
    requires IsZobristTable(z) && IsGrid(g) && IsGrid(g2) && pos < n <= 49
    requires forall k :: 0 <= k < 49 && k != pos ==> Scanned(g2, k) == Scanned(g, k)
    requires SquareKey(z, Scanned(g, pos), pos / 7, pos % 7).Ok?
    requires SquareKey(z, Scanned(g2, pos), pos / 7, pos % 7) == Ok(v)
    ensures KeysUpTo(z, g2, n).Ok? <==> KeysUpTo(z, g, n).Ok?
    ensures KeysUpTo(z, g, n).Ok? ==> KeysUpTo(z, g2, n).value == KeysUpTo(z, g, n).value[pos := v]
    decreases n
  {
    var k := n - 1;
    if k == pos {
      KeysAgree(z, g, g2, pos);
      var before := KeysUpTo(z, g, pos);
      if before.Ok? {
        SnocUpdateLast(before.value, SquareKey(z, Scanned(g, pos), pos / 7, pos % 7).value, v);
      }
    } else {
      KeysPast(z, g, g2, pos, v, k);
      var before := KeysUpTo(z, g, k);
      var key := SquareKey(z, Scanned(g, k), k / 7, k % 7);
      if before.Ok? && key.Ok? {
        SnocUpdateInner(before.value, key.value, pos, v);
      }
    }
  }

  lemma SnocUpdateLast<T>(s: seq<T>, a: T, v: T)
    ensures (s + [a])[|s| := v] == s + [v]
  {
  }

  lemma SnocUpdateInner<T>(s: seq<T>, a: T, i: nat, v: T)
    requires i < |s|
    ensures (s + [a])[i := v] == s[i := v] + [a]
  {
  }

  /** Changing one scanned square replaces exactly that square's key. */
  lemma KeysReplace(z: ZobristTable, g: Grid, r: nat, c: nat, after: Option<Piece>, n: nat)
    requires IsZobristTable(z) && IsGrid(g) && r < 7 && c < 7 && n <= 49
    requires SquareKey(z, g[r][c], r, c).Ok? && SquareKey(z, after, r, c).Ok?
    ensures IsGrid(SetSquare(g, r, c, after))
    ensures KeysUpTo(z, SetSquare(g, r, c, after), n).Ok? <==> KeysUpTo(z, g, n).Ok?
    ensures KeysUpTo(z, g, n).Ok? ==>
      KeysUpTo(z, SetSquare(g, r, c, after), n).value ==
        if n <= 7 * r + c then KeysUpTo(z, g, n).value
        else KeysUpTo(z, g, n).value[7 * r + c := SquareKey(z, after, r, c).value]
  {
    var g2 := SetSquare(g, r, c, after);
    var pos := 7 * r + c;
    ScannedAt(g, r, c);
    ScannedAt(g2, r, c);
    forall k | 0 <= k < 49
      ensures Scanned(g2, k) == if k == pos then after else Scanned(g, k)
    {
      ScannedSet(g, r, c, after, k);
    }
    if n <= pos {
      KeysAgree(z, g, g2, n);
    } else {
      KeysPast(z, g, g2, pos, SquareKey(z, after, r, c).value, n);
    }
  }

  /** Scan index `k` of a grid with square (r, c) replaced. */
  lemma ScannedSet(g: Grid, r: nat, c: nat, after: Option<Piece>, k: nat)
    requires IsGrid(g) && r < 7 && c < 7 && k < 49
    ensures IsGrid(SetSquare(g, r, c, after))
    ensures Scanned(SetSquare(g, r, c, after), k) == if k == 7 * r + c then after else Scanned(g, k)
  {
    var kr, kc := k / 7, k % 7;
    assert k == 7 * kr + kc && kr < 7 && kc < 7;
    if k == 7 * r + c {
      ScannedAt(SetSquare(g, r, c, after), r, c);
    } else {
      assert kr != r || kc != c;
    }
  }

  /** The incremental property of Zobrist hashing: changing one scanned
      square changes the hash by the exclusive or of that square's old key
      and its new key. */
  lemma BoardHashReplace(z: ZobristTable, b: Board, r: nat, c: nat, after: Option<Piece>)
    requires IsZobristTable(z) && IsGrid(b.grid) && r < 7 && c < 7
    requires SquareKey(z, b.grid[r][c], r, c).Ok? && SquareKey(z, after, r, c).Ok?
    ensures IsGrid(SetSquare(b.grid, r, c, after))
    ensures BoardHash(z, b.(grid := SetSquare(b.grid, r, c, after))).Ok? <==> BoardHash(z, b).Ok?
    ensures BoardHash(z, b).Ok? ==>
      BoardHash(z, b.(grid := SetSquare(b.grid, r, c, after))).value ==
        Xor(Xor(BoardHash(z, b).value, SquareKey(z, b.grid[r][c], r, c).value), SquareKey(z, after, r, c).value)
  {
    KeysReplace(z, b.grid, r, c, after, 49);
    if KeysUpTo(z, b.grid, 49).Ok? {
      var ks := KeysUpTo(z, b.grid, 49).value;
      ScannedAt(b.grid, r, c);
      assert ks[7 * r + c] == SquareKey(z, b.grid[r][c], r, c).value by {
        KeysAt(z, b.grid, 49, 7 * r + c);
      }
      var oldKey, newKey := ks[7 * r + c], SquareKey(z, after, r, c).value;
      XorAllReplace(ks, 7 * r + c, newKey);
      XorAssoc(z.blackTurn, Xor(XorAll(ks), oldKey), newKey);
      XorAssoc(z.blackTurn, XorAll(ks), oldKey);
    }
  }

  /** Entry `k` of the keys is the key of scanned square `k`. */
  lemma {:induction false} KeysAt(z: ZobristTable, g: Grid, n: nat, k: nat)
    requires IsZobristTable(z) && IsGrid(g) && k < n <= 49 && KeysUpTo(z, g, n).Ok?
    ensures SquareKey(z, Scanned(g, k), k / 7, k % 7).Ok?
    ensures KeysUpTo(z, g, n).value[k] == SquareKey(z, Scanned(g, k), k / 7, k % 7).value
    decreases n
  {
    if k < n - 1 {
      KeysAt(z, g, n - 1, k);
    }
  }

  /** Every key the hash reads from an initialised table is one of the
      draws: square `8 * row + col` is at most 54 and the index at most 6,
      so row 63 and column 11, left at 0, are never read. */
  lemma KeysAreDrawn(draw: nat -> u64, p: Piece, row: nat, col: nat)
    requires row < 7 && col < 7 && !BadPiece(p)
    ensures SquareKey(InitTable(draw), Some(p), row, col) ==
      Ok(draw(11 * (8 * row + col) + PieceIndex(p).value))
  {
  }

  /** Index clash of `id + color_offset`: a White Bishop and a Black Rook on
      the same square read the same key (and so do a White Queen and a
      Black Knight, a White King and a Black Pawn). */
  lemma IndexClash(z: ZobristTable, row: nat, col: nat, p1: Position, p2: Position, m1: bool, m2: bool)
    requires IsZobristTable(z) && row < 7 && col < 7
    ensures SquareKey(z, Some(Piece(Bishop, p1, White, m1)), row, col) ==
            SquareKey(z, Some(Piece(Rook, p2, Black, m2)), row, col)
    ensures SquareKey(z, Some(Piece(Queen, p1, White, m1)), row, col) ==
            SquareKey(z, Some(Piece(Knight, p2, Black, m2)), row, col)
    ensures SquareKey(z, Some(Piece(King, p1, White, m1)), row, col) ==
            SquareKey(z, Some(Piece(Pawn, p2, Black, m2)), row, col)
  {
  }

  /** Only the kind and the colour of a piece enter its key, not its
      recorded position nor its `has_moved` flag. */
  lemma KeyIgnoresPositionAndMoved(z: ZobristTable, p: Piece, q: Piece, row: nat, col: nat)
    requires IsZobristTable(z) && row < 7 && col < 7
    requires p.pieceType == q.pieceType && p.color == q.color
    ensures SquareKey(z, Some(p), row, col) == SquareKey(z, Some(q), row, col)
  {
  }
}
