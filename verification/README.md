# A model of a small chess engine

This project models the core of a chess program written in Rust and proves
properties of the model.

- **The board.** An 8×8 grid of optional pieces, two lists of piece
  positions (one per colour), the last move, the game state and the side
  to move.
- **The move generator.** Pawn pushes, captures and en passant; sliding and
  stepping pieces walking their direction rays; castling; promotion. It
  also has an attack mode that tests whether a king is in check.
- **The status update.** After every move the game state is recomputed:
  check, checkmate, stalemate or unchanged.
- **The tapered evaluation.** Piece-square tables plus material values,
  blended by a game-phase counter. The older material-only evaluation is
  modelled too.
- **The hash.** A Zobrist hash of the board and a transposition table
  keyed by that hash.
- **The search.** Alpha-beta minimax without the table, and the variant
  that looks leaf evaluations up in the table. It has two entry points:
  the threaded root search and the single-threaded one. At an inner node
  the score is the maximum (searching colour to move) or the minimum of
  the scores of the children examined up to the first alpha-beta cut-off,
  and the move is that of the first child reaching it
  (`MinimaxSearch.SearchBest`, `MinimaxSearch.SearchBestV2`).
- **The parser.** The player's square notation read as a position.

Rust panics become the `Panic` case of a `Result`. This covers `unwrap`
on `None`, `panic!`, `todo!`, indexing out of bounds and `usize`
underflow, which panics in a debug build. Every operation returns
`Ok(value)` exactly when the Rust function returns normally.

The Rust `ChessBoard` is mutated in place. It is the class
`Engine.ChessBoard`, with the source's fields:

- the grid and the position lists are `seq` fields;
- every method is proved equal to a pure function of the board value
  `State()`;
- the properties are proved about those functions.

The pure Rust code (tables, piece values, the search recursion, the
parser) is written as functions. The loops of the source are methods with
loop invariants: board construction, the ray walk, the check test, the
evaluation and hash scans, and the thread loop.

Randomness is a parameter. `draw(k)` stands for the `k`-th `u64` the
random generator yields, so the key tables are functions of the draws.
The transposition table's `HashMap<u64, i32>` is a `map<u64, int>`.

In several places the code does less than a chess engine would be expected
to do. The model follows the code as written, and these points are proved
as lemmas:

- **Castling moves.** `get_castle_moves` scans the squares between king
  and rook, then returns an empty list. No castle move is ever generated
  (`LegalityFacts.CastleMovesEmpty`).
- **The King's directions.** The King's direction list leaves out the
  diagonal (1, 1) (`MoveFacts.KingNeverUpRight`).
- **Row 7 and column 7 are never read.** The evaluation and the hash loop
  over `0..7`, so a piece on the last row or the last column changes
  neither (`Evaluation.TaperedIgnoresEdge`, `Zobrist.BoardHashIgnoresEdge`).
- **Key indices collide.** The hash index is the kind number plus the
  colour offset, so only 7 of the 12 key columns are used. A White Bishop
  and a Black Rook share a key, and so do two other pairs
  (`Zobrist.IndexClash`).
- **Some keys stay 0.** `init_zobrist_table` fills only 63×11 of the 64×12
  keys (`Zobrist.InitTable`).
- **The enemy pieces ignore their colour argument.**
  `get_ennemy_pieces_by_color` returns the pieces of the side not to move,
  whatever colour it is given. So, outside checkmate and stalemate, the
  old evaluation is 0 whenever the searching colour is the side not to
  move (`Evaluation.MaterialBlindSpot`); in checkmate it is then
  `i32::MAX`, and in stalemate 10.
- **The row digit is not mirrored.** The parser's comment says the row
  digit is mirrored, but the code only subtracts one (`SquareParser.ParseSquare`).
- **The thread chunks.** The root search cuts the moves into chunks of
  `len / 4` moves. That can give five chunks, and fewer than four moves
  give a chunk size of zero, which panics (`MinimaxSearch.FewMovesPanic`).

## Model

| member | source | states |
|---|---|---|
| Pieces.SetSquare | src/chess_board.rs:57 | writing one square of the grid changes that square only and keeps the grid 8×8 |
| Pieces.SetSquareTwice | src/chess_board.rs:57 | a second write to the same square overrides the first |
| Pieces.NextTurn | src/chess_board.rs:249-251 | White passes the turn to Black; every other colour, `Color::None` included, passes it to White |
| Pieces.ScannedAt | src/evaluation.rs:242-244 | square (r, c) with r, c < 7 is visited at step 7r + c of the row-major scan over 0..7 |
| Pieces.NewBoardIsValid | src/chess_board.rs:1-10 | the initial board is consistent (lists agree with the grid, no duplicates, each piece records its own square); White to move, state normal, no last move; exactly rows 0, 1, 6 and 7 are occupied, by unmoved pieces, White on rows 0-1 and Black on rows 6-7 |
| Pieces.NewListWhite | src/chess_board.rs:134-154 | White's list of the new board holds exactly the squares of the initial White pieces |
| Pieces.NewListBlack | src/chess_board.rs:134-154 | Black's list of the new board holds exactly the squares of the initial Black pieces |
| BoardRules.IndexOf | src/chess_board.rs:266 | `iter().position`: -1 exactly when the position is absent, otherwise the first index holding it |
| BoardRules.RemoveFrom | src/chess_board.rs:263-283 | removing a position panics exactly when it is absent and otherwise shortens the list by one |
| BoardRules.RemoveFromDistinct | src/chess_board.rs:263-283 | on a list without duplicates, removal succeeds, keeps it duplicate-free and leaves exactly the other positions |
| BoardRules.CutDistinct | src/chess_board.rs:267 | `Vec::remove` at an index keeps the list duplicate-free and drops exactly that element |
| BoardRules.RemovePiece | src/chess_board.rs:263-283 | removing a piece's position touches only its colour's list; it panics exactly when the position is missing from that list; a colourless piece changes nothing |
| BoardRules.AddPiece | src/chess_board.rs:256-262 | adding a piece appends its position to its colour's list only; a colourless piece changes nothing |
| BoardRules.ApplyMove | src/chess_board.rs:163-247 | a move that completes records itself as the last move, passes the turn and keeps the game state |
| BoardRules.RemoveCapturedValid | src/chess_board.rs:203-210 | removing a captured piece from its list and its square keeps the board consistent |
| BoardRules.RelocateValid | src/chess_board.rs:206-212 | moving a piece to an empty square (list update, then the two grid writes) keeps the board consistent |
| BoardRules.MoveSquares | src/chess_board.rs:210-212 | after a piece is moved, the target holds it, the source is empty and every other square is unchanged |
| BoardRules.SnocDistinct | src/chess_board.rs:258-259 | appending a position not yet listed keeps the list duplicate-free |
| BoardRules.MovePieceSplit | src/chess_board.rs:201-242 | an ordinary move or a promotion first clears a captured piece, leaving a consistent board with an empty target, and then relocates the mover |
| BoardRules.MoveEffect | src/chess_board.rs:201-242 | an ordinary move or promotion between two squares of a consistent board succeeds and keeps it consistent; the target holds the mover, marked as moved and promoted if asked; the source is empty; nothing else changes |
| BoardRules.EmptySourcePanics | src/chess_board.rs:202-203 | a move from an empty square panics (`unwrap` on `None`) |
| BoardRules.CastleMissingPanics | src/chess_board.rs:168-198 | a castle whose king or rook square is off the board or empty panics |
| BoardRules.SameSquarePanics | src/chess_board.rs:201-221 | a move onto its own square panics: the mover is taken for a captured piece and removed twice |
| BoardRules.CastleSplit | src/chess_board.rs:165-200 | castling is the rook's relocation followed by the king's |
| BoardRules.TwoRelocations | src/chess_board.rs:165-200 | two relocations over four distinct squares place both pieces, empty both sources and leave every other square unchanged |
| BoardRules.CastleValid | src/chess_board.rs:165-200 | castling with an unobstructed king and rook keeps the board consistent |
| BoardRules.CastleEffect | src/chess_board.rs:165-200 | castling moves the rook to column 5 (king side) or rook column + 3, and the king two columns toward it, both marked as moved; the old squares are empty; nothing else changes |
| MoveRules.Directions | src/chess_board.rs:482-487 | no direction of any piece is (0, 0), so every ray walk ends |
| MoveRules.RayStep | src/chess_board.rs:495-539 | one step of a ray: an occupied square ends the ray, and yields a capture when the occupant is an enemy and is a King exactly in attack mode; an empty square yields a move outside attack mode, and the ray goes on except for Knight and King |
| MoveRules.PromotionMoves | src/chess_board.rs:397-402 | a pawn reaching the last rank has four moves, promoting to Queen, Rook, Bishop and Knight in that order |
| MoveRules.FirstKing | src/chess_board.rs:691-696 | the index of the first King in a piece list, or the list's length when it has none |
| MoveRules.UpdateParty | src/chess_board.rs:635-658 | the status update changes nothing but the game state |
| MoveRules.UpdateBoard | src/chess_board.rs:159-162 | applying a move and then the status update keeps the grid 8×8 |
| MoveRules.Simulate | src/chess_board.rs:664-689 | the simulation of a move on a clone keeps the grid 8×8 |
| MoveFacts.AlongShift | src/chess_board.rs:495-497 | k + 1 steps from a square are k steps from the next square |
| MoveFacts.ShiftWalk | src/chess_board.rs:495-539 | the squares along a ray, seen from the next square, are those of the ray shifted by one step |
| MoveFacts.RayHitShift | src/chess_board.rs:495-539 | a sliding piece over an empty first square reaches the k-th square of its ray exactly when the next square reaches its (k-1)-th |
| MoveFacts.HitNeedsFirstStep | src/chess_board.rs:495-539 | any square a ray reaches beyond the first needs an on-board, empty first square and a sliding piece |
| MoveFacts.RayStopCase | src/chess_board.rs:495-539 | a ray that stops at once (off the board, blocked, or a single-step piece) meets its characterisation |
| MoveFacts.RaySlideCase | src/chess_board.rs:495-539 | a ray that slides over an empty square meets its characterisation when the rest of the ray does |
| MoveFacts.RayExactly | src/chess_board.rs:489-541 | a ray holds exactly the ordinary moves to the squares it reaches: the empty squares before the first occupied one (outside attack mode), and that square when it holds an enemy that is a King exactly in attack mode |
| MoveFacts.DirMovesMembers | src/chess_board.rs:489-541 | the moves over a direction list are exactly the union of its rays |
| MoveFacts.NonPawnMoves | src/chess_board.rs:482-545 | a non-pawn piece never panics; its moves are ordinary moves from its square to exactly the squares its rays reach |
| MoveFacts.KingNeverUpRight | src/chess_board.rs:482-487 | the King never moves one row and one column up, because its direction list has no (1, 1) |
| MoveFacts.SingleStepMoves | src/chess_board.rs:482-541 | Knight and King moves go one direction vector from the piece's square |
| MoveFacts.AttackModeTargets | src/chess_board.rs:405-545 | in attack mode, every move lands on the board; an occupied target is an enemy King; a non-pawn move always targets an occupied square |
| MoveFacts.PawnPushRules | src/chess_board.rs:412-437 | pawn pushes go straight ahead onto empty squares: one row, or two rows for an unmoved pawn whose first square is empty; a push to the last rank is exactly the four promotions; conversely the one-row push onto an empty square is always generated first, the double step of an unmoved pawn over two empty squares is always generated, and a double step off the board panics |
| MoveFacts.PawnCaptureRules | src/chess_board.rs:438-479 | every move of a capture side goes from the pawn one row forward and `offset` columns sideways onto the board; an occupied target holds an enemy piece other than a King; a promotion lands on the back rank onto an occupied square |
| MoveFacts.PawnCaptureTargets | src/chess_board.rs:438-459 | conversely, an enemy piece other than a King on the diagonal is captured by exactly the four promotions Queen, Rook, Bishop, Knight in that order on the back rank and by exactly one ordinary move elsewhere; an own piece, an enemy King or a diagonal off the board give no move |
| MoveFacts.PawnAttackTargets | src/chess_board.rs:438-446 | in attack mode, an enemy King on an in-bounds diagonal gives exactly the ordinary move onto it; any other occupant, and a diagonal off the board, give no move |
| MoveFacts.PawnEnPassant | src/chess_board.rs:461-474 | onto an empty in-bounds diagonal: a panic exactly when the pawn's row is off the board; otherwise exactly the one ordinary move when the square beside the pawn holds an enemy pawn brought there by the last move, an ordinary two-row move, and no move otherwise |
| MoveFacts.PawnPromotions | src/chess_board.rs:409-481 | pawns never castle, and every pawn promotion lands on the last rank with a kind among Queen, Rook, Bishop, Knight |
| LegalityFacts.PiecesAtListed | src/chess_board.rs:303-316 | reading the squares of a list whose entries all hold pieces gives those pieces in list order |
| LegalityFacts.PiecesOfValid | src/chess_board.rs:303-316 | on a consistent board, a colour's pieces are read without panic, one per listed position, of that colour, each at its own square |
| LegalityFacts.GetKingValid | src/chess_board.rs:691-696 | on a consistent board, finding the king panics exactly when the mover's list has no King; otherwise it is the mover's King at its own square |
| LegalityFacts.AttacksMeaning | src/chess_board.rs:564-580 | the check scan reports true exactly when some non-King enemy has an attack-mode move onto the king's square, false when none has; it completes when every enemy's moves do |
| LegalityFacts.HitMeansKing | src/chess_board.rs:495-539 | an attack-mode move of a non-pawn piece lands on an enemy King |
| LegalityFacts.KeepSafeMembers | src/chess_board.rs:586-620 | filtering moves by simulation keeps exactly those after which the mover's king is not in check; it panics exactly when some simulation panics |
| LegalityFacts.KeepSafeOrdinaryMembers | src/chess_board.rs:664-689 | the escape filter keeps exactly the ordinary moves after which the king is not in check, and drops castles and promotions |
| LegalityFacts.OrdinaryStep | src/chess_board.rs:670-686 | one step of the escape filter keeps its characterisation |
| LegalityFacts.CastleMovesEmpty | src/chess_board.rs:347-396 | castle generation never returns a move, and panics for an unmoved king off the board |
| LegalityFacts.ScanInsideBoard | src/chess_board.rs:374-383 | scanning the squares between king and rook within the board never panics |
| LegalityFacts.CastleMovesValid | src/chess_board.rs:347-396 | for a king on the board outside column 0, castle generation returns the empty list without panic |
| LegalityFacts.PieceMovesRule | src/chess_board.rs:586-620 | a non-King piece's moves are its normal-mode moves unfiltered; the King's moves are exactly its normal-mode moves that leave it out of check |
| LegalityFacts.OtherMovesNoCastle | src/chess_board.rs:405-545 | normal and attack-mode generation never yield a castle |
| LegalityFacts.AllMovesOfMembers | src/chess_board.rs:586-620 | the moves of a piece list are exactly the union of each piece's moves, and complete exactly when each piece's do |
| LegalityFacts.AllMovesRule | src/chess_board.rs:586-620 | the moves out of check are exactly the union of the friendly pieces' moves, and contain no castle |
| LegalityFacts.SafeMovesOfMembers | src/chess_board.rs:664-689 | the escapes of a piece list are exactly its pieces' ordinary moves that leave the king out of check |
| LegalityFacts.SafeMovesRule | src/chess_board.rs:664-689 | the moves in check are exactly the friendly pieces' ordinary moves after which the king is not in check |
| LegalityFacts.UpdatePartyStatus | src/chess_board.rs:635-658 | the status update returns the side's moves; in check it sets checkmate when there are none and check otherwise; out of check it sets stalemate when there are none and otherwise keeps the state |
| Engine.ChessBoard.PlaceRow | src/chess_board.rs:134-154 | placing row i puts the initial pieces of that row on the grid and appends their squares to the lists, leaving the other rows unchanged |
| Engine.ChessBoard.PlaceSquare | src/chess_board.rs:135-153 | placing square (i, j) sets it to its initial piece and appends it to its colour's list |
| Engine.ChessBoard.constructor | src/chess_board.rs:130-157 | `new` builds the initial board (whose properties are `Pieces.NewBoardIsValid`) |
| Engine.ChessBoard.Clone | src/chess_board.rs:55 | a clone holds the same board value |
| Engine.ChessBoard.ChangeTurn | src/chess_board.rs:249-251 | passes the turn and changes nothing else |
| Engine.ChessBoard.ChangePartyState | src/chess_board.rs:660-662 | sets the game state and changes nothing else |
| Engine.ChessBoard.AddPiecePosition | src/chess_board.rs:256-262 | the new state is `AddPiece` of the old one |
| Engine.ChessBoard.RemoveFirst | src/chess_board.rs:266-276 | the loop finding and removing a position computes `RemoveFrom` |
| Engine.ChessBoard.RemovePiecePosition | src/chess_board.rs:263-283 | succeeds exactly when `RemovePiece` does, leaving its board |
| Engine.ChessBoard.Relocate | src/chess_board.rs:201-242 | the ordinary and promotion arms succeed exactly when `MovePiece` does, leaving its board |
| Engine.ChessBoard.CastleStepMove | src/chess_board.rs:181-191 | moving one castling piece succeeds exactly when `CastleStep` does, leaving its board |
| Engine.ChessBoard.CastleMove | src/chess_board.rs:165-200 | the castle arm succeeds exactly when `CastlePieces` does, leaving its board |
| Engine.ChessBoard.MakeAMove | src/chess_board.rs:163-247 | succeeds exactly when `ApplyMove` does, leaving its board (see `BoardRules.MoveEffect`, `BoardRules.CastleEffect`) |
| Engine.ChessBoard.PiecesOnSquares | src/chess_board.rs:306-314 | reads the pieces at a list of squares, panicking on an empty one |
| Engine.ChessBoard.GetFriendlyPiecesByColor | src/chess_board.rs:303-316 | returns the given colour's pieces (see `LegalityFacts.PiecesOfValid`) |
| Engine.ChessBoard.GetFriendlyPieces | src/chess_board.rs:318-331 | returns the pieces of the side to move, panicking for a colourless turn |
| Engine.ChessBoard.GetEnnemyPieces | src/chess_board.rs:332-345 | returns the pieces of the side not to move, panicking for a colourless turn |
| Engine.ChessBoard.GetEnnemyPiecesByColor | src/chess_board.rs:289-302 | returns the pieces of the side not to move, whatever colour it is given |
| Engine.ChessBoard.GetKing | src/chess_board.rs:691-696 | returns the first King of the side to move, or panics (see `LegalityFacts.GetKingValid`) |
| Engine.ChessBoard.ScanEmpty | src/chess_board.rs:354-362 | the between-squares scan panics exactly on an off-board column, and otherwise reports whether every scanned square is empty |
| Engine.ChessBoard.GetCastleMoves | src/chess_board.rs:347-396 | computes `CastleMoves`, always empty (see `LegalityFacts.CastleMovesEmpty`) |
| Engine.ChessBoard.PawnCaptureMoves | src/chess_board.rs:438-479 | computes one capture side of a pawn, `PawnCapture`: by `MoveFacts.PawnCaptureRules`, `PawnCaptureTargets` and `PawnEnPassant`, in normal mode exactly the captures of enemy pieces other than a King (four ordered promotions on the back rank) and the en passant captures; by `MoveFacts.PawnAttackTargets` and `PawnEnPassant`, in attack mode exactly the ordinary move onto an enemy King and the en passant captures |
| Engine.ChessBoard.GetPawnMoves | src/chess_board.rs:409-481 | computes a pawn's moves, `PawnMoves`: the pushes of `MoveFacts.PawnPushRules`, then the left and right capture sides of `MoveFacts.PawnCaptureTargets`, `MoveFacts.PawnAttackTargets` and `MoveFacts.PawnEnPassant`; attack mode has no pushes |
| Engine.ChessBoard.WalkRay | src/chess_board.rs:489-541 | the ray loop computes `Ray` (see `MoveFacts.RayExactly`) |
| Engine.ChessBoard.WalkDirections | src/chess_board.rs:489-541 | the direction loop computes the union of the rays (see `MoveFacts.DirMovesMembers`) |
| Engine.ChessBoard.GetOtherMoves | src/chess_board.rs:405-545 | computes a piece's moves in normal or attack mode (see `MoveFacts.NonPawnMoves`, `MoveFacts.AttackModeTargets`) |
| Engine.ChessBoard.IsKingInCheck | src/chess_board.rs:555-584 | computes the check test (see `LegalityFacts.AttacksMeaning`) |
| Engine.ChessBoard.Hits | src/chess_board.rs:565-577 | true exactly when a non-King piece has an ordinary move onto the square |
| Engine.ChessBoard.SimulateSafe | src/chess_board.rs:594-597 | the clone-apply-test of one move, as `LeavesKingSafe` |
| Engine.ChessBoard.KeepSafeMoves | src/chess_board.rs:592-610 | computes the King's move filter (see `LegalityFacts.KeepSafeMembers`) |
| Engine.ChessBoard.KeepSafeOrdinaryMoves | src/chess_board.rs:670-686 | computes the escape filter (see `LegalityFacts.KeepSafeOrdinaryMembers`) |
| Engine.ChessBoard.GetAllMoves | src/chess_board.rs:586-620 | computes the moves out of check (see `LegalityFacts.AllMovesRule`) |
| Engine.ChessBoard.FindSafeMoves | src/chess_board.rs:664-689 | computes the moves in check (see `LegalityFacts.SafeMovesRule`) |
| Engine.ChessBoard.GetPartyMoves | src/chess_board.rs:622-632 | the escapes when the side to move is in check, all its moves otherwise |
| Engine.ChessBoard.UpdateParty | src/chess_board.rs:635-658 | the new board and moves are those of `MoveRules.UpdateParty` (see `LegalityFacts.UpdatePartyStatus`) |
| Engine.ChessBoard.UpdateBoard | src/chess_board.rs:159-162 | the move followed by the status update, as `MoveRules.UpdateBoard` |
| PieceTables.MgPawnBounds | src/evaluation.rs:14-23 | the midgame pawn table is 8×8 with entries within ±200 |
| PieceTables.EgPawnBounds | src/evaluation.rs:26-35 | the endgame pawn table is 8×8 with entries within ±200 |
| PieceTables.MgKnightBounds | src/evaluation.rs:38-47 | the midgame knight table is 8×8 with entries within ±200 |
| PieceTables.EgKnightBounds | src/evaluation.rs:50-59 | the endgame knight table is 8×8 with entries within ±200 |
| PieceTables.MgBishopBounds | src/evaluation.rs:62-71 | the midgame bishop table is 8×8 with entries within ±200 |
| PieceTables.EgBishopBounds | src/evaluation.rs:74-83 | the endgame bishop table is 8×8 with entries within ±200 |
| PieceTables.MgRookBounds | src/evaluation.rs:86-95 | the midgame rook table is 8×8 with entries within ±200 |
| PieceTables.EgRookBounds | src/evaluation.rs:98-107 | the endgame rook table is 8×8 with entries within ±200 |
| PieceTables.MgQueenBounds | src/evaluation.rs:110-119 | the midgame queen table is 8×8 with entries within ±200 |
| PieceTables.EgQueenBounds | src/evaluation.rs:122-131 | the endgame queen table is 8×8 with entries within ±200 |
| PieceTables.MgKingBounds | src/evaluation.rs:134-143 | the midgame king table is 8×8 with entries within ±200 |
| PieceTables.EgKingBounds | src/evaluation.rs:146-155 | the endgame king table is 8×8 with entries within ±200 |
| PieceTables.MgTable | src/evaluation.rs:158-168 | `mg_table` panics exactly for `PieceType::None` and otherwise gives an 8×8 table within ±200 |
| PieceTables.EgTable | src/evaluation.rs:170-180 | `eg_table` panics exactly for `PieceType::None` and otherwise gives an 8×8 table within ±200 |
| PieceTables.MgPieceValue | src/evaluation.rs:200-210 | midgame material values lie in 0..1025 |
| PieceTables.EgPieceValue | src/evaluation.rs:212-222 | endgame material values lie in 0..1025 |
| PieceTables.GamePhaseValue | src/evaluation.rs:224-234 | phase weights lie in 0..4 |
| Evaluation.TruncDivRounds | src/evaluation.rs:278 | `i32` division rounds toward zero: the quotient times the divisor is within one divisor of the dividend, never beyond it, and has its sign |
| Evaluation.TruncDivNegate | src/evaluation.rs:278 | dividing a negated number gives the negated quotient |
| Evaluation.TruncDivMonotone | src/evaluation.rs:278 | division by 24 is monotone |
| Evaluation.TruncDivMultiple | src/evaluation.rs:278 | an exact multiple of 24 divides back to its factor |
| Evaluation.BlendBetween | src/evaluation.rs:271-278 | the tapered score lies between the midgame and endgame scores, is the midgame score from phase 24 on and the endgame score at phase 0 |
| Evaluation.BlendNegate | src/evaluation.rs:271-278 | negating both scores negates the tapered score |
| Evaluation.TallyStep | src/evaluation.rs:242-259 | each scanned square adds its piece to the running totals |
| Evaluation.TallyPanicSticks | src/evaluation.rs:242-259 | once the scan has panicked, a longer scan panics too |
| Evaluation.MirrorRule | src/evaluation.rs:247-254 | a Black piece on row 7 - r scores what a White piece of the same kind scores on row r |
| Evaluation.TallyPanics | src/evaluation.rs:242-259 | the scan panics exactly when a scanned square holds a colourless piece or one of kind `None` |
| Evaluation.TallyIgnoresEdge | src/evaluation.rs:242-243 | grids that agree on rows and columns 0..6 give the same totals |
| Evaluation.TallyBounds | src/evaluation.rs:242-259 | after n squares every score lies within -200n..1225n and the phase within 0..4n, so the `i32` sums never overflow |
| Evaluation.TaperedColorSymmetry | src/evaluation.rs:261-269 | the evaluation for Black, or for any colour other than White, is the negation of the evaluation for White |
| Evaluation.TaperedIgnoresEdge | src/evaluation.rs:242-243 | boards that agree on rows and columns 0..6 get the same evaluation |
| Evaluation.TaperedPanics | src/evaluation.rs:235-279 | `eval_function` panics exactly when a scanned square holds a colourless piece or one of kind `None` |
| Evaluation.TaperedFitsI32 | src/evaluation.rs:235-279 | the evaluation stays within ±69825, 49 squares' worth of the bounds of `TallyBounds` |
| Evaluation.ScanSquare | src/evaluation.rs:244-257 | one iteration of the scan computes `AddSquare` |
| Evaluation.ScanRow | src/evaluation.rs:243-258 | the column loop over one row extends the totals to the end of that row, or the whole scan panics |
| Evaluation.EvalFunction | src/evaluation.rs:235-279 | the nested loop computes the tapered evaluation `Tapered` (see the lemmas above) |
| Evaluation.MaterialBounds | src/evaluation.rs:304-311 | a list's material lies in 0..900 per piece |
| Evaluation.MaterialBlindSpot | src/evaluation.rs:300-324 | outside checkmate and stalemate, with White or Black to move, the old evaluation for the colour not to move is 0 when it completes: both counts read the same list |
| Evaluation.MaterialScoreValid | src/evaluation.rs:300-324 | on a consistent board the old evaluation never panics and lies within ±900 per listed piece |
| Evaluation.SumWorth | src/evaluation.rs:303-322 | the loop adds up the material of a piece list |
| Evaluation.EvalFunctionOld | src/evaluation.rs:283-329 | computes `MaterialScore`: `i32::MIN` or `i32::MAX` for checkmate against or for the searching colour, 10 for stalemate, otherwise the material difference |
| Bits.XorBound | src/zobrist.rs:57 | the exclusive or of two k-bit numbers has k bits, so `^` stays in `u64` |
| Bits.XorComm | src/zobrist.rs:57 | `^` is commutative |
| Bits.XorZero | src/zobrist.rs:33-36 | 0 is the identity of `^` |
| Bits.XorSelf | src/zobrist.rs:57 | a key cancels itself |
| Bits.XorAssoc | src/zobrist.rs:57 | `^` is associative, so the hash does not depend on the order of the keys |
| Bits.XorCancel | src/zobrist.rs:57 | the same key applied twice cancels |
| Bits.XorSwap | src/zobrist.rs:57 | a key may be moved past two others |
| Zobrist.InitTable | src/zobrist.rs:20-30 | the key table is 64×12; keys (i, j) with i < 63 and j < 11 are draws in row-major order, the others 0; Black's key is draw 693 |
| Zobrist.InitZobristTable | src/zobrist.rs:20-30 | the two loops build `InitTable` |
| Zobrist.KindId | src/zobrist.rs:48-55 | the kind number panics exactly for `PieceType::None` and is at most 5 |
| Zobrist.ColorOffset | src/zobrist.rs:42-46 | the colour offset panics exactly for `Color::None` and is at most 1 |
| Zobrist.PieceIndex | src/zobrist.rs:42-56 | a piece's key column panics exactly for a colourless or kind-`None` piece and is at most 6 |
| Zobrist.SquareKey | src/zobrist.rs:40-58 | an occupied square's key panics exactly for a colourless or kind-`None` piece |
| Zobrist.KeysUpTo | src/zobrist.rs:38-61 | the keys of the first n scanned squares are n keys |
| Zobrist.XorAllSnoc | src/zobrist.rs:57 | folding one more key is one more `^` |
| Zobrist.XorAllStep | src/zobrist.rs:57 | the running hash after one more key |
| Zobrist.XorAllReplace | src/zobrist.rs:57 | replacing one key of the fold removes the old key and adds the new one |
| Zobrist.KeysStep | src/zobrist.rs:38-61 | one more scanned square adds its key, or panics |
| Zobrist.KeysPanicSticks | src/zobrist.rs:38-61 | once the scan has panicked, a longer scan panics too |
| Zobrist.SquareKeyOf | src/zobrist.rs:40-58 | one iteration of the scan computes `SquareKey` |
| Zobrist.ZobristHash | src/zobrist.rs:32-63 | the loops compute `BoardHash`: Black's key when Black is to move, then the keys of the squares on rows and columns 0..6 |
| Zobrist.HashRow | src/zobrist.rs:39-60 | the column loop over one row folds that row's keys into the hash, or the whole scan panics |
| Zobrist.HashSquare | src/zobrist.rs:40-58 | one iteration of the inner loop folds the square's key into the running hash, or the whole scan panics |
| Zobrist.HashStep | src/zobrist.rs:40-58 | one square folded into the running hash |
| Zobrist.KeysPanics | src/zobrist.rs:38-61 | the scan panics exactly when a scanned square holds a colourless or kind-`None` piece |
| Zobrist.BoardHashPanics | src/zobrist.rs:32-63 | `zobrist_hash` panics exactly when a square on rows and columns 0..6 holds a colourless or kind-`None` piece |
| Zobrist.KeysIgnoreEdge | src/zobrist.rs:38-39 | grids that agree on rows and columns 0..6 give the same keys |
| Zobrist.BoardHashIgnoresEdge | src/zobrist.rs:38-39 | boards that agree on rows and columns 0..6 and on the turn hash alike |
| Zobrist.TurnToggle | src/zobrist.rs:35-37 | the hash with Black to move is the hash with any other side to move, xor Black's key |
| Zobrist.KeysAgree | src/zobrist.rs:38-61 | grids that agree on the first n scanned squares have the same first n keys |
| Zobrist.KeysPast | src/zobrist.rs:38-61 | grids differing in one scanned square have the same keys except at that square |
| Zobrist.KeysReplace | src/zobrist.rs:38-61 | writing one square replaces only that square's key in the scan |
| Zobrist.ScannedSet | src/zobrist.rs:40 | writing one square changes only that square's scan position |
| Zobrist.BoardHashReplace | src/zobrist.rs:32-63 | the incremental update: the hash after one square is rewritten is the old hash xor the old key xor the new key |
| Zobrist.KeysAt | src/zobrist.rs:38-61 | the k-th key of the scan is the key of the k-th scanned square |
| Zobrist.KeysAreDrawn | src/zobrist.rs:20-30 | with a fresh table, a piece's key is draw 11 × (8 × row + col) + its column |
| Zobrist.IndexClash | src/zobrist.rs:42-56 | a White Bishop and a Black Rook, a White Queen and a Black Knight, a White King and a Black Pawn have the same key on every square |
| Zobrist.KeyIgnoresPositionAndMoved | src/zobrist.rs:40-58 | a key depends only on the square and the piece's kind and colour, not on its stored position or moved flag |
| Transposition.Lookup | src/transposition_table.rs:28-30 | a lookup finds a value exactly when the hash is stored, and returns the stored value |
| Transposition.LookupInserted | src/transposition_table.rs:24-30 | reading back the value just inserted under a hash gives that value |
| Transposition.LookupOther | src/transposition_table.rs:24-30 | inserting under one hash leaves every other hash as it was |
| Transposition.TranspositionTable.constructor | src/transposition_table.rs:15-19 | a fresh key table from the draws and an empty map |
| Transposition.TranspositionTable.GetHash | src/transposition_table.rs:21-23 | the board's Zobrist hash |
| Transposition.TranspositionTable.InsertIntoTable | src/transposition_table.rs:24-26 | the map gains or overwrites one entry, and nothing else changes |
| Transposition.TranspositionTable.GetFromTable | src/transposition_table.rs:28-30 | the stored value under the hash, if any |
| SquareParser.DecimalDigit | src/main.rs:87 | `to_digit(10)` succeeds exactly on '0'..'9' and gives the digit's value |
| SquareParser.ParseChessPosition | src/main.rs:81-89 | the column is the first character's offset from 'a' (default 'a'), the row is the second character's digit minus one (default '1') |
| SquareParser.ParsePanics | src/main.rs:84-87 | parsing panics exactly on a column character below 'a' or a row character outside '1'..'9' |
| SquareParser.ParseSquare | src/main.rs:81-89 | a square `<a..h><1..8>` is read as the position of its offsets, which is on the board |
| SquareParser.ParseDefaults | src/main.rs:84-87 | an empty input is (0, 0) and a column alone is read on row 0 |
| SquareParser.ParseOffBoard | src/main.rs:81-89 | nothing checks the result: "a9" is read as row 8, off the board |
| MinimaxSearch.Narrow | src/minimax.rs:122-126 | a maximising node raises alpha to the best score when it is at least alpha, a minimising node lowers beta to it when below; depth and colour are kept |
| MinimaxSearch.Leaf | src/minimax.rs:158-168 | a leaf of `minimax` scores the evaluation for the searching colour and reports no move |
| MinimaxSearch.SearchFacts | src/minimax.rs:154-213 | `minimax` returns an evaluation, never a sentinel; it reports a move exactly at an inner node with moves, and that move is one of its moves |
| MinimaxSearch.LoopFacts | src/minimax.rs:174-210 | the child loop ends with an evaluation score and one of the node's moves |
| MinimaxSearch.ChildFacts | src/minimax.rs:176-179 | a child's score is an evaluation |
| MinimaxSearch.Pick | src/minimax.rs:180-183 | the best score after a child is the old best or the child's score, and neither is strictly better than it |
| MinimaxSearch.Best | src/minimax.rs:174-192 | the best of a start score and a sequence of scores is one of them, no score is strictly better than it, and it beats the start exactly when some score of the sequence does |
| MinimaxSearch.LoopOptimal | src/minimax.rs:174-210 | the child loop succeeds exactly when its examined children do; it returns the best of the start score and the examined scores, the start move when none is strictly better and otherwise the move of the first examined child reaching the result, and it examines children up to the first after which alpha >= beta, or all of them |
| MinimaxSearch.SearchBest | src/minimax.rs:170-212 | at an inner node `minimax` returns the largest of the examined children's scores when the searching colour is to move and the smallest otherwise, with the move of the first child reaching it, stopping at the first cut-off |
| MinimaxSearch.RunLeaf | src/minimax.rs:158-168 | computes `Leaf` |
| MinimaxSearch.RunMinimax | src/minimax.rs:154-213 | computes `Search`; at an inner node the score is the largest or smallest of the examined children's scores, the move that of the first child reaching it, and the children examined are those up to the first cut-off |
| MinimaxSearch.RunLoop | src/minimax.rs:174-210 | the child loop computes `SearchLoop` from the sentinel and no move, the result `LoopOptimal` describes |
| MinimaxSearch.RunChild | src/minimax.rs:176-179 | one child searched on a clone after `update_board` |
| MinimaxSearch.LeafV2 | src/minimax.rs:92-106 | a leaf of `minimax_v2` returns the stored score when the hash is in the table, and otherwise the evaluation, stored under the hash |
| MinimaxSearch.SearchV2Facts | src/minimax.rs:89-151 | as `SearchFacts`; in addition the table only grows, an entry once stored is never changed, and every stored score is an evaluation |
| MinimaxSearch.LoopV2Facts | src/minimax.rs:112-148 | as `LoopFacts`, the table only growing |
| MinimaxSearch.ChildV2Facts | src/minimax.rs:114-117 | a child's score is an evaluation and the table only grows |
| MinimaxSearch.LoopOptimalV2 | src/minimax.rs:112-148 | as `LoopOptimal` for the child loop of `minimax_v2`, each child seeing the table the previous one left |
| MinimaxSearch.SearchBestV2 | src/minimax.rs:108-150 | as `SearchBest` for `minimax_v2`, from a table holding only evaluations |
| MinimaxSearch.Scores | src/minimax.rs:89 | the score and move of a search with the table dropped |
| MinimaxSearch.RunLeafV2 | src/minimax.rs:92-106 | computes `LeafV2` and leaves its table in the transposition table |
| MinimaxSearch.RunMinimaxV2 | src/minimax.rs:89-151 | computes `SearchV2` and leaves its table in the transposition table; from a table holding only evaluations, an inner node returns the largest or smallest examined score with the move of the first child reaching it, stopping at the first cut-off |
| MinimaxSearch.RunLoopV2 | src/minimax.rs:112-148 | the child loop of `minimax_v2` computes `SearchLoopV2` and leaves its table, the result `LoopOptimalV2` describes |
| MinimaxSearch.RunChildV2 | src/minimax.rs:114-117 | one child of `minimax_v2` |
| MinimaxSearch.RootSearcher | src/minimax.rs:39-45 | the root searcher is at depth 0, searches 5 plies deep, for the side to move, with the widest window `i32::MIN`..`i32::MAX` |
| MinimaxSearch.ChunksPartition | src/minimax.rs:46 | `chunks` splits the moves into consecutive pieces that put back together give the moves, all of the chunk size but the last, which is not empty |
| MinimaxSearch.InChunk | src/minimax.rs:46 | a move of a chunk is one of the moves |
| MinimaxSearch.LastMaxFacts | src/minimax.rs:64-66 | `max_by_key` picks a result with the greatest score, and no later result reaches that score |
| MinimaxSearch.ReceivedMoves | src/minimax.rs:46-60 | every received result has an evaluation score and a move from one of the chunks |
| MinimaxSearch.FewMovesPanic | src/minimax.rs:38-46 | with fewer than four moves the chunk size is 0 and `start_minimax` panics |
| MinimaxSearch.StartSearchMove | src/minimax.rs:31-69 | when `start_minimax` returns, it returns a move of the side to move |
| MinimaxSearch.StartMonoMove | src/minimax.rs:71-85 | `start_minimax_mono` returns a move of the side to move exactly when there is one, and none when there are no moves |
| MinimaxSearch.BestReceived | src/minimax.rs:64-66 | the reduction loop computes `LastMax` |
| MinimaxSearch.RunThread | src/minimax.rs:48-57 | one thread runs `minimax_v2` over its chunk on a clone, from a fresh table with its own keys |
| MinimaxSearch.RunThreads | src/minimax.rs:46-60 | the thread loop gathers the results `Received` |
| MinimaxSearch.StartMinimax | src/minimax.rs:31-69 | computes `StartSearch` (see `StartSearchMove`) |
| MinimaxSearch.StartMinimaxMono | src/minimax.rs:71-85 | computes `StartMono` (see `StartMonoMove`) |

## Left out

- Threads and channels: `start_minimax` is modelled with the chunks searched one after another and the results received in chunk order. With ties between chunks, `max_by_key` picks the last one received, so the move chosen can depend on thread timing; the model fixes one order. A panicking thread sends nothing, which the model represents by leaving its result out.
- Random number generation: each thread's draws and the single-threaded search's draws are parameters (`draw`), so the key tables are functions of those draws; the generator itself is not modelled.
- `HashMap` is a map; hashing and memory are not modelled.
- Printing (`println!`), `print_board`, `read_user_input`, `main` and the game loop are not modelled: they are input and output around the core. `parse_chess_position`'s `println!` is left out for the same reason.
- The `is_king_in_check!` macro and the code commented out in the source are not modelled: nothing calls them.
- `get_piece_from_pos` and `is_any_piece` are written inline where they are used.
- Positions are unbounded naturals; the `usize` to `i32` casts in the move generator only matter for positions beyond 2^31 and are not modelled.
- MinimaxSearch.SearchV2Facts: does not state that `minimax_v2` returns what `minimax` returns. With the hash collisions of `Zobrist.IndexClash` and the unhashed row 7 and column 7, two different positions can share a hash, and a stored score is then returned for the wrong position.
- MinimaxSearch.Search: the model requires the depth to be at most the maximum depth. The source stops only when they are equal, and every caller starts at depth 0 below the maximum of 5.
- Evaluation.EvalFunctionOld: `i32` overflow of the material sums is not modelled; `Evaluation.MaterialScoreValid` bounds them far below `i32::MAX` on a consistent board.
- Engine.ChessBoard.GetCastleMoves: the moves the scan would collect are dropped by the source; the model keeps only the scan's panics and the empty result.
