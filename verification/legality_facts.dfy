/** What the legality filters and the game status of src/chess_board.rs
    keep and decide, proved about the functions of MoveRules. */
module LegalityFacts {
  import opened Wrappers
  import opened Pieces
  import opened BoardRules
  import opened MoveRules
  import opened MoveFacts

  // ---------------------------------------------------------------------
  // Piece lists on a valid board
  // ---------------------------------------------------------------------

  /** Every listed square holds a piece of colour `c` that records it. */
  ghost predicate ListedAs(g: Grid, list: seq<Position>, c: Color)
    requires IsGrid(g)
  {
    forall i :: 0 <= i < |list| ==> Holds(g, list[i], c) && g[list[i].row][list[i].col].value.position == list[i]
  }

  lemma {:induction false} PiecesAtListed(g: Grid, list: seq<Position>, c: Color)
    requires IsGrid(g) && ListedAs(g, list, c)
    ensures PiecesAt(g, list).Ok?
    ensures |PiecesAt(g, list).value| == |list|
    ensures forall i :: 0 <= i < |list| ==> PiecesAt(g, list).value[i] == g[list[i].row][list[i].col].value
  {
    if list != [] {
      assert Holds(g, list[0], c);
      PiecesAtListed(g, list[1..], c);
    }
  }

  /** On a valid board the pieces of White or Black are read without panic,
      one per listed square, in list order, each of that colour and
      recording its own square. */
  lemma PiecesOfValid(b: Board, c: Color)
    requires Valid(b) && c != NoColor
    ensures var list := if c == White then b.whitePositions else b.blackPositions;
      var r := PiecesOf(b, c);
      && r.Ok? && |r.value| == |list|
      && forall i :: 0 <= i < |list| ==>
           (Holds(b.grid, list[i], c) && b.grid[list[i].row][list[i].col] == Some(r.value[i]) &&
            r.value[i].color == c && r.value[i].position == list[i])
  {
    var list := if c == White then b.whitePositions else b.blackPositions;
    forall i | 0 <= i < |list| ensures Holds(b.grid, list[i], c) {
      assert list[i] in list;
    }
    PiecesAtListed(b.grid, list, c);
  }

  /** `get_king` on a valid board: it panics exactly when the side to move
      has no King on its listed squares; otherwise it returns the first such
      King, of the side to move, standing on its own square. */
  lemma GetKingValid(b: Board)
    requires Valid(b) && b.turn != NoColor
    ensures var list := if b.turn == White then b.whitePositions else b.blackPositions;
      && (GetKing(b).Panic? <==>
            !exists p :: p in list && OnBoard(p) && b.grid[p.row][p.col].Some? && b.grid[p.row][p.col].value.pieceType == King)
      && (GetKing(b).Ok? ==>
            var k := GetKing(b).value;
            && k.pieceType == King && k.color == b.turn && OnBoard(k.position)
            && b.grid[k.position.row][k.position.col] == Some(k))
  {
    PiecesOfValid(b, b.turn);
    var list := if b.turn == White then b.whitePositions else b.blackPositions;
    var ps := PiecesOf(b, b.turn).value;
    var i := FirstKing(ps);
    if i < |ps| {
      assert Holds(b.grid, list[i], b.turn);
      assert list[i] in list;
    } else {
      forall p | p in list && OnBoard(p) && b.grid[p.row][p.col].Some?
        ensures b.grid[p.row][p.col].value.pieceType != King
      {
        var j :| 0 <= j < |list| && list[j] == p;
        assert ps[j].pieceType != King;
      }
    }
  }

  // ---------------------------------------------------------------------
  // Check detection
  // ---------------------------------------------------------------------

  /** The early-return loop of `is_king_in_check` reports true exactly when
      some non-King piece, whose attack moves were generated without panic,
      hits the square; when all pieces' attack moves are generated it
      succeeds, and false means no non-King piece hits it. */
  lemma {:induction false} AttacksMeaning(b: Board, ps: seq<Piece>, t: Position)
    requires IsGrid(b.grid)
    ensures Attacks(b, ps, t) == Ok(true) ==>
      exists i :: 0 <= i < |ps| && ps[i].pieceType != King && OtherMoves(b, ps[i], true).Ok? &&
        HitsSquare(OtherMoves(b, ps[i], true).value, t)
    ensures Attacks(b, ps, t) == Ok(false) ==>
      forall i :: 0 <= i < |ps| ==> (OtherMoves(b, ps[i], true).Ok? &&
        (ps[i].pieceType != King ==> !HitsSquare(OtherMoves(b, ps[i], true).value, t)))
    ensures (forall i :: 0 <= i < |ps| ==> OtherMoves(b, ps[i], true).Ok?) ==> Attacks(b, ps, t).Ok?
  {
    if ps != [] {
      AttacksMeaning(b, ps[1..], t);
      var first := OtherMoves(b, ps[0], true);
      if first.Ok? && !(ps[0].pieceType != King && HitsSquare(first.value, t)) {
        if Attacks(b, ps, t) == Ok(true) {
          var i :| 0 <= i < |ps[1..]| && ps[1..][i].pieceType != King && OtherMoves(b, ps[1..][i], true).Ok? &&
            HitsSquare(OtherMoves(b, ps[1..][i], true).value, t);
          assert ps[1..][i] == ps[i + 1];
        }
        if Attacks(b, ps, t) == Ok(false) {
          forall i | 0 <= i < |ps| ensures OtherMoves(b, ps[i], true).Ok? &&
            (ps[i].pieceType != King ==> !HitsSquare(OtherMoves(b, ps[i], true).value, t))
          {
            if i > 0 {
              assert ps[i] == ps[1..][i - 1];
            }
          }
        }
        if forall i :: 0 <= i < |ps| ==> OtherMoves(b, ps[i], true).Ok? {
          forall i | 0 <= i < |ps[1..]| ensures OtherMoves(b, ps[1..][i], true).Ok? {
            assert ps[1..][i] == ps[i + 1];
          }
        }
      }
    }
  }

  /** An attack-mode move onto a square means an enemy King stands there or
      the square is empty, so a non-pawn can only "hit" the king square when
      it holds an enemy King. */
  lemma HitMeansKing(b: Board, piece: Piece, t: Position)
    requires IsGrid(b.grid) && piece.pieceType != Pawn
    requires OtherMoves(b, piece, true).Ok? && HitsSquare(OtherMoves(b, piece, true).value, t)
    ensures OnBoard(t) && b.grid[t.row][t.col].Some?
    ensures b.grid[t.row][t.col].value.pieceType == King && b.grid[t.row][t.col].value.color != piece.color
  {
    AttackModeTargets(b, piece);
  }

  // ---------------------------------------------------------------------
  // The legality filters
  // ---------------------------------------------------------------------

  /** The self-check filter keeps exactly the moves whose simulation leaves
      the king safe, and succeeds exactly when every simulation does. */
  lemma {:induction false} KeepSafeMembers(b: Board, ms: seq<ChessMove>)
    requires IsGrid(b.grid)
    ensures KeepSafe(b, ms).Ok? <==> forall i :: 0 <= i < |ms| ==> LeavesKingSafe(b, ms[i]).Ok?
    ensures KeepSafe(b, ms).Ok? ==>
      forall m :: m in KeepSafe(b, ms).value <==> m in ms && LeavesKingSafe(b, m) == Ok(true)
  {
    if ms != [] {
      KeepSafeMembers(b, ms[1..]);
      if forall i :: 0 <= i < |ms| ==> LeavesKingSafe(b, ms[i]).Ok? {
        forall i | 0 <= i < |ms[1..]| ensures LeavesKingSafe(b, ms[1..][i]).Ok? {
          assert ms[1..][i] == ms[i + 1];
        }
      }
      if KeepSafe(b, ms).Ok? {
        forall i | 0 <= i < |ms| ensures LeavesKingSafe(b, ms[i]).Ok? {
          if i > 0 {
            assert ms[i] == ms[1..][i - 1];
          }
        }
        assert ms == [ms[0]] + ms[1..];
      }
    }
  }

  /** `find_safe_moves`' filter keeps exactly the ordinary moves whose
      simulation leaves the king safe; other kinds are never simulated. */
  lemma {:induction false} KeepSafeOrdinaryMembers(b: Board, ms: seq<ChessMove>)
    requires IsGrid(b.grid)
    ensures KeepSafeOrdinary(b, ms).Ok? <==>
      forall i :: 0 <= i < |ms| && ms[i].OrdinaryMove? ==> LeavesKingSafe(b, ms[i]).Ok?
    ensures KeepSafeOrdinary(b, ms).Ok? ==>
      forall m :: m in KeepSafeOrdinary(b, ms).value <==>
        m in ms && m.OrdinaryMove? && LeavesKingSafe(b, m) == Ok(true)
  {
    if ms != [] {
      var tail := ms[1..];
      KeepSafeOrdinaryMembers(b, tail);
      assert forall i :: 0 < i < |ms| ==> ms[i] == tail[i - 1];
      assert forall m :: m in ms <==> m == ms[0] || m in tail;
      if !ms[0].OrdinaryMove? {
        assert KeepSafeOrdinary(b, ms) == KeepSafeOrdinary(b, tail);
      } else {
        OrdinaryStep(b, ms);
      }
    }
  }

  /** The step of KeepSafeOrdinaryMembers for an ordinary head move. */
  lemma OrdinaryStep(b: Board, ms: seq<ChessMove>)
    requires IsGrid(b.grid) && ms != [] && ms[0].OrdinaryMove?
    requires var tail := ms[1..];
      && (KeepSafeOrdinary(b, tail).Ok? <==>
            forall i :: 0 <= i < |tail| && tail[i].OrdinaryMove? ==> LeavesKingSafe(b, tail[i]).Ok?)
      && (KeepSafeOrdinary(b, tail).Ok? ==>
            forall m :: m in KeepSafeOrdinary(b, tail).value <==>
              m in tail && m.OrdinaryMove? && LeavesKingSafe(b, m) == Ok(true))
    ensures KeepSafeOrdinary(b, ms).Ok? <==>
      forall i :: 0 <= i < |ms| && ms[i].OrdinaryMove? ==> LeavesKingSafe(b, ms[i]).Ok?
    ensures KeepSafeOrdinary(b, ms).Ok? ==>
      forall m :: m in KeepSafeOrdinary(b, ms).value <==>
        m in ms && m.OrdinaryMove? && LeavesKingSafe(b, m) == Ok(true)
  {
    var tail := ms[1..];
    assert forall i :: 0 < i < |ms| ==> ms[i] == tail[i - 1];
    assert forall m :: m in ms <==> m == ms[0] || m in tail;
    if forall i :: 0 <= i < |ms| && ms[i].OrdinaryMove? ==> LeavesKingSafe(b, ms[i]).Ok? {
      forall i | 0 <= i < |tail| && tail[i].OrdinaryMove? ensures LeavesKingSafe(b, tail[i]).Ok? {
        assert tail[i] == ms[i + 1];
      }
    }
  }

  /** `get_castle_moves` never returns a move. */
  lemma CastleMovesEmpty(b: Board, king: Piece)
    requires IsGrid(b.grid)
    ensures CastleMoves(b, king).Ok? ==> CastleMoves(b, king).value == []
    ensures !king.hasMoved && king.position.row >= 8 ==> CastleMoves(b, king).Panic?
  {
  }

  /** A scan that stays within columns 0..8 never panics. */
  lemma {:induction false} ScanInsideBoard(row: seq<Option<Piece>>, start: int, end: int)
    requires |row| == 8 && 0 <= start && end <= 8
    ensures !ScanPanics(row, start, end)
    decreases end - start
  {
    if start < end && row[start].None? {
      ScanInsideBoard(row, start + 1, end);
    }
  }

  /** On a valid board the castle scan of a king standing on its own square
      outside column 0 never panics, so `get_castle_moves` yields nothing. */
  lemma CastleMovesValid(b: Board, king: Piece)
    requires Valid(b) && OnBoard(king.position) && king.position.col >= 1
    ensures CastleMoves(b, king) == Ok([])
  {
    if !king.hasMoved {
      var row := b.grid[king.position.row];
      if UnmovedRook(row[0]) {
        ScanInsideBoard(row, row[0].value.position.col + 1, king.position.col - 1);
      }
      if UnmovedRook(row[7]) {
        ScanInsideBoard(row, king.position.col + 1, row[7].value.position.col - 1);
      }
    }
  }

  /** One piece's share of `get_all_moves`: a King keeps exactly its
      generated moves that leave it safe (castles contribute nothing), any
      other piece keeps all its generated moves unfiltered. */
  lemma PieceMovesRule(b: Board, piece: Piece)
    requires IsGrid(b.grid)
    ensures PieceMoves(b, piece).Ok? ==> OtherMoves(b, piece, false).Ok?
    ensures PieceMoves(b, piece).Ok? && piece.pieceType != King ==>
      PieceMoves(b, piece).value == OtherMoves(b, piece, false).value
    ensures PieceMoves(b, piece).Ok? && piece.pieceType == King ==>
      forall m :: m in PieceMoves(b, piece).value <==>
        m in OtherMoves(b, piece, false).value && LeavesKingSafe(b, m) == Ok(true)
  {
    if piece.pieceType == King && OtherMoves(b, piece, false).Ok? {
      KeepSafeMembers(b, OtherMoves(b, piece, false).value);
      KeepSafeMembers(b, []);
    }
  }

  /** `get_other_moves` never produces a castle. */
  lemma OtherMovesNoCastle(b: Board, piece: Piece, checking: bool)
    requires IsGrid(b.grid)
    ensures OtherMoves(b, piece, checking).Ok? ==>
      forall m :: m in OtherMoves(b, piece, checking).value ==> !m.Castle?
  {
    if piece.pieceType != Pawn {
      NonPawnMoves(b, piece, checking);
    } else if checking {
      AttackModeTargets(b, piece);
    } else {
      PawnPromotions(b, piece);
    }
  }

  lemma {:induction false} AllMovesOfMembers(b: Board, ps: seq<Piece>)
    requires IsGrid(b.grid)
    ensures AllMovesOf(b, ps).Ok? <==> forall i :: 0 <= i < |ps| ==> PieceMoves(b, ps[i]).Ok?
    ensures AllMovesOf(b, ps).Ok? ==>
      forall m :: m in AllMovesOf(b, ps).value <==>
        exists i :: 0 <= i < |ps| && m in PieceMoves(b, ps[i]).value
  {
    if ps != [] {
      AllMovesOfMembers(b, ps[1..]);
      if forall i :: 0 <= i < |ps| ==> PieceMoves(b, ps[i]).Ok? {
        forall i | 0 <= i < |ps[1..]| ensures PieceMoves(b, ps[1..][i]).Ok? {
          assert ps[1..][i] == ps[i + 1];
        }
      }
      if AllMovesOf(b, ps).Ok? {
        forall i | 0 <= i < |ps| ensures PieceMoves(b, ps[i]).Ok? {
          if i > 0 {
            assert ps[i] == ps[1..][i - 1];
          }
        }
        forall m | m in AllMovesOf(b, ps).value ensures exists i :: 0 <= i < |ps| && m in PieceMoves(b, ps[i]).value {
          if m !in PieceMoves(b, ps[0]).value {
            var i :| 0 <= i < |ps[1..]| && m in PieceMoves(b, ps[1..][i]).value;
            assert ps[1..][i] == ps[i + 1];
          }
        }
        forall m, i | 0 <= i < |ps| && m in PieceMoves(b, ps[i]).value ensures m in AllMovesOf(b, ps).value {
          if i > 0 {
            assert ps[i] == ps[1..][i - 1];
          }
        }
      }
    }
  }

  /** `get_all_moves`: a move is returned exactly when some friendly piece
      contributes it (a King only its safe moves, any other piece all of
      its moves), and castling never appears. */
  lemma AllMovesRule(b: Board)
    requires IsGrid(b.grid)
    ensures AllMoves(b).Ok? ==>
      && FriendlyPieces(b).Ok?
      && (forall m :: m in AllMoves(b).value <==>
            exists i :: 0 <= i < |FriendlyPieces(b).value| && PieceMoves(b, FriendlyPieces(b).value[i]).Ok? &&
              m in PieceMoves(b, FriendlyPieces(b).value[i]).value)
      && (forall m :: m in AllMoves(b).value ==> !m.Castle?)
  {
    if AllMoves(b).Ok? {
      var ps := FriendlyPieces(b).value;
      AllMovesOfMembers(b, ps);
      forall m | m in AllMoves(b).value ensures !m.Castle? {
        var i :| 0 <= i < |ps| && m in PieceMoves(b, ps[i]).value;
        PieceMovesRule(b, ps[i]);
        OtherMovesNoCastle(b, ps[i], false);
      }
    }
  }

  lemma {:induction false} SafeMovesOfMembers(b: Board, ps: seq<Piece>)
    requires IsGrid(b.grid)
    ensures SafeMovesOf(b, ps).Ok? ==>
      forall m :: m in SafeMovesOf(b, ps).value <==>
        exists i :: 0 <= i < |ps| && OtherMoves(b, ps[i], false).Ok? &&
          m in OtherMoves(b, ps[i], false).value && m.OrdinaryMove? && LeavesKingSafe(b, m) == Ok(true)
  {
    if ps != [] && SafeMovesOf(b, ps).Ok? {
      SafeMovesOfMembers(b, ps[1..]);
      var moves := OtherMoves(b, ps[0], false).value;
      KeepSafeOrdinaryMembers(b, moves);
      forall m | m in SafeMovesOf(b, ps).value
        ensures exists i :: (0 <= i < |ps| && OtherMoves(b, ps[i], false).Ok? &&
          m in OtherMoves(b, ps[i], false).value && m.OrdinaryMove? && LeavesKingSafe(b, m) == Ok(true))
      {
        if m !in KeepSafeOrdinary(b, moves).value {
          var i :| 0 <= i < |ps[1..]| && OtherMoves(b, ps[1..][i], false).Ok? &&
            m in OtherMoves(b, ps[1..][i], false).value && m.OrdinaryMove? && LeavesKingSafe(b, m) == Ok(true);
          assert ps[1..][i] == ps[i + 1];
        }
      }
      forall m, i | 0 <= i < |ps| && OtherMoves(b, ps[i], false).Ok? &&
          m in OtherMoves(b, ps[i], false).value && m.OrdinaryMove? && LeavesKingSafe(b, m) == Ok(true)
        ensures m in SafeMovesOf(b, ps).value
      {
        if i > 0 {
          assert ps[i] == ps[1..][i - 1];
        }
      }
    }
  }

  /** `find_safe_moves`: exactly the ordinary moves of friendly pieces whose
      simulation leaves the king safe; promotions and castles are dropped. */
  lemma SafeMovesRule(b: Board)
    requires IsGrid(b.grid)
    ensures SafeMoves(b).Ok? ==>
      && FriendlyPieces(b).Ok?
      && forall m :: m in SafeMoves(b).value <==>
           exists i :: 0 <= i < |FriendlyPieces(b).value| &&
             OtherMoves(b, FriendlyPieces(b).value[i], false).Ok? &&
             m in OtherMoves(b, FriendlyPieces(b).value[i], false).value &&
             m.OrdinaryMove? && LeavesKingSafe(b, m) == Ok(true)
  {
    if SafeMoves(b).Ok? {
      SafeMovesOfMembers(b, FriendlyPieces(b).value);
    }
  }

  // ---------------------------------------------------------------------
  // Game status
  // ---------------------------------------------------------------------

  /** `_update_party` returns the moves of `get_party_moves`, changes only
      the party state, and sets it to CheckMate when in check without safe
      moves, Check when in check with some, Pat when not in check without
      moves, and leaves it alone when not in check with moves. */
  lemma UpdatePartyStatus(b: Board)
    requires IsGrid(b.grid)
    ensures UpdateParty(b).Ok? <==> PartyMoves(b).Ok?
    ensures UpdateParty(b).Ok? ==>
      var (b', ms) := UpdateParty(b).value;
      && InCheck(b).Ok? && ms == PartyMoves(b).value
      && b' == b.(partyState := b'.partyState)
      && (InCheck(b).value && ms == [] ==> b'.partyState == CheckMate)
      && (InCheck(b).value && ms != [] ==> b'.partyState == Check)
      && (!InCheck(b).value && ms == [] ==> b'.partyState == Pat)
      && (!InCheck(b).value && ms != [] ==> b'.partyState == b.partyState)
  {
  }
}
