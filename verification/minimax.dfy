// The alpha-beta search: `minimax`, `minimax_v2` (the same search, with
// leaf evaluations kept in a transposition table) and the two entry
// points that search the moves of the side to move.

module MinimaxSearch {
  import opened Wrappers
  import opened Pieces
  import opened Bits
  import MoveRules
  import opened Evaluation
  import opened Zobrist
  import opened Transposition
  import Engine

  /** The `Minimax` record: passed by value, so each call works on its own
      copy of the depth and of the alpha-beta window. */
  datatype Minimax = Minimax(depth: nat, maxDepth: nat, color: Color, alpha: int, beta: int)

  /** A score and the move that reached it, as the search returns them. */
  datatype Scored = Scored(score: int, best: Option<ChessMove>)

  /** The same, with the transposition table after the search. */
  datatype Probe = Probe(score: int, best: Option<ChessMove>, table: map<u64, int>)

  /** The score a node starts from: `i32::MIN` when the searching colour is
      to move (a maximising node), `i32::MAX` otherwise. */
  function Sentinel(maximizing: bool): int {
    if maximizing then I32Min else I32Max
  }

  /** The window update after a child: a maximising node raises `alpha` to
      the best score when that is at least `alpha`, a minimising node lowers
      `beta` to the best score when that is below `beta`. */
  function Narrow(s: Minimax, maximizing: bool, best: int): (r: Minimax)
    ensures r.depth == s.depth && r.maxDepth == s.maxDepth && r.color == s.color
    ensures maximizing ==> r.beta == s.beta && r.alpha == Max(s.alpha, best)
    ensures !maximizing ==> r.alpha == s.alpha && r.beta == Min(s.beta, best)
  {
    if maximizing then (if best >= s.alpha then s.(alpha := best) else s)
    else (if s.beta > best then s.(beta := best) else s)
  }

  /** Whether a child's score replaces the best so far: strictly greater in
      a maximising node, strictly smaller in a minimising one. */
  predicate Better(maximizing: bool, score: int, best: int) {
    if maximizing then score > best else score < best
  }

  /** The scores a search can return: those of `eval_function`. */
  predicate InRange(score: int) {
    -69825 <= score <= 69825
  }

  // ---------------------------------------------------------------------
  // `minimax`
  // ---------------------------------------------------------------------

  /** `minimax`: at the maximum depth, or with no moves, the evaluation of
      the board; otherwise the children searched one depth deeper, in the
      order of `moves`, until the window closes. */
  function Search(s: Minimax, b: Board, moves: seq<ChessMove>): Result<Scored>
    requires IsGrid(b.grid) && s.depth <= s.maxDepth
    decreases s.maxDepth - s.depth, 2, 0, 0
  {
    if s.depth == s.maxDepth || |moves| == 0 then Leaf(s.color, b)
    else
      var maximizing := b.turn == s.color;
      SearchLoop(s.(depth := s.depth + 1), b, moves, 0, maximizing, Sentinel(maximizing), None)
  }

  /** A leaf: the evaluation of the board for the searching colour, and no
      move. */
  function Leaf(color: Color, b: Board): (r: Result<Scored>)
    requires IsGrid(b.grid)
    ensures r.Ok? <==> Tapered(color, b).Ok?
    ensures r.Ok? ==> r.value == Scored(Tapered(color, b).value, None)
  {
    var score :- Tapered(color, b);
    Ok(Scored(score, None))
  }

  /** The loop over the moves from the `i`-th on, with the best score and
      move so far. */
  function SearchLoop(s: Minimax, b: Board, moves: seq<ChessMove>, i: nat, maximizing: bool,
                      bestScore: int, bestMove: Option<ChessMove>): Result<Scored>
    requires IsGrid(b.grid) && s.depth <= s.maxDepth && i <= |moves|
    decreases s.maxDepth - s.depth + 1, 1, |moves| - i, 1
  {
    if i == |moves| then Ok(Scored(bestScore, bestMove))
    else LoopTurn(s, b, moves, i, maximizing, bestScore, bestMove)
  }

  /** One turn of the loop: the `i`-th child is searched, the best score
      and move are replaced when it is better, the window is narrowed, and
      the loop stops once the window has closed. */
  function LoopTurn(s: Minimax, b: Board, moves: seq<ChessMove>, i: nat, maximizing: bool,
                    bestScore: int, bestMove: Option<ChessMove>): Result<Scored>
    requires IsGrid(b.grid) && s.depth <= s.maxDepth && i < |moves|
    decreases s.maxDepth - s.depth + 1, 1, |moves| - i, 0
  {
    var child :- ChildScore(s, b, moves[i]);
    var better := Better(maximizing, child.score, bestScore);
    var score := if better then child.score else bestScore;
    var move := if better then Some(moves[i]) else bestMove;
    var s2 := Narrow(s, maximizing, score);
    if s2.alpha >= s2.beta then Ok(Scored(score, move))
    else SearchLoop(s2, b, moves, i + 1, maximizing, score, move)
  }

  /** One child: the board after `update_board` on a clone, searched with
      the moves that call returns. */
  function ChildScore(s: Minimax, b: Board, m: ChessMove): Result<Scored>
    requires IsGrid(b.grid) && s.depth <= s.maxDepth
    decreases s.maxDepth - s.depth + 1, 0, 0, 0
  {
    var next :- MoveRules.UpdateBoard(b, m);
    Search(s, next.0, next.1)
  }

  /** An inner node is its loop over the moves, one depth below it. */
  lemma SearchInner(s: Minimax, b: Board, moves: seq<ChessMove>)
    requires IsGrid(b.grid) && s.depth < s.maxDepth && |moves| > 0
    ensures Search(s, b, moves) ==
      SearchLoop(s.(depth := s.depth + 1), b, moves, 0, b.turn == s.color, Sentinel(b.turn == s.color), None)
  {
  }

  /** The loop's turn in terms of the `i`-th child's score. */
  lemma LoopStep(s: Minimax, b: Board, moves: seq<ChessMove>, i: nat, maximizing: bool,
                 bestScore: int, bestMove: Option<ChessMove>, child: Result<Scored>)
    requires IsGrid(b.grid) && s.depth <= s.maxDepth && i < |moves|
    requires ChildScore(s, b, moves[i]) == child
    ensures child.Panic? ==> SearchLoop(s, b, moves, i, maximizing, bestScore, bestMove) == Panic
    ensures child.Ok? ==>
      var better := Better(maximizing, child.value.score, bestScore);
      var score := if better then child.value.score else bestScore;
      var move := if better then Some(moves[i]) else bestMove;
      var s2 := Narrow(s, maximizing, score);
      SearchLoop(s, b, moves, i, maximizing, bestScore, bestMove) ==
        if s2.alpha >= s2.beta then Ok(Scored(score, move))
        else SearchLoop(s2, b, moves, i + 1, maximizing, score, move)
  {
  }

  /** The loop invariant of a node: either no child has been searched yet
      (the sentinel, no move, and a move left to search), or the best move
      is one of the node's moves and the best score a real evaluation. */
  predicate LoopState(moves: seq<ChessMove>, i: nat, maximizing: bool, bestScore: int, bestMove: Option<ChessMove>) {
    || (bestMove.None? && bestScore == Sentinel(maximizing) && i < |moves|)
    || (bestMove.Some? && bestMove.value in moves && InRange(bestScore))
  }

  /** Every score the search returns is an evaluation, never one of the
      `i32` sentinels; an inner node always finds a best move, one of its
      moves, and a leaf never reports one. */
  lemma {:induction false} SearchFacts(s: Minimax, b: Board, moves: seq<ChessMove>)
    requires IsGrid(b.grid) && s.depth <= s.maxDepth
    ensures Search(s, b, moves).Ok? ==>
      var r := Search(s, b, moves).value;
      && InRange(r.score)
      && (r.best.Some? <==> s.depth < s.maxDepth && |moves| > 0)
      && (r.best.Some? ==> r.best.value in moves)
    decreases s.maxDepth - s.depth, 2, 0, 0
  {
    if s.depth == s.maxDepth || |moves| == 0 {
      TaperedFitsI32(s.color, b);
    } else {
      var maximizing := b.turn == s.color;
      SearchInner(s, b, moves);
      LoopFacts(s.(depth := s.depth + 1), b, moves, 0, maximizing, Sentinel(maximizing), None);
    }
  }

  lemma {:induction false} LoopFacts(s: Minimax, b: Board, moves: seq<ChessMove>, i: nat, maximizing: bool,
                                     bestScore: int, bestMove: Option<ChessMove>)
    requires IsGrid(b.grid) && s.depth <= s.maxDepth && i <= |moves|
    requires LoopState(moves, i, maximizing, bestScore, bestMove)
    ensures SearchLoop(s, b, moves, i, maximizing, bestScore, bestMove).Ok? ==>
      var r := SearchLoop(s, b, moves, i, maximizing, bestScore, bestMove).value;
      InRange(r.score) && r.best.Some? && r.best.value in moves
    decreases s.maxDepth - s.depth + 1, 1, |moves| - i, 1
  {
    if i < |moves| {
      ChildFacts(s, b, moves[i]);
      var child := ChildScore(s, b, moves[i]);
      LoopStep(s, b, moves, i, maximizing, bestScore, bestMove, child);
      if child.Ok? {
        var better := Better(maximizing, child.value.score, bestScore);
        var score := if better then child.value.score else bestScore;
        var move := if better then Some(moves[i]) else bestMove;
        var s2 := Narrow(s, maximizing, score);
        if s2.alpha < s2.beta {
          LoopFacts(s2, b, moves, i + 1, maximizing, score, move);
        }
      }
    }
  }

  lemma {:induction false} ChildFacts(s: Minimax, b: Board, m: ChessMove)
    requires IsGrid(b.grid) && s.depth <= s.maxDepth
    ensures ChildScore(s, b, m).Ok? ==> InRange(ChildScore(s, b, m).value.score)
    decreases s.maxDepth - s.depth + 1, 0, 0, 0
  {
    var next := MoveRules.UpdateBoard(b, m);
    if next.Ok? {
      SearchFacts(s, next.value.0, next.value.1);
    }
  }

  // ---------------------------------------------------------------------
  // What a node's loop computes: the best of the scores it examines
  // ---------------------------------------------------------------------

  /** The better of the best so far and a new score, the new one only when
      it is strictly better: the update of `best_score` in the loop. */
  function Pick(maximizing: bool, best: int, score: int): (r: int)
    ensures r == best || r == score
    ensures !Better(maximizing, score, r) && !Better(maximizing, best, r)
  {
    if Better(maximizing, score, best) then score else best
  }

  /** The best of `init` and of the scores `e`: their maximum in a maximising
      node, their minimum in a minimising one. */
  function Best(maximizing: bool, init: int, e: seq<int>): (r: int)
    ensures r == init || r in e
    ensures !Better(maximizing, init, r)
    ensures forall k :: 0 <= k < |e| ==> !Better(maximizing, e[k], r)
    ensures (exists k :: 0 <= k < |e| && Better(maximizing, e[k], init)) <==> Better(maximizing, r, init)
    decreases |e|
  {
    if |e| == 0 then init else Best(maximizing, Pick(maximizing, init, e[0]), e[1..])
  }

  /** The first index at which `e` holds `v`, or `|e|` when none does. */
  function FirstAt(e: seq<int>, v: int): (r: nat)
    ensures r <= |e| && (v in e <==> r < |e|)
    ensures r < |e| ==> e[r] == v
    ensures forall k :: 0 <= k < r ==> e[k] != v
    decreases |e|
  {
    if |e| == 0 then 0 else if e[0] == v then 0 else 1 + FirstAt(e[1..], v)
  }

  /** Whether the window closes once the best score so far is `best`. */
  predicate Closed(s: Minimax, maximizing: bool, best: int) {
    Narrow(s, maximizing, best).alpha >= Narrow(s, maximizing, best).beta
  }

  /** The scores of the children the loop of `minimax` searches from the
      `i`-th move on, in order, up to and including the one after which
      the window closes. */
  function Examined(s: Minimax, b: Board, moves: seq<ChessMove>, i: nat, maximizing: bool, bestScore: int): Result<seq<int>>
    requires IsGrid(b.grid) && s.depth <= s.maxDepth && i <= |moves|
    decreases |moves| - i
  {
    if i == |moves| then Ok([])
    else
      var child :- ChildScore(s, b, moves[i]);
      var score := Pick(maximizing, bestScore, child.score);
      if Closed(s, maximizing, score) then Ok([child.score])
      else
        var rest :- Examined(Narrow(s, maximizing, score), b, moves, i + 1, maximizing, score);
        Ok([child.score] + rest)
  }

  /** What the loop returns after examining the scores `e` from the `i`-th
      move on, starting from `bestScore` and `bestMove` and the window of
      `s`: at most one score per move, and at least one when a move is left;
      the best of `bestScore` and `e`; the starting move when no examined
      score is strictly better than `bestScore`, and otherwise the move of
      the first examined score equal to the result; and the loop stopped at
      the first score after which the window closed, or at the last move. */
  predicate LoopResult(s: Minimax, maximizing: bool, moves: seq<ChessMove>, i: nat, bestScore: int,
                       bestMove: Option<ChessMove>, e: seq<int>, score: int, best: Option<ChessMove>) {
    && i + |e| <= |moves|
    && (i < |moves| ==> 0 < |e|)
    && score == Best(maximizing, bestScore, e)
    && (!Better(maximizing, score, bestScore) ==> best == bestMove)
    && (Better(maximizing, score, bestScore) ==> FirstAt(e, score) < |e| && best == Some(moves[i + FirstAt(e, score)]))
    && (forall k :: 0 < k < |e| ==> !Closed(s, maximizing, Best(maximizing, bestScore, e[..k])))
    && (i + |e| < |moves| ==> Closed(s, maximizing, score))
  }

  /** The window only depends on the best score so far: narrowing twice,
      the second time with a score at least as good, is narrowing once. */
  lemma NarrowTwice(s: Minimax, maximizing: bool, x: int, y: int)
    requires !Better(maximizing, x, y)
    ensures Narrow(Narrow(s, maximizing, x), maximizing, y) == Narrow(s, maximizing, y)
  {
  }

  /** The loop's last turn: no move is left. */
  lemma LoopResultEnd(s: Minimax, maximizing: bool, moves: seq<ChessMove>, i: nat, bestScore: int, bestMove: Option<ChessMove>)
    requires i == |moves|
    ensures LoopResult(s, maximizing, moves, i, bestScore, bestMove, [], bestScore, bestMove)
  {
  }

  /** The loop's last turn: the window closes after the `i`-th child. */
  lemma LoopResultCut(s: Minimax, maximizing: bool, moves: seq<ChessMove>, i: nat, bestScore: int,
                      bestMove: Option<ChessMove>, c: int)
    requires i < |moves| && Closed(s, maximizing, Pick(maximizing, bestScore, c))
    ensures LoopResult(s, maximizing, moves, i, bestScore, bestMove, [c], Pick(maximizing, bestScore, c),
                       if Better(maximizing, c, bestScore) then Some(moves[i]) else bestMove)
  {
    assert [c][1..] == [];
  }

  /** A turn that leaves the window open: what the rest of the loop returns
      after its scores `e` is what the loop returns after `[c] + e`. */
  lemma LoopResultStep(s: Minimax, maximizing: bool, moves: seq<ChessMove>, i: nat, bestScore: int,
                       bestMove: Option<ChessMove>, c: int, e: seq<int>, score: int, best: Option<ChessMove>)
    requires i < |moves|
    requires !Closed(s, maximizing, Pick(maximizing, bestScore, c))
    requires LoopResult(Narrow(s, maximizing, Pick(maximizing, bestScore, c)), maximizing, moves, i + 1,
                        Pick(maximizing, bestScore, c),
                        if Better(maximizing, c, bestScore) then Some(moves[i]) else bestMove, e, score, best)
    ensures LoopResult(s, maximizing, moves, i, bestScore, bestMove, [c] + e, score, best)
  {
    var all := [c] + e;
    assert all[1..] == e;
    assert score == Best(maximizing, bestScore, all);
    StepMove(maximizing, moves, i, bestScore, bestMove, c, e, score, best);
    StepStop(s, maximizing, bestScore, c, e, score);
  }

  /** The move half of `LoopResultStep`. */
  lemma StepMove(maximizing: bool, moves: seq<ChessMove>, i: nat, bestScore: int,
                 bestMove: Option<ChessMove>, c: int, e: seq<int>, score: int, best: Option<ChessMove>)
    requires i < |moves| && i + 1 + |e| <= |moves|
    requires score == Best(maximizing, Pick(maximizing, bestScore, c), e)
    requires !Better(maximizing, score, Pick(maximizing, bestScore, c)) ==>
               best == if Better(maximizing, c, bestScore) then Some(moves[i]) else bestMove
    requires Better(maximizing, score, Pick(maximizing, bestScore, c)) ==>
               FirstAt(e, score) < |e| && best == Some(moves[i + 1 + FirstAt(e, score)])
    ensures !Better(maximizing, score, bestScore) ==> best == bestMove
    ensures Better(maximizing, score, bestScore) ==>
              FirstAt([c] + e, score) < |[c] + e| && best == Some(moves[i + FirstAt([c] + e, score)])
  {
    var p := Pick(maximizing, bestScore, c);
    var all := [c] + e;
    assert all[1..] == e;
    if Better(maximizing, c, bestScore) {
      if Better(maximizing, score, p) {
        assert score != c;
        assert FirstAt(all, score) == 1 + FirstAt(e, score);
      } else {
        assert FirstAt(all, score) == 0;
      }
    } else if Better(maximizing, score, bestScore) {
      assert score != c;
      assert FirstAt(all, score) == 1 + FirstAt(e, score);
    }
  }

  /** The stopping half of `LoopResultStep`: the window of the rest of the
      loop, narrowed once by `Pick(maximizing, bestScore, c)`, closes exactly
      where the window of the whole loop does. */
  lemma StepStop(s: Minimax, maximizing: bool, bestScore: int, c: int, e: seq<int>, score: int)
    requires !Closed(s, maximizing, Pick(maximizing, bestScore, c))
    requires score == Best(maximizing, Pick(maximizing, bestScore, c), e)
    requires forall k :: 0 < k < |e| ==>
      !Closed(Narrow(s, maximizing, Pick(maximizing, bestScore, c)), maximizing, Best(maximizing, Pick(maximizing, bestScore, c), e[..k]))
    ensures forall k :: 0 < k < |[c] + e| ==> !Closed(s, maximizing, Best(maximizing, bestScore, ([c] + e)[..k]))
    ensures Closed(Narrow(s, maximizing, Pick(maximizing, bestScore, c)), maximizing, score) ==> Closed(s, maximizing, score)
  {
    var p := Pick(maximizing, bestScore, c);
    var all := [c] + e;
    forall k | 0 < k < |all|
      ensures !Closed(s, maximizing, Best(maximizing, bestScore, all[..k]))
    {
      assert all[..k] == [c] + e[..k - 1];
      assert ([c] + e[..k - 1])[1..] == e[..k - 1];
      var y := Best(maximizing, p, e[..k - 1]);
      assert Best(maximizing, bestScore, all[..k]) == y;
      if k > 1 {
        NarrowTwice(s, maximizing, p, y);
      }
    }
    NarrowTwice(s, maximizing, p, score);
  }

  /** The root promise of a node: at least one child is examined, the score
      is one of the examined scores, the largest of them when the searching
      colour is to move and the smallest otherwise, and the move is that of
      the first examined child whose score it is. */
  predicate BestOfExamined(maximizing: bool, moves: seq<ChessMove>, e: seq<int>, r: Scored) {
    && 0 < |e| <= |moves|
    && r.score in e
    && (maximizing ==> forall k :: 0 <= k < |e| ==> e[k] <= r.score)
    && (!maximizing ==> forall k :: 0 <= k < |e| ==> r.score <= e[k])
    && FirstAt(e, r.score) < |moves|
    && r.best == Some(moves[FirstAt(e, r.score)])
  }

  /** Started from the sentinel and no move, a loop whose first examined
      score is an evaluation keeps the promise of a node: the sentinel is
      beaten by the first child already. */
  lemma FirstChildBetter(s: Minimax, maximizing: bool, moves: seq<ChessMove>, e: seq<int>, r: Scored)
    requires 0 < |moves| && LoopResult(s, maximizing, moves, 0, Sentinel(maximizing), None, e, r.score, r.best)
    requires InRange(e[0])
    ensures BestOfExamined(maximizing, moves, e, r)
  {
    assert Better(maximizing, e[0], Sentinel(maximizing));
  }

  /** The loop of `minimax` from the `i`-th move on returns the best of
      `bestScore` and of the scores it examines, with the move of the first
      examined score that reaches it, and stops at the first child after
      which the window closes. */
  lemma {:induction false} LoopOptimal(s: Minimax, b: Board, moves: seq<ChessMove>, i: nat, maximizing: bool,
                                       bestScore: int, bestMove: Option<ChessMove>)
    requires IsGrid(b.grid) && s.depth <= s.maxDepth && i <= |moves|
    ensures SearchLoop(s, b, moves, i, maximizing, bestScore, bestMove).Ok? <==>
            Examined(s, b, moves, i, maximizing, bestScore).Ok?
    ensures SearchLoop(s, b, moves, i, maximizing, bestScore, bestMove).Ok? ==>
      var r := SearchLoop(s, b, moves, i, maximizing, bestScore, bestMove).value;
      LoopResult(s, maximizing, moves, i, bestScore, bestMove, Examined(s, b, moves, i, maximizing, bestScore).value, r.score, r.best)
    decreases |moves| - i
  {
    if i == |moves| {
      LoopResultEnd(s, maximizing, moves, i, bestScore, bestMove);
    } else {
      var child := ChildScore(s, b, moves[i]);
      LoopStep(s, b, moves, i, maximizing, bestScore, bestMove, child);
      if child.Ok? {
        var c := child.value.score;
        var score := Pick(maximizing, bestScore, c);
        var move := if Better(maximizing, c, bestScore) then Some(moves[i]) else bestMove;
        var s2 := Narrow(s, maximizing, score);
        if Closed(s, maximizing, score) {
          LoopResultCut(s, maximizing, moves, i, bestScore, bestMove, c);
        } else {
          LoopOptimal(s2, b, moves, i + 1, maximizing, score, move);
          var rest := Examined(s2, b, moves, i + 1, maximizing, score);
          if rest.Ok? {
            var r := SearchLoop(s2, b, moves, i + 1, maximizing, score, move).value;
            LoopResultStep(s, maximizing, moves, i, bestScore, bestMove, c, rest.value, r.score, r.best);
          }
        }
      }
    }
  }

  /** The promise of `minimax` at an inner node: the score is the largest
      (searching colour to move) or the smallest (opponent to move) of the
      scores of the children it examines, and the move is that of the first
      child reaching it. */
  lemma SearchBest(s: Minimax, b: Board, moves: seq<ChessMove>)
    requires IsGrid(b.grid) && s.depth < s.maxDepth && |moves| > 0
    ensures Search(s, b, moves).Ok? ==>
      var maximizing := b.turn == s.color;
      var e := Examined(s.(depth := s.depth + 1), b, moves, 0, maximizing, Sentinel(maximizing));
      var r := Search(s, b, moves).value;
      && e.Ok? && BestOfExamined(maximizing, moves, e.value, r)
      && LoopResult(s.(depth := s.depth + 1), maximizing, moves, 0, Sentinel(maximizing), None, e.value, r.score, r.best)
  {
    var maximizing := b.turn == s.color;
    var s1 := s.(depth := s.depth + 1);
    SearchInner(s, b, moves);
    LoopOptimal(s1, b, moves, 0, maximizing, Sentinel(maximizing), None);
    if Search(s, b, moves).Ok? {
      ChildFacts(s1, b, moves[0]);
      var e := Examined(s1, b, moves, 0, maximizing, Sentinel(maximizing)).value;
      assert e[0] == ChildScore(s1, b, moves[0]).value.score;
      FirstChildBetter(s1, maximizing, moves, e, Search(s, b, moves).value);
    }
  }

  /** A leaf of `minimax`: the evaluation, and no move. */
  method RunLeaf(s: Minimax, cb: Engine.ChessBoard) returns (r: Result<Scored>)
    requires IsGrid(cb.board)
    ensures r == Leaf(s.color, cb.State())
  {
    var score := EvalFunction(s.color, cb);
    if score.Panic? {
      return Panic;
    }
    return Ok(Scored(score.value, None));
  }

  /** `minimax` on a board object: the children are searched on clones. */
  method RunMinimax(s: Minimax, cb: Engine.ChessBoard, moves: seq<ChessMove>) returns (r: Result<Scored>)
    requires IsGrid(cb.board) && s.depth <= s.maxDepth
    ensures r == Search(s, cb.State(), moves)
    ensures r.Ok? && s.depth < s.maxDepth && |moves| > 0 ==>
      var maximizing := cb.turn == s.color;
      var e := Examined(s.(depth := s.depth + 1), cb.State(), moves, 0, maximizing, Sentinel(maximizing));
      && e.Ok? && BestOfExamined(maximizing, moves, e.value, r.value)
      && LoopResult(s.(depth := s.depth + 1), maximizing, moves, 0, Sentinel(maximizing), None, e.value, r.value.score, r.value.best)
    decreases s.maxDepth - s.depth, 2
  {
    ghost var b := cb.State();
    if s.depth == s.maxDepth || |moves| == 0 {
      r := RunLeaf(s, cb);
    } else {
      SearchInner(s, b, moves);
      SearchBest(s, b, moves);
      var maximizing := cb.turn == s.color;
      r := RunLoop(s.(depth := s.depth + 1), cb, moves, maximizing);
    }
    assert cb.State() == b;
  }

  /** The loop of `minimax` over the moves of a node, one depth below it. */
  method RunLoop(s: Minimax, cb: Engine.ChessBoard, moves: seq<ChessMove>, maximizing: bool) returns (r: Result<Scored>)
    requires IsGrid(cb.board) && s.depth <= s.maxDepth
    ensures r == SearchLoop(s, cb.State(), moves, 0, maximizing, Sentinel(maximizing), None)
    decreases s.maxDepth - s.depth + 1, 1
  {
    ghost var b := cb.State();
    ghost var whole := SearchLoop(s, b, moves, 0, maximizing, Sentinel(maximizing), None);
    var node := s;
    var bestScore := Sentinel(maximizing);
    var bestMove: Option<ChessMove> := None;
    var i := 0;
    while i < |moves|
      invariant i <= |moves| && node.depth == s.depth && node.maxDepth == s.maxDepth
      invariant cb.State() == b
      invariant whole == SearchLoop(node, b, moves, i, maximizing, bestScore, bestMove)
      decreases |moves| - i
    {
      var child := RunChild(node, cb, moves[i]);
      assert cb.State() == b;
      LoopStep(node, b, moves, i, maximizing, bestScore, bestMove, child);
      if child.Panic? {
        return Panic;
      }
      if Better(maximizing, child.value.score, bestScore) {
        bestScore := child.value.score;
        bestMove := Some(moves[i]);
      }
      node := Narrow(node, maximizing, bestScore);
      if node.alpha >= node.beta {
        break;
      }
      i := i + 1;
    }
    r := Ok(Scored(bestScore, bestMove));
  }

  /** One child on a clone of the board. */
  method RunChild(s: Minimax, cb: Engine.ChessBoard, m: ChessMove) returns (r: Result<Scored>)
    requires IsGrid(cb.board) && s.depth <= s.maxDepth
    ensures r == ChildScore(s, cb.State(), m)
    decreases s.maxDepth - s.depth + 1, 0
  {
    var clone := new Engine.ChessBoard.Clone(cb);
    var next := clone.UpdateBoard(m);
    if next.Panic? {
      return Panic;
    }
    r := RunMinimax(s, clone, next.value);
  }

  // ---------------------------------------------------------------------
  // `minimax_v2`
  // ---------------------------------------------------------------------

  /** `minimax_v2`: as `minimax`, but a leaf is first looked up under its
      Zobrist hash; a hit returns the stored score, a miss evaluates the
      board and stores the score. The table is threaded through the search
      in the order the leaves are reached. */
  function SearchV2(s: Minimax, b: Board, moves: seq<ChessMove>, z: ZobristTable, tt: map<u64, int>): Result<Probe>
    requires IsGrid(b.grid) && s.depth <= s.maxDepth && IsZobristTable(z)
    decreases s.maxDepth - s.depth, 2, 0, 0
  {
    if s.depth == s.maxDepth || |moves| == 0 then LeafV2(s.color, b, z, tt)
    else
      var maximizing := b.turn == s.color;
      SearchLoopV2(s.(depth := s.depth + 1), b, moves, 0, maximizing, Sentinel(maximizing), None, z, tt)
  }

  /** A leaf of `minimax_v2`: the stored score on a hit, and the table
      unchanged; on a miss the evaluation, stored under the hash. */
  function LeafV2(color: Color, b: Board, z: ZobristTable, tt: map<u64, int>): (r: Result<Probe>)
    requires IsGrid(b.grid) && IsZobristTable(z)
    ensures r.Ok? <==> BoardHash(z, b).Ok? && (BoardHash(z, b).value in tt || Tapered(color, b).Ok?)
    ensures r.Ok? && BoardHash(z, b).value in tt ==> r.value == Probe(tt[BoardHash(z, b).value], None, tt)
    ensures r.Ok? && BoardHash(z, b).value !in tt ==>
      r.value == Probe(Tapered(color, b).value, None, tt[BoardHash(z, b).value := Tapered(color, b).value])
  {
    var hash :- BoardHash(z, b);
    match Lookup(tt, hash)
    case Some(score) => Ok(Probe(score, None, tt))
    case None =>
      var score :- Tapered(color, b);
      Ok(Probe(score, None, tt[hash := score]))
  }

  function SearchLoopV2(s: Minimax, b: Board, moves: seq<ChessMove>, i: nat, maximizing: bool,
                        bestScore: int, bestMove: Option<ChessMove>, z: ZobristTable, tt: map<u64, int>): Result<Probe>
    requires IsGrid(b.grid) && s.depth <= s.maxDepth && i <= |moves| && IsZobristTable(z)
    decreases s.maxDepth - s.depth + 1, 1, |moves| - i, 1
  {
    if i == |moves| then Ok(Probe(bestScore, bestMove, tt))
    else LoopTurnV2(s, b, moves, i, maximizing, bestScore, bestMove, z, tt)
  }

  function LoopTurnV2(s: Minimax, b: Board, moves: seq<ChessMove>, i: nat, maximizing: bool,
                      bestScore: int, bestMove: Option<ChessMove>, z: ZobristTable, tt: map<u64, int>): Result<Probe>
    requires IsGrid(b.grid) && s.depth <= s.maxDepth && i < |moves| && IsZobristTable(z)
    decreases s.maxDepth - s.depth + 1, 1, |moves| - i, 0
  {
    var child :- ChildScoreV2(s, b, moves[i], z, tt);
    var better := Better(maximizing, child.score, bestScore);
    var score := if better then child.score else bestScore;
    var move := if better then Some(moves[i]) else bestMove;
    var s2 := Narrow(s, maximizing, score);
    if s2.alpha >= s2.beta then Ok(Probe(score, move, child.table))
    else SearchLoopV2(s2, b, moves, i + 1, maximizing, score, move, z, child.table)
  }

  function ChildScoreV2(s: Minimax, b: Board, m: ChessMove, z: ZobristTable, tt: map<u64, int>): Result<Probe>
    requires IsGrid(b.grid) && s.depth <= s.maxDepth && IsZobristTable(z)
    decreases s.maxDepth - s.depth + 1, 0, 0, 0
  {
    var next :- MoveRules.UpdateBoard(b, m);
    SearchV2(s, next.0, next.1, z, tt)
  }

  lemma SearchInnerV2(s: Minimax, b: Board, moves: seq<ChessMove>, z: ZobristTable, tt: map<u64, int>)
    requires IsGrid(b.grid) && s.depth < s.maxDepth && |moves| > 0 && IsZobristTable(z)
    ensures SearchV2(s, b, moves, z, tt) ==
      SearchLoopV2(s.(depth := s.depth + 1), b, moves, 0, b.turn == s.color, Sentinel(b.turn == s.color), None, z, tt)
  {
  }

  lemma LoopStepV2(s: Minimax, b: Board, moves: seq<ChessMove>, i: nat, maximizing: bool,
                   bestScore: int, bestMove: Option<ChessMove>, z: ZobristTable, tt: map<u64, int>, child: Result<Probe>)
    requires IsGrid(b.grid) && s.depth <= s.maxDepth && i < |moves| && IsZobristTable(z)
    requires ChildScoreV2(s, b, moves[i], z, tt) == child
    ensures child.Panic? ==> SearchLoopV2(s, b, moves, i, maximizing, bestScore, bestMove, z, tt) == Panic
    ensures child.Ok? ==>
      var better := Better(maximizing, child.value.score, bestScore);
      var score := if better then child.value.score else bestScore;
      var move := if better then Some(moves[i]) else bestMove;
      var s2 := Narrow(s, maximizing, score);
      SearchLoopV2(s, b, moves, i, maximizing, bestScore, bestMove, z, tt) ==
        if s2.alpha >= s2.beta then Ok(Probe(score, move, child.value.table))
        else SearchLoopV2(s2, b, moves, i + 1, maximizing, score, move, z, child.value.table)
  {
  }

  /** Every value the table holds is an evaluation. */
  predicate TableInRange(tt: map<u64, int>) {
    forall h :: h in tt ==> InRange(tt[h])
  }

  /** The table only grows: an entry, once stored, is never changed. */
  predicate Extends(before: map<u64, int>, after: map<u64, int>) {
    forall h :: h in before ==> h in after && after[h] == before[h]
  }

  /** The facts of `SearchFacts` for `minimax_v2`, given a table that holds
      only evaluations; the search leaves such a table, and keeps every
      entry it started with. */
  lemma {:induction false} SearchV2Facts(s: Minimax, b: Board, moves: seq<ChessMove>, z: ZobristTable, tt: map<u64, int>)
    requires IsGrid(b.grid) && s.depth <= s.maxDepth && IsZobristTable(z) && TableInRange(tt)
    ensures SearchV2(s, b, moves, z, tt).Ok? ==>
      var r := SearchV2(s, b, moves, z, tt).value;
      && InRange(r.score)
      && (r.best.Some? <==> s.depth < s.maxDepth && |moves| > 0)
      && (r.best.Some? ==> r.best.value in moves)
      && TableInRange(r.table) && Extends(tt, r.table)
    decreases s.maxDepth - s.depth, 2, 0, 0
  {
    if s.depth == s.maxDepth || |moves| == 0 {
      TaperedFitsI32(s.color, b);
    } else {
      var maximizing := b.turn == s.color;
      SearchInnerV2(s, b, moves, z, tt);
      LoopV2Facts(s.(depth := s.depth + 1), b, moves, 0, maximizing, Sentinel(maximizing), None, z, tt);
    }
  }

  lemma {:induction false} LoopV2Facts(s: Minimax, b: Board, moves: seq<ChessMove>, i: nat, maximizing: bool,
                                       bestScore: int, bestMove: Option<ChessMove>, z: ZobristTable, tt: map<u64, int>)
    requires IsGrid(b.grid) && s.depth <= s.maxDepth && i <= |moves| && IsZobristTable(z) && TableInRange(tt)
    requires LoopState(moves, i, maximizing, bestScore, bestMove)
    ensures SearchLoopV2(s, b, moves, i, maximizing, bestScore, bestMove, z, tt).Ok? ==>
      var r := SearchLoopV2(s, b, moves, i, maximizing, bestScore, bestMove, z, tt).value;
      && InRange(r.score) && r.best.Some? && r.best.value in moves
      && TableInRange(r.table) && Extends(tt, r.table)
    decreases s.maxDepth - s.depth + 1, 1, |moves| - i, 1
  {
    if i < |moves| {
      ChildV2Facts(s, b, moves[i], z, tt);
      var child := ChildScoreV2(s, b, moves[i], z, tt);
      LoopStepV2(s, b, moves, i, maximizing, bestScore, bestMove, z, tt, child);
      if child.Ok? {
        var better := Better(maximizing, child.value.score, bestScore);
        var score := if better then child.value.score else bestScore;
        var move := if better then Some(moves[i]) else bestMove;
        var s2 := Narrow(s, maximizing, score);
        if s2.alpha < s2.beta {
          LoopV2Facts(s2, b, moves, i + 1, maximizing, score, move, z, child.value.table);
        }
      }
    }
  }

  lemma {:induction false} ChildV2Facts(s: Minimax, b: Board, m: ChessMove, z: ZobristTable, tt: map<u64, int>)
    requires IsGrid(b.grid) && s.depth <= s.maxDepth && IsZobristTable(z) && TableInRange(tt)
    ensures ChildScoreV2(s, b, m, z, tt).Ok? ==>
      var r := ChildScoreV2(s, b, m, z, tt).value;
      InRange(r.score) && TableInRange(r.table) && Extends(tt, r.table)
    decreases s.maxDepth - s.depth + 1, 0, 0, 0
  {
    var next := MoveRules.UpdateBoard(b, m);
    if next.Ok? {
      SearchV2Facts(s, next.value.0, next.value.1, z, tt);
    }
  }

  /** The scores of the children the loop of `minimax_v2` searches from the
      `i`-th move on, each child starting from the table the previous one
      left, up to and including the one after which the window closes. */
  function ExaminedV2(s: Minimax, b: Board, moves: seq<ChessMove>, i: nat, maximizing: bool, bestScore: int,
                      z: ZobristTable, tt: map<u64, int>): Result<seq<int>>
    requires IsGrid(b.grid) && s.depth <= s.maxDepth && i <= |moves| && IsZobristTable(z)
    decreases |moves| - i
  {
    if i == |moves| then Ok([])
    else
      var child :- ChildScoreV2(s, b, moves[i], z, tt);
      var score := Pick(maximizing, bestScore, child.score);
      if Closed(s, maximizing, score) then Ok([child.score])
      else
        var rest :- ExaminedV2(Narrow(s, maximizing, score), b, moves, i + 1, maximizing, score, z, child.table);
        Ok([child.score] + rest)
  }

  /** `LoopOptimal` for the loop of `minimax_v2`. */
  lemma {:induction false} LoopOptimalV2(s: Minimax, b: Board, moves: seq<ChessMove>, i: nat, maximizing: bool,
                                         bestScore: int, bestMove: Option<ChessMove>, z: ZobristTable, tt: map<u64, int>)
    requires IsGrid(b.grid) && s.depth <= s.maxDepth && i <= |moves| && IsZobristTable(z)
    ensures SearchLoopV2(s, b, moves, i, maximizing, bestScore, bestMove, z, tt).Ok? <==>
            ExaminedV2(s, b, moves, i, maximizing, bestScore, z, tt).Ok?
    ensures SearchLoopV2(s, b, moves, i, maximizing, bestScore, bestMove, z, tt).Ok? ==>
      var r := SearchLoopV2(s, b, moves, i, maximizing, bestScore, bestMove, z, tt).value;
      LoopResult(s, maximizing, moves, i, bestScore, bestMove, ExaminedV2(s, b, moves, i, maximizing, bestScore, z, tt).value,
                 r.score, r.best)
    decreases |moves| - i
  {
    if i == |moves| {
      LoopResultEnd(s, maximizing, moves, i, bestScore, bestMove);
    } else {
      var child := ChildScoreV2(s, b, moves[i], z, tt);
      LoopStepV2(s, b, moves, i, maximizing, bestScore, bestMove, z, tt, child);
      if child.Ok? {
        var c := child.value.score;
        var score := Pick(maximizing, bestScore, c);
        var move := if Better(maximizing, c, bestScore) then Some(moves[i]) else bestMove;
        var s2 := Narrow(s, maximizing, score);
        if Closed(s, maximizing, score) {
          LoopResultCut(s, maximizing, moves, i, bestScore, bestMove, c);
        } else {
          LoopOptimalV2(s2, b, moves, i + 1, maximizing, score, move, z, child.value.table);
          var rest := ExaminedV2(s2, b, moves, i + 1, maximizing, score, z, child.value.table);
          if rest.Ok? {
            var r := SearchLoopV2(s2, b, moves, i + 1, maximizing, score, move, z, child.value.table).value;
            LoopResultStep(s, maximizing, moves, i, bestScore, bestMove, c, rest.value, r.score, r.best);
          }
        }
      }
    }
  }

  /** The promise of `minimax_v2` at an inner node, given a table that holds
      only evaluations: the score is the largest or smallest of the scores
      of the children it examines, and the move that of the first child
      reaching it. */
  lemma SearchBestV2(s: Minimax, b: Board, moves: seq<ChessMove>, z: ZobristTable, tt: map<u64, int>)
    requires IsGrid(b.grid) && s.depth < s.maxDepth && |moves| > 0 && IsZobristTable(z) && TableInRange(tt)
    ensures SearchV2(s, b, moves, z, tt).Ok? ==>
      var maximizing := b.turn == s.color;
      var e := ExaminedV2(s.(depth := s.depth + 1), b, moves, 0, maximizing, Sentinel(maximizing), z, tt);
      var r := Scores(SearchV2(s, b, moves, z, tt)).value;
      && e.Ok? && BestOfExamined(maximizing, moves, e.value, r)
      && LoopResult(s.(depth := s.depth + 1), maximizing, moves, 0, Sentinel(maximizing), None, e.value, r.score, r.best)
  {
    var maximizing := b.turn == s.color;
    var s1 := s.(depth := s.depth + 1);
    SearchInnerV2(s, b, moves, z, tt);
    LoopOptimalV2(s1, b, moves, 0, maximizing, Sentinel(maximizing), None, z, tt);
    if SearchV2(s, b, moves, z, tt).Ok? {
      ChildV2Facts(s1, b, moves[0], z, tt);
      var e := ExaminedV2(s1, b, moves, 0, maximizing, Sentinel(maximizing), z, tt).value;
      assert e[0] == ChildScoreV2(s1, b, moves[0], z, tt).value.score;
      FirstChildBetter(s1, maximizing, moves, e, Scores(SearchV2(s, b, moves, z, tt)).value);
    }
  }

  /** The search result without the table. */
  function Scores(p: Result<Probe>): (r: Result<Scored>)
    ensures r.Ok? <==> p.Ok?
    ensures r.Ok? ==> r.value.score == p.value.score && r.value.best == p.value.best
  {
    var v :- p;
    Ok(Scored(v.score, v.best))
  }

  /** A leaf of `minimax_v2` on the table object. */
  method RunLeafV2(color: Color, cb: Engine.ChessBoard, tt: TranspositionTable) returns (r: Result<Scored>)
    requires IsGrid(cb.board) && IsZobristTable(tt.zobrist)
    modifies tt
    ensures r == Scores(LeafV2(color, cb.State(), tt.zobrist, old(tt.hashMap)))
    ensures r.Ok? ==> tt.hashMap == LeafV2(color, cb.State(), tt.zobrist, old(tt.hashMap)).value.table
  {
    var hash := tt.GetHash(cb);
    if hash.Panic? {
      return Panic;
    }
    var found := tt.GetFromTable(hash.value);
    if found.Some? {
      return Ok(Scored(found.value, None));
    }
    var score := EvalFunction(color, cb);
    if score.Panic? {
      return Panic;
    }
    tt.InsertIntoTable(hash.value, score.value);
    return Ok(Scored(score.value, None));
  }

  /** `minimax_v2` on a board object and a transposition table object. */
  method RunMinimaxV2(s: Minimax, cb: Engine.ChessBoard, moves: seq<ChessMove>, tt: TranspositionTable)
    returns (r: Result<Scored>)
    requires IsGrid(cb.board) && s.depth <= s.maxDepth && IsZobristTable(tt.zobrist)
    modifies tt
    ensures r == Scores(SearchV2(s, cb.State(), moves, tt.zobrist, old(tt.hashMap)))
    ensures r.Ok? ==> tt.hashMap == SearchV2(s, cb.State(), moves, tt.zobrist, old(tt.hashMap)).value.table
    ensures r.Ok? && s.depth < s.maxDepth && |moves| > 0 && TableInRange(old(tt.hashMap)) ==>
      var maximizing := cb.turn == s.color;
      var e := ExaminedV2(s.(depth := s.depth + 1), cb.State(), moves, 0, maximizing, Sentinel(maximizing), tt.zobrist, old(tt.hashMap));
      && e.Ok? && BestOfExamined(maximizing, moves, e.value, r.value)
      && LoopResult(s.(depth := s.depth + 1), maximizing, moves, 0, Sentinel(maximizing), None, e.value, r.value.score, r.value.best)
    decreases s.maxDepth - s.depth, 2
  {
    ghost var b := cb.State();
    if s.depth == s.maxDepth || |moves| == 0 {
      r := RunLeafV2(s.color, cb, tt);
    } else {
      SearchInnerV2(s, b, moves, tt.zobrist, tt.hashMap);
      if TableInRange(tt.hashMap) {
        SearchBestV2(s, b, moves, tt.zobrist, tt.hashMap);
      }
      var maximizing := cb.turn == s.color;
      r := RunLoopV2(s.(depth := s.depth + 1), cb, moves, maximizing, tt);
    }
    assert cb.State() == b;
  }

  /** The loop of `minimax_v2` over the moves of a node. */
  method RunLoopV2(s: Minimax, cb: Engine.ChessBoard, moves: seq<ChessMove>, maximizing: bool, tt: TranspositionTable)
    returns (r: Result<Scored>)
    requires IsGrid(cb.board) && s.depth <= s.maxDepth && IsZobristTable(tt.zobrist)
    modifies tt
    ensures r == Scores(SearchLoopV2(s, cb.State(), moves, 0, maximizing, Sentinel(maximizing), None, tt.zobrist, old(tt.hashMap)))
    ensures r.Ok? ==>
      tt.hashMap == SearchLoopV2(s, cb.State(), moves, 0, maximizing, Sentinel(maximizing), None, tt.zobrist, old(tt.hashMap)).value.table
    decreases s.maxDepth - s.depth + 1, 1
  {
    ghost var b := cb.State();
    ghost var tt0 := tt.hashMap;
    ghost var whole := SearchLoopV2(s, b, moves, 0, maximizing, Sentinel(maximizing), None, tt.zobrist, tt0);
    var node := s;
    var bestScore := Sentinel(maximizing);
    var bestMove: Option<ChessMove> := None;
    var i := 0;
    while i < |moves|
      invariant i <= |moves| && node.depth == s.depth && node.maxDepth == s.maxDepth
      invariant cb.State() == b
      invariant whole == SearchLoopV2(node, b, moves, i, maximizing, bestScore, bestMove, tt.zobrist, tt.hashMap)
      decreases |moves| - i
    {
      ghost var child := ChildScoreV2(node, b, moves[i], tt.zobrist, tt.hashMap);
      LoopStepV2(node, b, moves, i, maximizing, bestScore, bestMove, tt.zobrist, tt.hashMap, child);
      var found := RunChildV2(node, cb, moves[i], tt);
      assert cb.State() == b;
      if found.Panic? {
        return Panic;
      }
      if Better(maximizing, found.value.score, bestScore) {
        bestScore := found.value.score;
        bestMove := Some(moves[i]);
      }
      node := Narrow(node, maximizing, bestScore);
      if node.alpha >= node.beta {
        break;
      }
      i := i + 1;
    }
    r := Ok(Scored(bestScore, bestMove));
  }

  /** One child of `minimax_v2` on a clone of the board. */
  method RunChildV2(s: Minimax, cb: Engine.ChessBoard, m: ChessMove, tt: TranspositionTable) returns (r: Result<Scored>)
    requires IsGrid(cb.board) && s.depth <= s.maxDepth && IsZobristTable(tt.zobrist)
    modifies tt
    ensures r == Scores(ChildScoreV2(s, cb.State(), m, tt.zobrist, old(tt.hashMap)))
    ensures r.Ok? ==> tt.hashMap == ChildScoreV2(s, cb.State(), m, tt.zobrist, old(tt.hashMap)).value.table
    decreases s.maxDepth - s.depth + 1, 0
  {
    var clone := new Engine.ChessBoard.Clone(cb);
    var next := clone.UpdateBoard(m);
    if next.Panic? {
      return Panic;
    }
    r := RunMinimaxV2(s, clone, next.value, tt);
  }

  // ---------------------------------------------------------------------
  // `start_minimax` and `start_minimax_mono`
  // ---------------------------------------------------------------------

  /** The searcher both entry points start from: depth 0 of 5, the side to
      move as the searching colour, and the widest window. */
  function RootSearcher(color: Color): (r: Minimax)
    ensures r.depth == 0 && r.maxDepth == 5 && r.color == color
    ensures r.alpha == I32Min && r.beta == I32Max
  {
    Minimax(0, 5, color, I32Min, I32Max)
  }

  /** `chunks(size)`: consecutive slices of `size` elements, the last one
      possibly shorter. */
  function Chunks<T>(xs: seq<T>, size: nat): seq<seq<T>>
    requires size > 0
    decreases |xs|
  {
    if |xs| == 0 then []
    else if |xs| <= size then [xs]
    else [xs[..size]] + Chunks(xs[size..], size)
  }

  function Flatten<T>(xss: seq<seq<T>>): seq<T> {
    if |xss| == 0 then [] else xss[0] + Flatten(xss[1..])
  }

  /** The chunks put back together are the original sequence; every chunk
      holds between one and `size` elements, and all but the last exactly
      `size`. */
  lemma {:induction false} ChunksPartition<T>(xs: seq<T>, size: nat)
    requires size > 0
    ensures Flatten(Chunks(xs, size)) == xs
    ensures forall k :: 0 <= k < |Chunks(xs, size)| ==> 0 < |Chunks(xs, size)[k]| <= size
    ensures forall k :: 0 <= k < |Chunks(xs, size)| - 1 ==> |Chunks(xs, size)[k]| == size
    decreases |xs|
  {
    if |xs| > size {
      ChunksPartition(xs[size..], size);
      var rest := Chunks(xs[size..], size);
      assert Chunks(xs, size) == [xs[..size]] + rest;
      assert Chunks(xs, size)[1..] == rest;
      assert xs == xs[..size] + xs[size..];
      forall k | 1 <= k < |Chunks(xs, size)|
        ensures Chunks(xs, size)[k] == rest[k - 1]
      {
      }
    } else if |xs| > 0 {
      assert Chunks(xs, size) == [xs];
      assert Flatten([xs]) == xs + Flatten([]);
    }
  }

  /** Every element of a chunk is an element of the sequence. */
  lemma {:induction false} InChunk<T>(xss: seq<seq<T>>, k: nat, x: T)
    requires k < |xss| && x in xss[k]
    ensures x in Flatten(xss)
    decreases k
  {
    if k > 0 {
      InChunk(xss[1..], k - 1, x);
      assert xss[1..][k - 1] == xss[k];
    }
  }

  /** What one thread sends: the score and move of `minimax_v2` on its
      chunk, with a fresh table drawn from `draw`; a thread that panics
      sends nothing. The results of the first `n` threads, in the order of
      the chunks. */
  function Received(s: Minimax, b: Board, chunks: seq<seq<ChessMove>>, draws: nat -> (nat -> u64), n: nat): seq<Scored>
    requires IsGrid(b.grid) && s.depth <= s.maxDepth && n <= |chunks|
  {
    if n == 0 then []
    else
      var earlier := Received(s, b, chunks, draws, n - 1);
      var sent := Scores(SearchV2(s, b, chunks[n - 1], InitTable(draws(n - 1)), map[]));
      if sent.Ok? then earlier + [sent.value] else earlier
  }

  /** `max_by_key` on the score: the maximum, and of several equal maxima
      the last one. */
  function LastMax(rs: seq<Scored>): Scored
    requires |rs| > 0
  {
    if |rs| == 1 then rs[0]
    else
      var m := LastMax(rs[..|rs| - 1]);
      if rs[|rs| - 1].score >= m.score then rs[|rs| - 1] else m
  }

  /** `LastMax` picks an element with the greatest score, and no later
      element reaches that score. */
  lemma {:induction false} LastMaxFacts(rs: seq<Scored>)
    requires |rs| > 0
    ensures exists i ::
      && 0 <= i < |rs| && rs[i] == LastMax(rs)
      && (forall j :: i < j < |rs| ==> rs[j].score < LastMax(rs).score)
    ensures forall j :: 0 <= j < |rs| ==> rs[j].score <= LastMax(rs).score
    decreases |rs|
  {
    if |rs| == 1 {
      assert rs[0] == LastMax(rs);
    } else {
      var front := rs[..|rs| - 1];
      LastMaxFacts(front);
      var m := LastMax(front);
      var last := |rs| - 1;
      if rs[last].score >= m.score {
        assert rs[last] == LastMax(rs);
        forall j | 0 <= j < |rs|
          ensures rs[j].score <= LastMax(rs).score
        {
          if j < last {
            assert rs[j] == front[j];
          }
        }
      } else {
        var i :| 0 <= i < |front| && front[i] == m && forall j :: i < j < |front| ==> front[j].score < m.score;
        assert rs[i] == LastMax(rs);
        forall j | i < j < |rs|
          ensures rs[j].score < LastMax(rs).score
        {
          if j < last {
            assert rs[j] == front[j];
          }
        }
        forall j | 0 <= j < |rs|
          ensures rs[j].score <= LastMax(rs).score
        {
          if j < last {
            assert rs[j] == front[j];
          }
        }
      }
    }
  }

  /** `start_minimax`: the moves of the side to move are cut into chunks of
      a quarter of their number (fewer than four moves give chunks of size
      zero, a panic); each chunk is searched from the root with its own
      table, and the move with the best score among the results received
      is returned; receiving none fails the final `expect`. */
  function StartSearch(b: Board, draws: nat -> (nat -> u64)): Result<Option<ChessMove>>
    requires IsGrid(b.grid)
  {
    var moves :- MoveRules.PartyMoves(b);
    var size := |moves| / 4;
    if size == 0 then Panic
    else
      var chunks := Chunks(moves, size);
      var results := Received(RootSearcher(b.turn), b, chunks, draws, |chunks|);
      if |results| == 0 then Panic
      else Ok(LastMax(results).best)
  }

  /** `start_minimax_mono`: one search of all the moves of the side to move
      from the root, with one table. */
  function StartMono(b: Board, draw: nat -> u64): Result<Option<ChessMove>>
    requires IsGrid(b.grid)
  {
    var moves :- MoveRules.PartyMoves(b);
    var found :- SearchV2(RootSearcher(b.turn), b, moves, InitTable(draw), map[]);
    Ok(found.best)
  }

  /** Fewer than four moves make the chunk size zero: `start_minimax`
      panics. */
  lemma FewMovesPanic(b: Board, draws: nat -> (nat -> u64))
    requires IsGrid(b.grid) && MoveRules.PartyMoves(b).Ok? && |MoveRules.PartyMoves(b).value| < 4
    ensures StartSearch(b, draws).Panic?
  {
  }

  /** Every result a thread sends names a move of its chunk. */
  lemma {:induction false} ReceivedMoves(s: Minimax, b: Board, chunks: seq<seq<ChessMove>>, draws: nat -> (nat -> u64), n: nat)
    requires IsGrid(b.grid) && s.depth < s.maxDepth && n <= |chunks|
    requires forall k :: 0 <= k < |chunks| ==> |chunks[k]| > 0
    ensures forall r :: r in Received(s, b, chunks, draws, n) ==>
      InRange(r.score) && r.best.Some? && r.best.value in Flatten(chunks)
    decreases n
  {
    if n > 0 {
      ReceivedMoves(s, b, chunks, draws, n - 1);
      var z := InitTable(draws(n - 1));
      SearchV2Facts(s, b, chunks[n - 1], z, map[]);
      var sent := SearchV2(s, b, chunks[n - 1], z, map[]);
      if sent.Ok? {
        InChunk(chunks, n - 1, sent.value.best.value);
      }
    }
  }

  /** The move `start_minimax` returns is always one of the moves of the
      side to move. */
  lemma StartSearchMove(b: Board, draws: nat -> (nat -> u64))
    requires IsGrid(b.grid)
    ensures StartSearch(b, draws).Ok? ==>
      && MoveRules.PartyMoves(b).Ok?
      && StartSearch(b, draws).value.Some?
      && StartSearch(b, draws).value.value in MoveRules.PartyMoves(b).value
  {
    var moves := MoveRules.PartyMoves(b);
    if moves.Ok? && |moves.value| / 4 > 0 {
      var size := |moves.value| / 4;
      var chunks := Chunks(moves.value, size);
      ChunksPartition(moves.value, size);
      var results := Received(RootSearcher(b.turn), b, chunks, draws, |chunks|);
      ReceivedMoves(RootSearcher(b.turn), b, chunks, draws, |chunks|);
      if |results| > 0 {
        LastMaxFacts(results);
      }
    }
  }

  /** `start_minimax_mono` returns a move exactly when the side to move has
      one, and that move is one of its moves. */
  lemma StartMonoMove(b: Board, draw: nat -> u64)
    requires IsGrid(b.grid)
    ensures StartMono(b, draw).Ok? ==>
      && MoveRules.PartyMoves(b).Ok?
      && (StartMono(b, draw).value.Some? <==> |MoveRules.PartyMoves(b).value| > 0)
      && (StartMono(b, draw).value.Some? ==> StartMono(b, draw).value.value in MoveRules.PartyMoves(b).value)
  {
    var moves := MoveRules.PartyMoves(b);
    if moves.Ok? {
      SearchV2Facts(RootSearcher(b.turn), b, moves.value, InitTable(draw), map[]);
    }
  }

  /** `max_by_key` over the received results, scanning them in order. */
  method BestReceived(rs: seq<Scored>) returns (m: Scored)
    requires |rs| > 0
    ensures m == LastMax(rs)
  {
    m := rs[0];
    var i := 1;
    while i < |rs|
      invariant 1 <= i <= |rs| && m == LastMax(rs[..i])
      decreases |rs| - i
    {
      assert rs[..i + 1][..i] == rs[..i];
      if rs[i].score >= m.score {
        m := rs[i];
      }
      i := i + 1;
    }
    assert rs[..i] == rs;
  }

  /** `start_minimax` on a board object, the threads run one after the
      other in the order of their chunks; `draws(k)` stands for the random
      keys of the `k`-th thread's table. */
  method StartMinimax(cb: Engine.ChessBoard, draws: nat -> (nat -> u64)) returns (r: Result<Option<ChessMove>>)
    requires IsGrid(cb.board)
    ensures r == StartSearch(cb.State(), draws)
  {
    ghost var b := cb.State();
    var moves := cb.GetPartyMoves();
    if moves.Panic? {
      return Panic;
    }
    var size := |moves.value| / 4;
    if size == 0 {
      return Panic;
    }
    var chunks := Chunks(moves.value, size);
    var results := RunThreads(RootSearcher(cb.turn), cb, chunks, draws);
    assert cb.State() == b;
    if |results| == 0 {
      return Panic;
    }
    var best := BestReceived(results);
    return Ok(best.best);
  }

  /** The body of one thread: a fresh table from the thread's draws, and
      `minimax_v2` on a clone of the board over the thread's chunk. */
  method RunThread(root: Minimax, cb: Engine.ChessBoard, chunk: seq<ChessMove>, draw: nat -> u64)
    returns (found: Result<Scored>)
    requires IsGrid(cb.board) && root.depth <= root.maxDepth
    ensures found == Scores(SearchV2(root, cb.State(), chunk, InitTable(draw), map[]))
  {
    var clone := new Engine.ChessBoard.Clone(cb);
    var table := new TranspositionTable(draw);
    found := RunMinimaxV2(root, clone, chunk, table);
  }

  /** The threads of `start_minimax`, one per chunk, each on its own clone
      of the board and its own table; the results are collected in the
      order of the chunks. */
  method RunThreads(root: Minimax, cb: Engine.ChessBoard, chunks: seq<seq<ChessMove>>, draws: nat -> (nat -> u64))
    returns (results: seq<Scored>)
    requires IsGrid(cb.board) && root.depth <= root.maxDepth
    ensures results == Received(root, cb.State(), chunks, draws, |chunks|)
  {
    ghost var b := cb.State();
    results := [];
    var k := 0;
    while k < |chunks|
      invariant k <= |chunks| && cb.State() == b
      invariant results == Received(root, b, chunks, draws, k)
      decreases |chunks| - k
    {
      var found := RunThread(root, cb, chunks[k], draws(k));
      if found.Ok? {
        results := results + [found.value];
      }
      k := k + 1;
    }
  }

  /** `start_minimax_mono` on a board object. */
  method StartMinimaxMono(cb: Engine.ChessBoard, draw: nat -> u64) returns (r: Result<Option<ChessMove>>)
    requires IsGrid(cb.board)
    ensures r == StartMono(cb.State(), draw)
  {
    ghost var b := cb.State();
    var moves := cb.GetPartyMoves();
    if moves.Panic? {
      return Panic;
    }
    var table := new TranspositionTable(draw);
    var clone := new Engine.ChessBoard.Clone(cb);
    var found := RunMinimaxV2(RootSearcher(cb.turn), clone, moves.value, table);
    if found.Panic? {
      return Panic;
    }
    return Ok(found.value.best);
  }
}
