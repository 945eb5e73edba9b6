/**
 * The legality filter of board_get_moves (src/movegen.c) and the end of
 * game tests board_is_mate and board_is_stalemate (src/board.c): a
 * candidate is kept when, applied to a copy of the board, it leaves the
 * mover's king unattacked; the kept moves are compacted in place to the
 * front of the list, in their original order.
 */
module CLegal {
  import opened Defs
  import Attack
  import Placement
  import MoveGen
  import MoveRules
  import Hit
  import ArrayList
  import CBoard
  import Moves

  /** The mover's king square after `m`: the destination when the king itself moves, else where it stood. */
  function KingTarget(p: Position, kingpos: Pos, m: Move): Pos
  {
    if m.frompc == Colored(WKING, p.flags.white) then m.topos else kingpos
  }

  /** `m` can be applied and, after it, the mover's king is not attacked by a piece of the other colour. */
  predicate Safe(p: Position, kingpos: Pos, m: Move)
  {
    var k := KingTarget(p, kingpos, m);
    Placement.Applicable(m) && IsSquare(k)
    && !Attack.Attacked(CBoard.Applied(p, m), k / 8, k % 8, !p.flags.white)
  }

  /** The moves of `s` that `keep` accepts, in their order in `s`. */
  function Kept(keep: Move -> bool, s: seq<Move>): seq<Move>
  {
    if s == [] then []
    else
      var last := s[|s| - 1];
      Kept(keep, s[..|s| - 1]) + (if keep(last) then [last] else [])
  }

  /** The legal moves of the side to move: the candidates, in scan order, that leave its king unattacked. */
  function LegalMoves(p: Position): seq<Move>
  {
    Kept(m => Safe(p, MoveGen.KingSquare(p), m), MoveGen.Candidates(p))
  }

  /** A candidate can be applied. */
  lemma WellFormedApplicable(p: Position, m: Move)
    requires MoveRules.WellFormed(p, m)
    ensures Placement.Applicable(m)
  {
  }

  /** The prefix of one more element keeps what the shorter prefix kept, and that element if it is accepted. */
  lemma KeptStep(keep: Move -> bool, c: seq<Move>, i: nat)
    requires i < |c|
    ensures Kept(keep, c[..i + 1]) == Kept(keep, c[..i]) + (if keep(c[i]) then [c[i]] else [])
  {
    assert c[..i + 1][..i] == c[..i];
  }

  /**
   * The kept moves are exactly the accepted moves of the sequence: each
   * kept move is in the sequence and accepted, each accepted move of the
   * sequence is kept, and no more moves are kept than there were.
   */
  lemma {:induction false} KeptIsFilter(keep: Move -> bool, s: seq<Move>)
    ensures forall m :: m in Kept(keep, s) <==> m in s && keep(m)
    ensures |Kept(keep, s)| <= |s|
  {
    if s != [] {
      var init := s[..|s| - 1];
      assert s == init + [s[|s| - 1]];
      KeptIsFilter(keep, init);
    }
  }

  /** Kept moves keep their relative order: the kept moves of a concatenation are those of each part, in turn. */
  lemma {:induction false} KeptAppend(keep: Move -> bool, a: seq<Move>, b: seq<Move>)
    ensures Kept(keep, a + b) == Kept(keep, a) + Kept(keep, b)
    decreases |b|
  {
    if b == [] {
      assert a + b == a;
    } else {
      var init := b[..|b| - 1];
      assert (a + b)[..|a + b| - 1] == a + init;
      KeptAppend(keep, a, init);
    }
  }

  /** The list after the first i candidates were examined: kept ones first, then the rejected ones, then the rest untouched. */
  ghost predicate Compacted(keep: Move -> bool, c: seq<Move>, cur: seq<Move>, i: int, j: int)
  {
    0 <= j <= i <= |c| == |cur|
    && cur[..j] == Kept(keep, c[..i])
    && cur[i..] == c[i..]
    && (forall k :: j <= k < i ==> cur[k] in c && !keep(cur[k]))
  }

  /** Examining candidate i of a compacted list: an accepted one is swapped to slot j. */
  lemma CompactKeep(keep: Move -> bool, c: seq<Move>, cur: seq<Move>, i: int, j: int)
    requires Compacted(keep, c, cur, i, j) && i < |c| && keep(c[i])
    ensures Compacted(keep, c, cur[j := c[i]][i := cur[j]], i + 1, j + 1)
  {
    KeptStep(keep, c, i);
    var next := cur[j := c[i]][i := cur[j]];
    assert next[..j + 1] == cur[..j] + [c[i]];
    assert cur[i + 1..] == c[i + 1..] by { assert cur[i + 1..] == cur[i..][1..]; }
    assert next[i + 1..] == cur[i + 1..];
    forall k | j + 1 <= k < i + 1
      ensures next[k] in c && !keep(next[k])
    {
      if k == i {
        assert next[k] == cur[j];
      } else {
        assert next[k] == cur[k];
      }
    }
  }

  /** Examining candidate i of a compacted list: a rejected one stays where it is. */
  lemma CompactDrop(keep: Move -> bool, c: seq<Move>, cur: seq<Move>, i: int, j: int)
    requires Compacted(keep, c, cur, i, j) && i < |c| && !keep(c[i])
    ensures Compacted(keep, c, cur, i + 1, j)
  {
    KeptStep(keep, c, i);
    assert cur[i] == c[i] by { assert cur[i..][0] == c[i..][0]; }
    assert cur[i + 1..] == c[i + 1..] by { assert cur[i + 1..] == cur[i..][1..]; }
  }

  /** Once every candidate was examined, the kept part is the whole filter. */
  lemma CompactedDone(keep: Move -> bool, c: seq<Move>, cur: seq<Move>, j: int)
    requires Compacted(keep, c, cur, |c|, j)
    ensures cur[..j] == Kept(keep, c)
  {
    assert c[..|c|] == c;
  }

  /**
   * One candidate of the filter of board_get_moves: applied to a copy of
   * the board, does it leave the mover's king, at the destination when the
   * king moved and at `kingpos` otherwise, unattacked?
   */
  method LeavesKingSafe(board: CBoard.Board, move: Move, kingpos: Pos) returns (safe: bool)
    requires board.Valid() && Placement.Applicable(move) && IsSquare(kingpos)
    ensures safe == Safe(board.Value(), kingpos, move)
  {
    var player := !board.flags.white;
    var king := if board.flags.white then WKING else BKING;
    var future := new CBoard.Board.Copy(board);
    future.ApplyMove(move);
    var kingFuture := if move.frompc == king then move.topos else kingpos;
    var hit := Hit.Hit(future.Value(), kingFuture / 8, kingFuture % 8, player);
    safe := !hit;
  }

  /** The swap of the filter loop: candidate i, which is kept, trades places with slot j, the first rejected one. */
  method SwapKept(ret: ArrayList.AList<Move>, i: nat, j: nat, ghost keep: Move -> bool, ghost c: seq<Move>)
    requires ret.Valid() && Compacted(keep, c, ret.Contents(), i, j) && i < |c| && keep(c[i])
    modifies ret.data
    ensures ret.Valid() && ret.len == old(ret.len) && Compacted(keep, c, ret.Contents(), i + 1, j + 1)
  {
    var ok, move := ret.Get(i);
    assert move == c[i] by { assert ret.Contents()[i..][0] == c[i..][0]; }
    CompactKeep(keep, c, ret.Contents(), i, j);
    var tmp;
    ok, tmp := ret.Get(j);
    ok := ret.Put(j, move);
    ok := ret.Put(i, tmp);
  }

  /** One round of the filter loop: candidate i is kept, and swapped to slot j, exactly when it leaves the king safe. */
  method Examine(board: CBoard.Board, ret: ArrayList.AList<Move>, kingpos: Pos, i: nat, j: nat, ghost p: Position, ghost c: seq<Move>)
      returns (j': nat)
    requires board.Valid() && board.Value() == p && ret.Valid() && IsSquare(kingpos)
    requires forall m :: m in c ==> Placement.Applicable(m)
    requires Compacted(m => Safe(p, kingpos, m), c, ret.Contents(), i, j) && i < |c|
    modifies ret.data
    ensures ret.Valid() && ret.len == old(ret.len) && board.Valid() && board.Value() == p
    ensures Compacted(m => Safe(p, kingpos, m), c, ret.Contents(), i + 1, j')
  {
    ghost var keep := m => Safe(p, kingpos, m);
    assert board.ranks as object != ret.data;
    var ok, move := ret.Get(i);
    assert move == c[i] by { assert ret.Contents()[i..][0] == c[i..][0]; }
    var safe := LeavesKingSafe(board, move, kingpos);
    if safe {
      SwapKept(ret, i, j, keep, c);
      j' := j + 1;
    } else {
      CompactDrop(keep, c, ret.Contents(), i, j);
      j' := j;
    }
  }

  /**
   * The filter loop of board_get_moves: each candidate that leaves the
   * king safe is swapped to the end of the kept part, and the list is then
   * cut to the kept part.
   */
  method CompactSafe(board: CBoard.Board, ret: ArrayList.AList<Move>, kingpos: Pos, ghost p: Position)
    requires board.Valid() && ret.Valid() && IsSquare(kingpos) && board.Value() == p
    requires forall m :: m in ret.Contents() ==> Placement.Applicable(m)
    modifies ret, ret.data
    ensures ret.Valid() && ret.data == old(ret.data)
    ensures ret.Contents() == Kept(m => Safe(p, kingpos, m), old(ret.Contents()))
  {
    ghost var c := ret.Contents();
    var j := ExamineAll(board, ret, kingpos, p);
    CompactedDone(m => Safe(p, kingpos, m), c, ret.Contents(), j);
    assert ret.data[..j] == ret.Contents()[..j];
    ret.len := j;
  }

  /** The loop of the filter: after it, the first j slots hold the kept candidates in order. */
  method ExamineAll(board: CBoard.Board, ret: ArrayList.AList<Move>, kingpos: Pos, ghost p: Position) returns (j: nat)
    requires board.Valid() && ret.Valid() && IsSquare(kingpos) && board.Value() == p
    requires forall m :: m in ret.Contents() ==> Placement.Applicable(m)
    modifies ret.data
    ensures ret.Valid() && ret.len == old(ret.len)
    ensures Compacted(m => Safe(p, kingpos, m), old(ret.Contents()), ret.Contents(), |old(ret.Contents())|, j)
  {
    ghost var c := ret.Contents();
    assert board.ranks as object != ret.data;
    j := 0;
    var i := 0;
    while i < ret.len
      invariant ret.Valid() && ret.len == |c|
      invariant board.Valid() && board.Value() == p
      invariant Compacted(m => Safe(p, kingpos, m), c, ret.Contents(), i, j)
      decreases |c| - i
    {
      j := Examine(board, ret, kingpos, i, j, p, c);
      i := i + 1;
    }
  }

  /**
   * board_get_moves: the candidates of the scan, then every candidate that
   * would leave the mover's king attacked is dropped, the others moving
   * to the front in their order.
   */
  method GetMoves(board: CBoard.Board) returns (ret: ArrayList.AList<Move>)
    requires board.Valid() && MoveGen.HasKing(board.Value())
    ensures ret.Valid() && fresh(ret)
    ensures ret.Contents() == LegalMoves(board.Value())
  {
    var kingpos;
    ret, kingpos := MoveGen.GenerateCandidates(board.Value());
    MoveRules.KingSquareFound(board.Value());
    MoveRules.CandidatesWellFormed(board.Value());
    forall m | m in ret.Contents()
      ensures Placement.Applicable(m)
    {
      WellFormedApplicable(board.Value(), m);
    }
    CompactSafe(board, ret, kingpos, board.Value());
  }

  /**
   * The legal moves are the candidates that leave the mover's king, at
   * the destination of a king move and at the scanned square otherwise,
   * unattacked after the move; there are no more of them than candidates.
   */
  lemma LegalMovesAreSafe(p: Position)
    ensures forall m :: m in LegalMoves(p) <==> m in MoveGen.Candidates(p) && Safe(p, MoveGen.KingSquare(p), m)
    ensures |LegalMoves(p)| <= |MoveGen.Candidates(p)|
  {
    KeptIsFilter(m => Safe(p, MoveGen.KingSquare(p), m), MoveGen.Candidates(p));
  }

  /**
   * The generator does not look at a castle's destination, but the filter
   * does: a legal castle leaves the king on an unattacked square.
   */
  lemma CastleDestinationChecked(p: Position, m: Move)
    requires m in LegalMoves(p) && Moves.IsCastle(m) != NoCastle
    ensures Placement.Applicable(m) && !Attack.Attacked(CBoard.Applied(p, m), m.topos / 8, m.topos % 8, !p.flags.white)
  {
    LegalMovesAreSafe(p);
    MoveRules.CandidatesWellFormed(p);
  }

  /** The side to move is in check: its king, at the square the board caches for it, is attacked. */
  predicate InCheck(p: Position, kingpos: Pos)
    requires IsSquare(kingpos)
  {
    Attack.Attacked(p, kingpos / 8, kingpos % 8, !p.flags.white)
  }

  /** The cached king square of the side to move. */
  function CachedKing(board: CBoard.Board): Pos
    reads board
  {
    if board.flags.white then board.wking else board.bking
  }

  /** board_is_mate: the side to move is in check and has no legal move. */
  method IsMate(board: CBoard.Board) returns (mate: bool)
    requires board.Valid() && MoveGen.HasKing(board.Value()) && IsSquare(CachedKing(board))
    ensures mate <==> InCheck(board.Value(), CachedKing(board)) && LegalMoves(board.Value()) == []
  {
    MoveRules.KingSquareFound(board.Value());
    var kingpos := if board.flags.white then board.wking else board.bking;
    var incheck := Hit.Hit(board.Value(), kingpos / 8, kingpos % 8, !board.flags.white);
    if !incheck {
      return false;
    }
    var moves := GetMoves(board);
    mate := moves.len == 0;
  }

  /** board_is_stalemate: the side to move is not in check and has no legal move. */
  method IsStalemate(board: CBoard.Board) returns (stalemate: bool)
    requires board.Valid() && MoveGen.HasKing(board.Value()) && IsSquare(CachedKing(board))
    ensures stalemate <==> !InCheck(board.Value(), CachedKing(board)) && LegalMoves(board.Value()) == []
  {
    MoveRules.KingSquareFound(board.Value());
    var kingpos := if board.flags.white then board.wking else board.bking;
    var incheck := Hit.Hit(board.Value(), kingpos / 8, kingpos % 8, !board.flags.white);
    if incheck {
      return false;
    }
    var moves := GetMoves(board);
    stalemate := moves.len == 0;
  }
}
