/**
 * What each generator of src/movegen.c (and chess/src/movegen.cpp) emits:
 * a slider's ray is the run of empty squares up to the first occupied one,
 * which is taken only when it holds a piece of the other colour; a pawn
 * reaching the last rank gives the four promotions; en passant takes the
 * pawn behind the destination; castling needs the right, the empty
 * squares and an unattacked king and transit square.
 */
module MoveProps {
  import opened Defs
  import opened Attack
  import opened MoveGen

  /** The rank and file at distance k from (rk, offs) along direction d. */
  function RayRank(rk: int, d: int, k: int): int { rk + Step(DirRank(d), k) }
  function RayFile(offs: int, d: int, k: int): int { offs + Step(DirFile(d), k) }

  /**
   * The i-th move of the ray from distance n goes to distance n + i; it is
   * a plain move onto an empty square, or, for the last move only, a
   * capture of a piece of the other colour standing there.
   */
  predicate RayMoveAt(p: Position, rk: int, offs: int, pc: Piece, d: int, n: int, ms: seq<Move>, i: int)
    requires OnBoard(rk, offs) && 0 <= i < |ms|
  {
    var r, f := RayRank(rk, d, n + i), RayFile(offs, d, n + i);
    n + i <= 7 && OnBoard(r, f)
    && (EmptyAt(p, r, f) ==> ms[i] == Plain(Pos2(offs, rk), Pos2(f, r), pc))
    && (!EmptyAt(p, r, f) ==> ms[i] == Capture(Pos2(offs, rk), Pos2(f, r), pc, At(p, r, f))
                              && Opponents(At(p, r, f), pc) && i == |ms| - 1)
  }

  /** Where the ray stops after its moves: past distance 7, off the board, or on a square of its own colour. */
  predicate RayEnd(p: Position, rk: int, offs: int, pc: Piece, d: int, k: int)
  {
    var r, f := RayRank(rk, d, k), RayFile(offs, d, k);
    k > 7 || !OnBoard(r, f) || (!EmptyAt(p, r, f) && !Opponents(At(p, r, f), pc))
  }

  /**
   * A ray holds one move per square up to the first occupied one and none
   * beyond: every move is to the next square out, onto an empty square or
   * taking the first occupant when it is an enemy.
   */
  lemma {:induction false} RayShape(p: Position, rk: int, offs: int, pc: Piece, d: int, n: int)
    requires OnBoard(rk, offs) && 1 <= n
    ensures var ms := Ray(p, rk, offs, pc, d, n);
      forall i :: 0 <= i < |ms| ==> RayMoveAt(p, rk, offs, pc, d, n, ms, i)
    decreases 8 - n
  {
    var ms := Ray(p, rk, offs, pc, d, n);
    var r, f := RayRank(rk, d, n), RayFile(offs, d, n);
    if n <= 7 && OnBoard(r, f) && EmptyAt(p, r, f) {
      var x, rest := Plain(Pos2(offs, rk), Pos2(f, r), pc), Ray(p, rk, offs, pc, d, n + 1);
      RayShape(p, rk, offs, pc, d, n + 1);
      assert ms == [x] + rest;
      forall i | 0 <= i < |ms|
        ensures RayMoveAt(p, rk, offs, pc, d, n, ms, i)
      {
        if i > 0 {
          RayMoveShift(p, rk, offs, pc, d, n, ms, i);
        } else {
          assert ms[0] == x && n + i == n;
        }
      }
    } else if n <= 7 && OnBoard(r, f) && Opponents(At(p, r, f), pc) {
      var x := Capture(Pos2(offs, rk), Pos2(f, r), pc, At(p, r, f));
      assert ms == [x];
      forall i | 0 <= i < |ms|
        ensures RayMoveAt(p, rk, offs, pc, d, n, ms, i)
      {
        assert i == 0 && ms[0] == x && n + i == n;
      }
    } else {
      assert ms == [];
    }
  }

  /** Move i of a ray from distance n is move i - 1 of the same ray from distance n + 1. */
  lemma RayMoveShift(p: Position, rk: int, offs: int, pc: Piece, d: int, n: int, ms: seq<Move>, i: int)
    requires OnBoard(rk, offs) && 1 <= n && 0 < i < |ms| && ms[1..] == Ray(p, rk, offs, pc, d, n + 1)
    requires RayMoveAt(p, rk, offs, pc, d, n + 1, ms[1..], i - 1)
    ensures RayMoveAt(p, rk, offs, pc, d, n, ms, i)
  {
    assert ms[i] == ms[1..][i - 1];
    assert n + i == (n + 1) + (i - 1);
  }

  /**
   * Where a ray that does not end with a capture stops: the next square is
   * past distance 7, off the board, or holds a piece of its own colour.
   */
  lemma {:induction false} RayStops(p: Position, rk: int, offs: int, pc: Piece, d: int, n: int)
    requires OnBoard(rk, offs) && 1 <= n
    ensures var ms := Ray(p, rk, offs, pc, d, n);
      EndsPlain(ms) ==> RayEnd(p, rk, offs, pc, d, n + |ms|)
    decreases 8 - n
  {
    var ms := Ray(p, rk, offs, pc, d, n);
    var r, f := RayRank(rk, d, n), RayFile(offs, d, n);
    if n <= 7 && OnBoard(r, f) && EmptyAt(p, r, f) {
      var x, rest := Plain(Pos2(offs, rk), Pos2(f, r), pc), Ray(p, rk, offs, pc, d, n + 1);
      assert ms == [x] + rest;
      RayStops(p, rk, offs, pc, d, n + 1);
      EndsPlainCons(x, rest);
      assert n + |ms| == (n + 1) + |rest|;
    } else if n <= 7 && OnBoard(r, f) && Opponents(At(p, r, f), pc) {
      assert ms == [Capture(Pos2(offs, rk), Pos2(f, r), pc, At(p, r, f))];
      assert !EndsPlain(ms);
    } else {
      assert ms == [] && RayEnd(p, rk, offs, pc, d, n);
    }
  }

  /** The list is empty or its last move takes nothing. */
  predicate EndsPlain(ms: seq<Move>)
  {
    ms == [] || ms[|ms| - 1].killpc == NOPC
  }

  /** A move that takes nothing, put in front of a list, leaves unchanged whether the list ends without a capture. */
  lemma EndsPlainCons(x: Move, rest: seq<Move>)
    requires x.killpc == NOPC
    ensures EndsPlain([x] + rest) == EndsPlain(rest)
  {
    var ms := [x] + rest;
    if rest != [] {
      assert ms[|ms| - 1] == rest[|rest| - 1];
    }
  }

  /**
   * A pawn capture onto the last rank is four moves, promoting to knight,
   * bishop, rook and queen, each taking the piece on the destination.
   */
  lemma CapturePromotes(p: Position, rk: int, offs: int, f: int)
    requires OnBoard(rk, offs)
    requires var white := p.flags.white;
      OnBoard(rk + Forward(white), f) && OfColour(At(p, rk + Forward(white), f), !white) && LastRank(white, rk)
    ensures var white, ms := p.flags.white, Takes(p, rk, offs, f);
      |ms| == 4
      && [ms[0].topc, ms[1].topc, ms[2].topc, ms[3].topc]
         == [Colored(WKNIGHT, white), Colored(WBISHOP, white), Colored(WROOK, white), Colored(WQUEEN, white)]
      && forall m :: m in ms ==> m.frompc == Colored(WPAWN, white) && m.killpos == m.topos
                                 && m.killpc == At(p, rk + Forward(white), f) && m.frompc != m.topc
  {
  }

  /** A pawn push that does not reach the last rank keeps the pawn; only the last rank promotes. */
  lemma PushesPromoteOnlyOnLastRank(p: Position, rk: int, offs: int)
    requires OnBoard(rk, offs)
    ensures forall m :: m in Pushes(p, rk, offs) ==>
              m.killpc == NOPC && (m.frompc != m.topc <==> LastRank(p.flags.white, rk))
  {
  }

  /** A double push starts on the home rank and passes over an empty square. */
  lemma DoublePushFromHome(p: Position, rk: int, offs: int)
    requires OnBoard(rk, offs)
    ensures var white := p.flags.white;
      forall m :: m in Pushes(p, rk, offs) && m.topos == Pos2(offs, rk) + 16 * Forward(white) ==>
        rk == HomeRank(white) && EmptyAt(p, rk + Forward(white), offs) && EmptyAt(p, rk + 2 * Forward(white), offs)
  {
  }

  /**
   * En passant moves the pawn to the en passant square, a forward diagonal
   * neighbour, and takes the enemy pawn one rank behind it, so the victim
   * is not on the destination.
   */
  lemma EnPassantShape(p: Position, rk: int, offs: int)
    requires OnBoard(rk, offs)
    ensures var white := p.flags.white;
      forall m :: m in EnPassant(p, rk, offs) ==>
        m.topos == p.flags.ep && m.killpos == m.topos - 8 * Forward(white) && m.killpos != m.topos
        && m.killpc == Colored(WPAWN, !white) && m.frompc == Colored(WPAWN, white)
        && m.topos / 8 == rk + Forward(white) && (m.topos % 8 == offs - 1 || m.topos % 8 == offs + 1)
  {
  }

  /**
   * A castle is generated only with the right held, the squares between
   * king and rook empty, and neither the king's square nor the square it
   * passes attacked; it moves the king two files.
   */
  lemma CastleConditions(p: Position, rk: int, offs: int)
    requires OnBoard(rk, offs)
    ensures var white, rights := p.flags.white, p.flags.rights;
      forall m :: m in KingSideCastle(p, rk, offs) ==>
        (if white then rights.wk else rights.bk) && m.topos == Pos2(offs, rk) + 2
        && FreeAt(p, rk, offs + 1) && FreeAt(p, rk, offs + 2)
        && !Attacked(p, rk, offs, !white) && !Attacked(p, rk, offs + 1, !white)
    ensures var white, rights := p.flags.white, p.flags.rights;
      forall m :: m in QueenSideCastle(p, rk, offs) ==>
        (if white then rights.wq else rights.bq) && m.topos == Pos2(offs, rk) - 2
        && FreeAt(p, rk, offs - 1) && FreeAt(p, rk, offs - 2) && FreeAt(p, rk, offs - 3)
        && !Attacked(p, rk, offs, !white) && !Attacked(p, rk, offs - 1, !white)
  {
  }
}
