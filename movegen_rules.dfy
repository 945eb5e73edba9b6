/**
 * What the generated moves are like: every candidate of board_get_moves
 * starts from a square of the side to move, carries that square's piece,
 * ends on the board and takes only pieces of the other colour.
 */
module MoveRules {
  import opened Defs
  import opened Attack
  import opened MoveGen

  /** A move generated for the piece on (rk, offs). */
  predicate Generated(p: Position, m: Move, rk: int, offs: int)
    requires OnBoard(rk, offs)
  {
    m.frompos == Pos2(offs, rk) && m.frompc == At(p, rk, offs) && IsSquare(m.topos)
    && (m.killpc != NOPC ==> IsSquare(m.killpos) && OfColour(m.killpc, !p.flags.white))
  }

  /**
   * A move of the side to move: from a square holding its piece, which the
   * move carries, to a square of the board, taking only a piece of the other
   * colour from a square of the board.
   */
  predicate WellFormed(p: Position, m: Move)
  {
    IsSquare(m.frompos) && m.frompc == PieceOn(p, m.frompos) && OfColour(m.frompc, p.flags.white)
    && IsSquare(m.topos) && (m.killpc != NOPC ==> IsSquare(m.killpos) && OfColour(m.killpc, !p.flags.white))
  }

  lemma StepToGenerated(p: Position, rk: int, offs: int, r: int, f: int)
    requires OnBoard(rk, offs) && OfColour(At(p, rk, offs), p.flags.white)
    ensures forall m :: m in StepTo(p, rk, offs, r, f, At(p, rk, offs)) ==> Generated(p, m, rk, offs)
  {
  }

  lemma {:induction false} KnightStepsGenerated(p: Position, rk: int, offs: int, n: nat)
    requires OnBoard(rk, offs) && OfColour(At(p, rk, offs), p.flags.white)
    ensures forall m :: m in KnightSteps(p, rk, offs, At(p, rk, offs), n) ==> Generated(p, m, rk, offs)
  {
    if n > 0 {
      KnightStepsGenerated(p, rk, offs, n - 1);
      StepToGenerated(p, rk, offs, rk + KnightRank(n - 1), offs + KnightFile(n - 1));
    }
  }

  lemma {:induction false} KingStepsGenerated(p: Position, rk: int, offs: int, n: nat)
    requires OnBoard(rk, offs) && OfColour(At(p, rk, offs), p.flags.white)
    ensures forall m :: m in KingSteps(p, rk, offs, At(p, rk, offs), n) ==> Generated(p, m, rk, offs)
  {
    if n > 0 {
      KingStepsGenerated(p, rk, offs, n - 1);
      StepToGenerated(p, rk, offs, rk + DirRank(KingDir(n - 1)), offs + DirFile(KingDir(n - 1)));
    }
  }

  lemma {:induction false} RayGenerated(p: Position, rk: int, offs: int, d: int, n: int)
    requires OnBoard(rk, offs) && OfColour(At(p, rk, offs), p.flags.white) && 1 <= n
    ensures forall m :: m in Ray(p, rk, offs, At(p, rk, offs), d, n) ==> Generated(p, m, rk, offs)
    decreases 8 - n
  {
    if n <= 7 {
      RayGenerated(p, rk, offs, d, n + 1);
    }
  }

  lemma {:induction false} RaysGenerated(p: Position, rk: int, offs: int, n: nat)
    requires OnBoard(rk, offs) && OfColour(At(p, rk, offs), p.flags.white)
    ensures forall m :: m in Rays(p, rk, offs, At(p, rk, offs), n) ==> Generated(p, m, rk, offs)
  {
    if n > 0 {
      RaysGenerated(p, rk, offs, n - 1);
      RayGenerated(p, rk, offs, SliderDir(Kind(At(p, rk, offs)), n - 1), 1);
    }
  }

  /** A pawn move and its promotions keep the squares and the victim they are built from. */
  lemma PawnToFields(from: Pos, to: Pos, killpos: Pos, killpc: Piece, white: bool, last: bool)
    ensures forall m :: m in PawnTo(from, to, killpos, killpc, white, last) ==>
              m.frompos == from && m.topos == to && m.killpos == killpos && m.killpc == killpc
              && m.frompc == Colored(WPAWN, white)
  {
  }

  lemma PushesGenerated(p: Position, rk: int, offs: int)
    requires OnBoard(rk, offs) && At(p, rk, offs) == Colored(WPAWN, p.flags.white)
    ensures forall m :: m in Pushes(p, rk, offs) ==> Generated(p, m, rk, offs)
  {
    var white := p.flags.white;
    var r1 := rk + Forward(white);
    if OnBoard(r1, offs) && EmptyAt(p, r1, offs) {
      PawnToFields(Pos2(offs, rk), Pos2(offs, r1), NOPOS, NOPC, white, LastRank(white, rk));
    }
  }

  lemma TakesGenerated(p: Position, rk: int, offs: int, f: int)
    requires OnBoard(rk, offs) && At(p, rk, offs) == Colored(WPAWN, p.flags.white)
    ensures forall m :: m in Takes(p, rk, offs, f) ==> Generated(p, m, rk, offs)
  {
    var white := p.flags.white;
    var r1 := rk + Forward(white);
    if OnBoard(r1, f) && OfColour(At(p, r1, f), !white) {
      PawnToFields(Pos2(offs, rk), Pos2(f, r1), Pos2(f, r1), At(p, r1, f), white, LastRank(white, rk));
    }
  }

  lemma EnPassantGenerated(p: Position, rk: int, offs: int)
    requires OnBoard(rk, offs) && At(p, rk, offs) == Colored(WPAWN, p.flags.white)
    ensures forall m :: m in EnPassant(p, rk, offs) ==> Generated(p, m, rk, offs)
  {
  }

  lemma PawnMovesGenerated(p: Position, rk: int, offs: int)
    requires OnBoard(rk, offs) && At(p, rk, offs) == Colored(WPAWN, p.flags.white)
    ensures forall m :: m in PawnMoves(p, rk, offs) ==> Generated(p, m, rk, offs)
  {
    PushesGenerated(p, rk, offs);
    TakesGenerated(p, rk, offs, offs - 1);
    TakesGenerated(p, rk, offs, offs + 1);
    EnPassantGenerated(p, rk, offs);
  }

  lemma CastleMovesGenerated(p: Position, rk: int, offs: int)
    requires OnBoard(rk, offs) && At(p, rk, offs) == Colored(WKING, p.flags.white)
    ensures forall m :: m in CastleMoves(p, rk, offs) ==> Generated(p, m, rk, offs)
  {
  }

  /** Every move generated for a square comes from that square and carries its piece, which is of the side to move. */
  lemma PieceMovesGenerated(p: Position, rk: int, offs: int)
    requires OnBoard(rk, offs)
    ensures forall m :: m in PieceMoves(p, rk, offs) ==>
              Generated(p, m, rk, offs) && OfColour(At(p, rk, offs), p.flags.white)
  {
    var pc := At(p, rk, offs);
    if OfColour(pc, p.flags.white) {
      if Kind(pc) == WPAWN {
        PawnMovesGenerated(p, rk, offs);
      } else if Kind(pc) == WKNIGHT {
        KnightStepsGenerated(p, rk, offs, 8);
      } else if Kind(pc) == WBISHOP || Kind(pc) == WROOK || Kind(pc) == WQUEEN {
        RaysGenerated(p, rk, offs, 4);
        RaysGenerated(p, rk, offs, 8);
      } else {
        KingStepsGenerated(p, rk, offs, 8);
        CastleMovesGenerated(p, rk, offs);
      }
    }
  }

  lemma {:induction false} RankMovesWellFormed(p: Position, rk: int, n: nat)
    requires 0 <= rk < 8 && n <= 8
    ensures forall m :: m in RankMoves(p, rk, n) ==> WellFormed(p, m)
  {
    if n > 0 {
      RankMovesWellFormed(p, rk, n - 1);
      PieceMovesGenerated(p, rk, n - 1);
      assert PieceOn(p, Pos2(n - 1, rk)) == At(p, rk, n - 1);
    }
  }

  lemma {:induction false} MovesAboveWellFormed(p: Position, rk: int)
    requires 0 <= rk <= 8
    ensures forall m :: m in MovesAbove(p, rk) ==> WellFormed(p, m)
    decreases 8 - rk
  {
    if rk < 8 {
      MovesAboveWellFormed(p, rk + 1);
      RankMovesWellFormed(p, rk, 8);
    }
  }

  /**
   * Every candidate moves a piece of the side to move from its square to
   * a square of the board, and takes, if anything, a piece of the other
   * colour on a square of the board.
   */
  lemma CandidatesWellFormed(p: Position)
    ensures forall m :: m in Candidates(p) ==> WellFormed(p, m)
  {
    MovesAboveWellFormed(p, 0);
  }

  /** `sq` holds the king of the side to move. */
  predicate KingOn(p: Position, sq: int)
  {
    IsSquare(sq) && PieceOn(p, sq) == Colored(WKING, p.flags.white)
  }

  lemma {:induction false} KingInRankIs(p: Position, rk: int, n: nat, prev: Pos)
    requires 0 <= rk < 8 && n <= 8
    ensures KingOn(p, prev) ==> KingOn(p, KingInRank(p, rk, n, prev))
    ensures (exists f :: 0 <= f < n && At(p, rk, f) == Colored(WKING, p.flags.white)) ==> KingOn(p, KingInRank(p, rk, n, prev))
  {
    if n > 0 {
      KingInRankIs(p, rk, n - 1, prev);
      if At(p, rk, n - 1) == Colored(WKING, p.flags.white) {
        assert PieceOn(p, Pos2(n - 1, rk)) == At(p, rk, n - 1);
      }
    }
  }

  lemma {:induction false} KingAboveIs(p: Position, rk: int)
    requires 0 <= rk <= 8
    ensures (exists r, f :: rk <= r < 8 && 0 <= f < 8 && At(p, r, f) == Colored(WKING, p.flags.white)) ==> KingOn(p, KingAbove(p, rk))
    decreases 8 - rk
  {
    if rk < 8 {
      KingAboveIs(p, rk + 1);
      KingInRankIs(p, rk, 8, KingAbove(p, rk + 1));
      if exists r, f :: rk <= r < 8 && 0 <= f < 8 && At(p, r, f) == Colored(WKING, p.flags.white) {
        var r, f :| rk <= r < 8 && 0 <= f < 8 && At(p, r, f) == Colored(WKING, p.flags.white);
        if r == rk {
          assert exists f :: 0 <= f < 8 && At(p, rk, f) == Colored(WKING, p.flags.white);
        }
      }
    }
  }

  /** When the side to move has a king, the scan finds a square holding it (the assert of board_get_moves holds). */
  lemma KingSquareFound(p: Position)
    requires HasKing(p)
    ensures KingOn(p, KingSquare(p))
  {
    KingAboveIs(p, 0);
  }
}
