/**
 * What it means for a square to be attacked, stated from the rules of
 * play (Article 3 of the FIDE Laws of Chess) and independently of the
 * optimised test in the move generator: some piece of the given colour
 * could capture on the square, sliders needing every square between to
 * be empty. A second, direction-by-direction form of the same notion is
 * proved equal to it; the move generator's test is proved against both.
 */
module Attack {
  import opened Defs

  function Abs(x: int): nat { if x < 0 then -x else x }

  function Max(a: int, b: int): int { if a < b then b else a }

  function Sign(x: int): int { if x > 0 then 1 else if x < 0 then -1 else 0 }

  /** e * n for a unit e in {-1, 0, 1}, kept linear. */
  function Step(e: int, n: int): int { if e > 0 then n else if e < 0 then -n else 0 }

  /** The white code of the piece's kind: pawn 0 ... king 5 (6 for NOPC). */
  function Kind(pc: Piece): Piece
  {
    if pc <= WKING then pc else pc - 6
  }

  /** A piece of the given colour (white when `white`). */
  predicate OfColour(pc: Piece, white: bool) { pc != NOPC && (pc <= WKING) == white }

  /** The n - 1 squares next to (r, f) towards (r + er * n, f + ef * n) are on the board and empty. */
  predicate ClearBetween(p: Position, r: int, f: int, er: int, ef: int, n: int)
  {
    forall k :: 0 < k < n ==>
      OnBoard(r + Step(er, k), f + Step(ef, k)) && EmptyAt(p, r + Step(er, k), f + Step(ef, k))
  }

  /**
   * The piece on (sr, sf) attacks (r, f): a pawn one rank forward
   * diagonally, a knight by its jump, a bishop along a diagonal, a rook
   * along a rank or file, a queen along either, with the squares between
   * empty, and a king on any adjacent square.
   */
  predicate AttacksSquare(p: Position, sr: int, sf: int, r: int, f: int)
    requires OnBoard(sr, sf)
  {
    var pc := At(p, sr, sf);
    var dr, df := r - sr, f - sf;
    var diagonal := Abs(dr) == Abs(df) != 0;
    var straight := (dr == 0) != (df == 0);
    var clear := ClearBetween(p, r, f, Sign(sr - r), Sign(sf - f), Max(Abs(dr), Abs(df)));
    if pc == NOPC then false
    else if Kind(pc) == WPAWN then dr == (if pc == WPAWN then 1 else -1) && Abs(df) == 1
    else if Kind(pc) == WKNIGHT then (Abs(dr) == 1 && Abs(df) == 2) || (Abs(dr) == 2 && Abs(df) == 1)
    else if Kind(pc) == WBISHOP then diagonal && clear
    else if Kind(pc) == WROOK then straight && clear
    else if Kind(pc) == WQUEEN then (diagonal || straight) && clear
    else Abs(dr) <= 1 && Abs(df) <= 1 && (dr != 0 || df != 0)
  }

  /** (r, f) is attacked by a piece of the given colour. */
  predicate Attacked(p: Position, r: int, f: int, white: bool)
  {
    exists sr, sf :: 0 <= sr < 8 && 0 <= sf < 8 && OfColour(At(p, sr, sf), white) && AttacksSquare(p, sr, sf, r, f)
  }

  // ---------------------------------------------------------------------
  // The same notion, direction by direction.

  /**
   * The eight directions (rank step, file step) numbered as the bits of
   * the move generator's blocks mask: 0 up, 1 up-right, 2 right,
   * 3 down-right, 4 down, 5 down-left, 6 left, 7 up-left.
   */
  function DirRank(d: int): int { if d == 0 || d == 1 || d == 7 then 1 else if 3 <= d <= 5 then -1 else 0 }

  function DirFile(d: int): int { if 1 <= d <= 3 then 1 else if 5 <= d <= 7 then -1 else 0 }

  /** The direction whose steps are (er, ef), for units not both 0. */
  function DirIndex(er: int, ef: int): (d: int)
    requires -1 <= er <= 1 && -1 <= ef <= 1 && (er != 0 || ef != 0)
    ensures 0 <= d < 8 && DirRank(d) == er && DirFile(d) == ef
  {
    if er == 1 then (if ef == 0 then 0 else if ef == 1 then 1 else 7)
    else if er == 0 then (if ef == 1 then 2 else 6)
    else (if ef == 1 then 3 else if ef == 0 then 4 else 5)
  }

  /**
   * The distance from (r, f) to the first occupied square in direction d,
   * looking from distance n on; 0 when the edge of the board comes first.
   */
  function FirstOccupied(p: Position, r: int, f: int, d: int, n: int): (m: nat)
    requires 1 <= n
    ensures m == 0 || n <= m <= 7
    ensures m > 0 ==> OnBoard(r + Step(DirRank(d), m), f + Step(DirFile(d), m)) && !EmptyAt(p, r + Step(DirRank(d), m), f + Step(DirFile(d), m))
    decreases 8 - n
  {
    if n > 7 || !OnBoard(r + Step(DirRank(d), n), f + Step(DirFile(d), n)) then 0
    else if !EmptyAt(p, r + Step(DirRank(d), n), f + Step(DirFile(d), n)) then n
    else FirstOccupied(p, r, f, d, n + 1)
  }

  /** The squares from distance n up to the first occupied one are on the board and empty. */
  lemma {:induction false} FirstOccupiedAfterEmpty(p: Position, r: int, f: int, d: int, n: int)
    requires 1 <= n
    ensures var m := FirstOccupied(p, r, f, d, n);
      m > 0 ==> forall k :: n <= k < m ==> FreeOnRay(p, r, f, DirRank(d), DirFile(d), k)
    decreases 8 - n
  {
    if n <= 7 && FreeOnRay(p, r, f, DirRank(d), DirFile(d), n) {
      FirstOccupiedAfterEmpty(p, r, f, d, n + 1);
    }
  }

  /** The square k steps from (r, f) by (er, ef) is on the board and empty. */
  predicate FreeOnRay(p: Position, r: int, f: int, er: int, ef: int, k: int)
  {
    OnBoard(r + Step(er, k), f + Step(ef, k)) && EmptyAt(p, r + Step(er, k), f + Step(ef, k))
  }

  /** An occupied square reached over empty ones is the first occupied square. */
  lemma {:induction false} FirstOccupiedIs(p: Position, r: int, f: int, d: int, n: int, m: int)
    requires 1 <= n <= m <= 7
    requires OnBoard(r + Step(DirRank(d), m), f + Step(DirFile(d), m)) && !EmptyAt(p, r + Step(DirRank(d), m), f + Step(DirFile(d), m))
    requires forall k :: n <= k < m ==> FreeOnRay(p, r, f, DirRank(d), DirFile(d), k)
    ensures FirstOccupied(p, r, f, d, n) == m
    decreases m - n
  {
    if n < m {
      assert FreeOnRay(p, r, f, DirRank(d), DirFile(d), n);
      FirstOccupiedIs(p, r, f, d, n + 1, m);
    }
  }

  /** The diagonal directions: up-right, down-right, down-left, up-left. */
  predicate IsDiagonal(d: int) { d == 1 || d == 3 || d == 5 || d == 7 }

  /** A piece of the colour that slides in direction d: a queen, or a bishop on a diagonal, a rook on a rank or file. */
  predicate SliderFor(pc: Piece, d: int, white: bool)
  {
    pc == Colored(WQUEEN, white)
    || (IsDiagonal(d) && pc == Colored(WBISHOP, white))
    || (!IsDiagonal(d) && pc == Colored(WROOK, white))
  }

  /** A piece of the colour that attacks its neighbour in direction -d: a king, a slider, or a pawn with d pointing back against its advance. */
  predicate NeighbourFor(pc: Piece, d: int, white: bool)
  {
    SliderFor(pc, d, white) || pc == Colored(WKING, white)
    || (pc == Colored(WPAWN, white) && DirFile(d) != 0 && DirRank(d) == (if white then -1 else 1))
  }

  /** The first piece in direction d from (r, f) is a slider of the colour for that direction. */
  predicate RayAttack(p: Position, r: int, f: int, d: int, white: bool)
  {
    var m := FirstOccupied(p, r, f, d, 1);
    m > 0 && SliderFor(At(p, r + Step(DirRank(d), m), f + Step(DirFile(d), m)), d, white)
  }

  /** The neighbour in direction d holds a king or pawn of the colour that attacks (r, f). */
  predicate NeighbourAttack(p: Position, r: int, f: int, d: int, white: bool)
  {
    OnBoard(r + Step(DirRank(d), 1), f + Step(DirFile(d), 1)) && NeighbourFor(At(p, r + Step(DirRank(d), 1), f + Step(DirFile(d), 1)), d, white)
  }

  /** The knight jumps (rank, file), in the order of the source's knight table. */
  function KnightRank(i: int): int { if i < 2 then 2 else if i < 4 then -2 else if i < 6 then 1 else -1 }

  function KnightFile(i: int): int { if i == 0 || i == 2 then 1 else if i == 1 || i == 3 then -1 else if i == 4 || i == 6 then 2 else -2 }

  /** A knight of the colour stands a knight's jump from (r, f). */
  predicate KnightAttack(p: Position, r: int, f: int, white: bool)
  {
    exists i :: 0 <= i < 8 && OnBoard(r + KnightRank(i), f + KnightFile(i))
      && At(p, r + KnightRank(i), f + KnightFile(i)) == Colored(WKNIGHT, white)
  }

  /** Attacked, direction by direction: a knight, or some direction's neighbour or first piece. */
  predicate AttackedByDirections(p: Position, r: int, f: int, white: bool)
  {
    KnightAttack(p, r, f, white)
    || exists d :: 0 <= d < 8 && (NeighbourAttack(p, r, f, d, white) || RayAttack(p, r, f, d, white))
  }

  /** Both forms of "attacked" agree on every square of the board. */
  lemma AttackedIffByDirections(p: Position, r: int, f: int, white: bool)
    requires OnBoard(r, f)
    ensures Attacked(p, r, f, white) <==> AttackedByDirections(p, r, f, white)
  {
    if Attacked(p, r, f, white) {
      var sr, sf :| 0 <= sr < 8 && 0 <= sf < 8 && OfColour(At(p, sr, sf), white) && AttacksSquare(p, sr, sf, r, f);
      var pc := At(p, sr, sf);
      if Kind(pc) == WKNIGHT {
        KnightJumpIsInTable(p, sr, sf, r, f, white);
      } else if Kind(pc) == WPAWN || Kind(pc) == WKING {
        var d := NeighbourDirection(p, sr, sf, r, f, white);
      } else {
        SliderOnLine(p, sr, sf, r, f);
        var d := SliderDirection(p, sr, sf, r, f, white);
      }
    }
    if AttackedByDirections(p, r, f, white) {
      if KnightAttack(p, r, f, white) {
        var i :| 0 <= i < 8 && OnBoard(r + KnightRank(i), f + KnightFile(i))
          && At(p, r + KnightRank(i), f + KnightFile(i)) == Colored(WKNIGHT, white);
        assert AttacksSquare(p, r + KnightRank(i), f + KnightFile(i), r, f);
      } else {
        var d :| 0 <= d < 8 && (NeighbourAttack(p, r, f, d, white) || RayAttack(p, r, f, d, white));
        if RayAttack(p, r, f, d, white) {
          RayIsAttacker(p, r, f, d, white);
        } else {
          NeighbourIsAttacker(p, r, f, d, white);
        }
      }
    }
  }

  /** The index of a knight jump in the knight table. */
  function KnightIndex(dr: int, df: int): (i: int)
    requires (Abs(dr) == 1 && Abs(df) == 2) || (Abs(dr) == 2 && Abs(df) == 1)
    ensures 0 <= i < 8 && KnightRank(i) == dr && KnightFile(i) == df
  {
    if dr == 2 then (if df == 1 then 0 else 1)
    else if dr == -2 then (if df == 1 then 2 else 3)
    else if dr == 1 then (if df == 2 then 4 else 5)
    else (if df == 2 then 6 else 7)
  }

  /** A knight attacking the square stands at one of the table's jumps from it. */
  lemma KnightJumpIsInTable(p: Position, sr: int, sf: int, r: int, f: int, white: bool)
    requires OnBoard(sr, sf) && OnBoard(r, f) && OfColour(At(p, sr, sf), white) && Kind(At(p, sr, sf)) == WKNIGHT
    requires AttacksSquare(p, sr, sf, r, f)
    ensures KnightAttack(p, r, f, white)
  {
    var i := KnightIndex(sr - r, sf - f);
    assert r + KnightRank(i) == sr && f + KnightFile(i) == sf;
  }

  /** A pawn or king attacking the square is its neighbour in the direction towards it. */
  lemma NeighbourDirection(p: Position, sr: int, sf: int, r: int, f: int, white: bool) returns (d: int)
    requires OnBoard(sr, sf) && OnBoard(r, f) && OfColour(At(p, sr, sf), white)
    requires Kind(At(p, sr, sf)) == WPAWN || Kind(At(p, sr, sf)) == WKING
    requires AttacksSquare(p, sr, sf, r, f)
    ensures 0 <= d < 8 && NeighbourAttack(p, r, f, d, white)
  {
    d := DirIndex(Sign(sr - r), Sign(sf - f));
    assert r + Step(DirRank(d), 1) == sr && f + Step(DirFile(d), 1) == sf;
  }

  /** A bishop, rook or queen on a line with the square and a clear path is the first piece in the direction towards it. */
  lemma SliderDirection(p: Position, sr: int, sf: int, r: int, f: int, white: bool) returns (d: int)
    requires OnBoard(sr, sf) && OnBoard(r, f) && OfColour(At(p, sr, sf), white)
    requires Kind(At(p, sr, sf)) in {WBISHOP, WROOK, WQUEEN}
    requires var diagonal := Abs(r - sr) == Abs(f - sf) != 0;
      var straight := (r == sr) != (f == sf);
      (diagonal || straight)
      && ClearBetween(p, r, f, Sign(sr - r), Sign(sf - f), Max(Abs(r - sr), Abs(f - sf)))
      && (Kind(At(p, sr, sf)) == WBISHOP ==> diagonal)
      && (Kind(At(p, sr, sf)) == WROOK ==> straight)
    ensures 0 <= d < 8 && RayAttack(p, r, f, d, white)
  {
    var n;
    d, n := LineDirection(sr, sf, r, f);
    ClearRayFirst(p, r, f, d, n);
    SliderKinds(At(p, sr, sf), d, white);
  }

  /** With the squares before distance n empty, an occupied square at distance n is the first piece in the direction. */
  lemma ClearRayFirst(p: Position, r: int, f: int, d: int, n: int)
    requires 1 <= n <= 7 && ClearBetween(p, r, f, DirRank(d), DirFile(d), n)
    requires OnBoard(r + Step(DirRank(d), n), f + Step(DirFile(d), n)) && !EmptyAt(p, r + Step(DirRank(d), n), f + Step(DirFile(d), n))
    ensures FirstOccupied(p, r, f, d, 1) == n
  {
    forall k | 1 <= k < n
      ensures FreeOnRay(p, r, f, DirRank(d), DirFile(d), k)
    {
    }
    FirstOccupiedIs(p, r, f, d, 1, n);
  }

  /** The sliders of the colour in direction d: a bishop on a diagonal, a rook on a rank or file and a queen on either. */
  lemma SliderKinds(pc: Piece, d: int, white: bool)
    ensures SliderFor(pc, d, white) <==>
      OfColour(pc, white) && Kind(pc) in {WBISHOP, WROOK, WQUEEN}
      && (Kind(pc) == WBISHOP ==> IsDiagonal(d))
      && (Kind(pc) == WROOK ==> !IsDiagonal(d))
  {
  }

  /** A bishop, rook or queen with a clear line of its kind to the square attacks it: the converse of SliderOnLine. */
  lemma LineAttacks(p: Position, sr: int, sf: int, r: int, f: int)
    requires OnBoard(sr, sf) && Kind(At(p, sr, sf)) in {WBISHOP, WROOK, WQUEEN} && At(p, sr, sf) != NOPC
    requires var diagonal := Abs(r - sr) == Abs(f - sf) != 0;
      var straight := (r == sr) != (f == sf);
      (diagonal || straight)
      && ClearBetween(p, r, f, Sign(sr - r), Sign(sf - f), Max(Abs(r - sr), Abs(f - sf)))
      && (Kind(At(p, sr, sf)) == WBISHOP ==> diagonal)
      && (Kind(At(p, sr, sf)) == WROOK ==> straight)
    ensures AttacksSquare(p, sr, sf, r, f)
  {
  }


  /** A sliding attacker stands on a line with the square, with every square between empty. */
  lemma SliderOnLine(p: Position, sr: int, sf: int, r: int, f: int)
    requires OnBoard(sr, sf) && Kind(At(p, sr, sf)) in {WBISHOP, WROOK, WQUEEN} && At(p, sr, sf) != NOPC
    requires AttacksSquare(p, sr, sf, r, f)
    ensures var diagonal := Abs(r - sr) == Abs(f - sf) != 0;
      var straight := (r == sr) != (f == sf);
      (diagonal || straight)
      && ClearBetween(p, r, f, Sign(sr - r), Sign(sf - f), Max(Abs(r - sr), Abs(f - sf)))
      && (Kind(At(p, sr, sf)) == WBISHOP ==> diagonal)
      && (Kind(At(p, sr, sf)) == WROOK ==> straight)
  {
  }

  /** Two squares on a common line are n steps apart in direction d, d being diagonal exactly when the line is. */
  lemma LineDirection(sr: int, sf: int, r: int, f: int) returns (d: int, n: int)
    requires OnBoard(sr, sf) && OnBoard(r, f)
    requires Abs(r - sr) == Abs(f - sf) != 0 || (r == sr) != (f == sf)
    ensures 0 <= d < 8 && DirRank(d) == Sign(sr - r) && DirFile(d) == Sign(sf - f)
    ensures n == Max(Abs(r - sr), Abs(f - sf)) && 1 <= n <= 7
    ensures r + Step(DirRank(d), n) == sr && f + Step(DirFile(d), n) == sf
    ensures IsDiagonal(d) <==> Abs(r - sr) == Abs(f - sf) != 0
  {
    LineGeometry(sr, sf, r, f);
    d := DirIndex(Sign(sr - r), Sign(sf - f));
    n := Max(Abs(r - sr), Abs(f - sf));
    DiagonalsStepBoth(d);
  }

  /** Two squares on a common line are n steps apart in the direction of the signs of their differences. */
  lemma LineGeometry(sr: int, sf: int, r: int, f: int)
    requires OnBoard(sr, sf) && OnBoard(r, f)
    requires Abs(r - sr) == Abs(f - sf) != 0 || (r == sr) != (f == sf)
    ensures var n := Max(Abs(r - sr), Abs(f - sf));
      1 <= n <= 7 && r + Step(Sign(sr - r), n) == sr && f + Step(Sign(sf - f), n) == sf
      && (Sign(sr - r) != 0 && Sign(sf - f) != 0 <==> Abs(r - sr) == Abs(f - sf) != 0)
  {
  }


  /** The squares before the first piece in a direction are on the board and empty. */
  lemma FirstOccupiedClear(p: Position, r: int, f: int, d: int)
    requires FirstOccupied(p, r, f, d, 1) > 0
    ensures ClearBetween(p, r, f, DirRank(d), DirFile(d), FirstOccupied(p, r, f, d, 1))
  {
    FirstOccupiedAfterEmpty(p, r, f, d, 1);
    forall k | 0 < k < FirstOccupied(p, r, f, d, 1)
      ensures OnBoard(r + Step(DirRank(d), k), f + Step(DirFile(d), k)) && EmptyAt(p, r + Step(DirRank(d), k), f + Step(DirFile(d), k))
    {
      assert FreeOnRay(p, r, f, DirRank(d), DirFile(d), k);
    }
  }

  /** The square m steps from (r, f) in direction d lies on a diagonal or a line with it, m squares away, in direction d. */
  lemma RayGeometry(r: int, f: int, d: int, m: int)
    requires 0 <= d < 8 && 1 <= m
    ensures var sr, sf := r + Step(DirRank(d), m), f + Step(DirFile(d), m);
      Sign(sr - r) == DirRank(d) && Sign(sf - f) == DirFile(d)
      && Max(Abs(r - sr), Abs(f - sf)) == m
      && (IsDiagonal(d) <==> Abs(r - sr) == Abs(f - sf) != 0)
      && (!IsDiagonal(d) <==> (r - sr == 0) != (f - sf == 0))
  {
  }

  /** The diagonal directions step along both ranks and files. */
  lemma DiagonalsStepBoth(d: int)
    requires 0 <= d < 8
    ensures IsDiagonal(d) <==> DirRank(d) != 0 && DirFile(d) != 0
  {
  }

  /** The first piece in a direction, when it slides that way, attacks the square. */
  lemma RayIsAttacker(p: Position, r: int, f: int, d: int, white: bool)
    requires OnBoard(r, f) && 0 <= d < 8 && RayAttack(p, r, f, d, white)
    ensures Attacked(p, r, f, white)
  {
    var m := FirstOccupied(p, r, f, d, 1);
    var sr, sf := r + Step(DirRank(d), m), f + Step(DirFile(d), m);
    RayGeometry(r, f, d, m);
    SliderKinds(At(p, sr, sf), d, white);
    assert ClearBetween(p, r, f, DirRank(d), DirFile(d), m) by {
      FirstOccupiedClear(p, r, f, d);
    }
    LineAttacks(p, sr, sf, r, f);
  }

  /** A neighbour that attacks the square in the direction-wise sense does so square by square. */
  lemma NeighbourIsAttacker(p: Position, r: int, f: int, d: int, white: bool)
    requires OnBoard(r, f) && 0 <= d < 8 && NeighbourAttack(p, r, f, d, white)
    ensures Attacked(p, r, f, white)
  {
    var sr, sf := r + Step(DirRank(d), 1), f + Step(DirFile(d), 1);
    if SliderFor(At(p, sr, sf), d, white) {
      FirstOccupiedIs(p, r, f, d, 1, 1);
      RayIsAttacker(p, r, f, d, white);
    } else {
      assert AttacksSquare(p, sr, sf, r, f);
    }
  }
}
