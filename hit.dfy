/**
 * The square-attack test of the move generator (_board_hit and its four
 * helpers in src/movegen.c; chess/src/movegen.cpp has the same code as
 * Board::hit). Neighbouring squares are looked at first, recording in an
 * eight-bit mask which directions they block; the knight squares next;
 * then the diagonals and lines from distance 2 on, skipping the blocked
 * ones. The test is proved to answer exactly Attack.Attacked.
 */
module Hit {
  import opened Defs
  import opened Attack

  /**
   * The blocks byte of _board_hit, as the set of its bits that are set
   * (bit 0 up, 1 up-right, 2 right, ... 7 up-left): `blocks & (1 << k)`
   * is `k in blocks` and `blocks |= (1 << k)` adds k.
   */
  type Blocks = set<int>

  /** The neighbour of (r, f) in direction d is on the board and empty, so the direction is not blocked. */
  predicate Open(p: Position, r: int, f: int, d: int)
  {
    OnBoard(r + Step(DirRank(d), 1), f + Step(DirFile(d), 1)) && EmptyAt(p, r + Step(DirRank(d), 1), f + Step(DirFile(d), 1))
  }

  /** The directions blocked next to (r, f): their neighbour is off the board or occupied. */
  function BlockedDirs(p: Position, r: int, f: int): Blocks
  {
    set d | 0 <= d < 8 && !Open(p, r, f, d)
  }

  /** The first piece in direction d from distance 2 on slides that way and has the colour. */
  predicate DistantAttack(p: Position, r: int, f: int, d: int, white: bool)
  {
    var m := FirstOccupied(p, r, f, d, 2);
    m > 0 && SliderFor(At(p, r + Step(DirRank(d), m), f + Step(DirFile(d), m)), d, white)
  }

  /**
   * The LOOKINGFOR4 macro: `found` when (rk, offs) holds one of the four
   * pieces; otherwise the blocker bit is set when the square is off the
   * board or holds another piece.
   */
  method LookingFor4(p: Position, rk: int, offs: int, pc1: Piece, pc2: Piece, pc3: Piece, pc4: Piece, blocks: Blocks, bit: nat)
    returns (found: bool, blocks': Blocks)
    requires bit < 8
    ensures found <==> OnBoard(rk, offs) && (At(p, rk, offs) == pc1 || At(p, rk, offs) == pc2 || At(p, rk, offs) == pc3 || At(p, rk, offs) == pc4)
    ensures !found ==> blocks' == blocks + (if OnBoard(rk, offs) && EmptyAt(p, rk, offs) then {} else {bit})
  {
    blocks' := blocks;
    if OnBoard(rk, offs) {
      var attacker := At(p, rk, offs);
      if attacker == pc1 || attacker == pc2 || attacker == pc3 || attacker == pc4 {
        return true, blocks';
      } else if attacker != NOPC {
        blocks' := blocks + {bit};
      }
    } else {
      blocks' := blocks + {bit};
    }
    found := false;
  }

  /** The LOOKINGFOR3 macro: LOOKINGFOR4 with three pieces. */
  method LookingFor3(p: Position, rk: int, offs: int, pc1: Piece, pc2: Piece, pc3: Piece, blocks: Blocks, bit: nat)
    returns (found: bool, blocks': Blocks)
    requires bit < 8
    ensures found <==> OnBoard(rk, offs) && (At(p, rk, offs) == pc1 || At(p, rk, offs) == pc2 || At(p, rk, offs) == pc3)
    ensures !found ==> blocks' == blocks + (if OnBoard(rk, offs) && EmptyAt(p, rk, offs) then {} else {bit})
  {
    blocks' := blocks;
    if OnBoard(rk, offs) {
      var attacker := At(p, rk, offs);
      if attacker == pc1 || attacker == pc2 || attacker == pc3 {
        return true, blocks';
      } else if attacker != NOPC {
        blocks' := blocks + {bit};
      }
    } else {
      blocks' := blocks + {bit};
    }
    found := false;
  }

  /** A diagonal neighbour behind (r, f) for pawns of the colour: a pawn, bishop, queen or king there attacks. */
  lemma PawnSideNeighbour(p: Position, r: int, f: int, d: nat, white: bool, nr: int, nf: int, o: int)
    requires d < 8 && IsDiagonal(d) && DirRank(d) == (if white then -1 else 1)
    requires nr == r + Step(DirRank(d), 1) && nf == f + Step(DirFile(d), 1) && o == (if white then 0 else 6)
    ensures NeighbourAttack(p, r, f, d, white) <==> OnBoard(nr, nf) && (At(p, nr, nf) == WPAWN + o || At(p, nr, nf) == WBISHOP + o || At(p, nr, nf) == WQUEEN + o || At(p, nr, nf) == WKING + o)
    ensures Open(p, r, f, d) == (OnBoard(nr, nf) && EmptyAt(p, nr, nf))
  {
  }

  /** A diagonal neighbour ahead of (r, f) for pawns of the colour: a bishop, queen or king there attacks. */
  lemma DiagonalNeighbour(p: Position, r: int, f: int, d: nat, white: bool, nr: int, nf: int, o: int)
    requires d < 8 && IsDiagonal(d) && DirRank(d) == (if white then 1 else -1)
    requires nr == r + Step(DirRank(d), 1) && nf == f + Step(DirFile(d), 1) && o == (if white then 0 else 6)
    ensures NeighbourAttack(p, r, f, d, white) <==> OnBoard(nr, nf) && (At(p, nr, nf) == WBISHOP + o || At(p, nr, nf) == WQUEEN + o || At(p, nr, nf) == WKING + o)
    ensures Open(p, r, f, d) == (OnBoard(nr, nf) && EmptyAt(p, nr, nf))
  {
  }

  /** A neighbour on the rank or file of (r, f): a rook, queen or king there attacks. */
  lemma LineNeighbour(p: Position, r: int, f: int, d: nat, white: bool, nr: int, nf: int, o: int)
    requires d < 8 && !IsDiagonal(d)
    requires nr == r + Step(DirRank(d), 1) && nf == f + Step(DirFile(d), 1) && o == (if white then 0 else 6)
    ensures NeighbourAttack(p, r, f, d, white) <==> OnBoard(nr, nf) && (At(p, nr, nf) == WROOK + o || At(p, nr, nf) == WQUEEN + o || At(p, nr, nf) == WKING + o)
    ensures Open(p, r, f, d) == (OnBoard(nr, nf) && EmptyAt(p, nr, nf))
  {
  }

  /**
   * _board_hitSingle: a king, pawn, bishop, rook or queen of the colour on
   * a neighbouring square attacks (rk, offs). When none does, the bits of
   * the directions whose neighbour is off the board or occupied are set.
   */
  method HitSingle(p: Position, rk: int, offs: int, white: bool, blocks: Blocks) returns (hit: bool, blocks': Blocks)
    ensures hit <==> exists d :: 0 <= d < 8 && NeighbourAttack(p, rk, offs, d, white)
    ensures !hit ==> blocks' == blocks + BlockedDirs(p, rk, offs)
  {
    var rkOffs := if white then 1 else -1;
    var pcOffs := if white then 0 else 6;
    blocks' := blocks;
    ghost var done: set<int> := {};
    ghost var prev: Blocks;
    // pawns and other single diagonal attackers
    prev := blocks';
    hit, blocks' := LookingFor4(p, rk - rkOffs, offs + 1, WPAWN + pcOffs, WBISHOP + pcOffs, WQUEEN + pcOffs, WKING + pcOffs, blocks', 2 + rkOffs);
    PawnSideNeighbour(p, rk, offs, 2 + rkOffs, white, rk - rkOffs, offs + 1, pcOffs);
    if hit { return; }
    MarkDirection(p, rk, offs, 2 + rkOffs, blocks, prev, blocks', done);
    done := done + {2 + rkOffs};
    prev := blocks';
    hit, blocks' := LookingFor4(p, rk - rkOffs, offs - 1, WPAWN + pcOffs, WBISHOP + pcOffs, WQUEEN + pcOffs, WKING + pcOffs, blocks', 6 - rkOffs);
    PawnSideNeighbour(p, rk, offs, 6 - rkOffs, white, rk - rkOffs, offs - 1, pcOffs);
    if hit { return; }
    MarkDirection(p, rk, offs, 6 - rkOffs, blocks, prev, blocks', done);
    done := done + {6 - rkOffs};
    // non-pawn single diagonal attackers
    prev := blocks';
    hit, blocks' := LookingFor3(p, rk + rkOffs, offs + 1, WBISHOP + pcOffs, WQUEEN + pcOffs, WKING + pcOffs, blocks', 2 - rkOffs);
    DiagonalNeighbour(p, rk, offs, 2 - rkOffs, white, rk + rkOffs, offs + 1, pcOffs);
    if hit { return; }
    MarkDirection(p, rk, offs, 2 - rkOffs, blocks, prev, blocks', done);
    done := done + {2 - rkOffs};
    prev := blocks';
    hit, blocks' := LookingFor3(p, rk + rkOffs, offs - 1, WBISHOP + pcOffs, WQUEEN + pcOffs, WKING + pcOffs, blocks', 6 + rkOffs);
    DiagonalNeighbour(p, rk, offs, 6 + rkOffs, white, rk + rkOffs, offs - 1, pcOffs);
    if hit { return; }
    MarkDirection(p, rk, offs, 6 + rkOffs, blocks, prev, blocks', done);
    done := done + {6 + rkOffs};
    // single lateral attackers
    prev := blocks';
    hit, blocks' := LookingFor3(p, rk + 1, offs, WROOK + pcOffs, WQUEEN + pcOffs, WKING + pcOffs, blocks', 0);
    LineNeighbour(p, rk, offs, 0, white, rk + 1, offs, pcOffs);
    if hit { return; }
    MarkDirection(p, rk, offs, 0, blocks, prev, blocks', done);
    done := done + {0};
    prev := blocks';
    hit, blocks' := LookingFor3(p, rk, offs + 1, WROOK + pcOffs, WQUEEN + pcOffs, WKING + pcOffs, blocks', 2);
    LineNeighbour(p, rk, offs, 2, white, rk, offs + 1, pcOffs);
    if hit { return; }
    MarkDirection(p, rk, offs, 2, blocks, prev, blocks', done);
    done := done + {2};
    prev := blocks';
    hit, blocks' := LookingFor3(p, rk - 1, offs, WROOK + pcOffs, WQUEEN + pcOffs, WKING + pcOffs, blocks', 4);
    LineNeighbour(p, rk, offs, 4, white, rk - 1, offs, pcOffs);
    if hit { return; }
    MarkDirection(p, rk, offs, 4, blocks, prev, blocks', done);
    done := done + {4};
    prev := blocks';
    hit, blocks' := LookingFor3(p, rk, offs - 1, WROOK + pcOffs, WQUEEN + pcOffs, WKING + pcOffs, blocks', 6);
    LineNeighbour(p, rk, offs, 6, white, rk, offs - 1, pcOffs);
    if hit { return; }
    MarkDirection(p, rk, offs, 6, blocks, prev, blocks', done);
    done := done + {6};
    NoNeighbourLeft(p, rk, offs, white, rkOffs);
    AllDirections(p, rk, offs, rkOffs, done);
  }

  /** When none of the eight neighbours checked in the order of _board_hitSingle attacks, no neighbour does. */
  lemma NoNeighbourLeft(p: Position, r: int, f: int, white: bool, rkOffs: int)
    requires rkOffs == if white then 1 else -1
    requires !NeighbourAttack(p, r, f, 2 + rkOffs, white) && !NeighbourAttack(p, r, f, 6 - rkOffs, white)
    requires !NeighbourAttack(p, r, f, 2 - rkOffs, white) && !NeighbourAttack(p, r, f, 6 + rkOffs, white)
    requires !NeighbourAttack(p, r, f, 0, white) && !NeighbourAttack(p, r, f, 2, white)
    requires !NeighbourAttack(p, r, f, 4, white) && !NeighbourAttack(p, r, f, 6, white)
    ensures !exists d :: 0 <= d < 8 && NeighbourAttack(p, r, f, d, white)
  {
    forall d | 0 <= d < 8
      ensures !NeighbourAttack(p, r, f, d, white)
    {
      if white {
        assert d in {3, 5, 1, 7, 0, 2, 4, 6};
      } else {
        assert d in {1, 7, 3, 5, 0, 2, 4, 6};
      }
    }
  }

  /** Setting the bit of direction d when it is blocked extends the record of the directions looked at so far by d. */
  lemma MarkDirection(p: Position, r: int, f: int, d: int, blocks: Blocks, prev: Blocks, next: Blocks, done: set<int>)
    requires 0 <= d < 8
    requires prev == blocks + BlockedDirs(p, r, f) * done
    requires next == prev + (if Open(p, r, f, d) then {} else {d})
    ensures next == blocks + BlockedDirs(p, r, f) * (done + {d})
  {
  }

  /** Directions 2 ± 1, 6 ± 1 and the four lines are all eight directions. */
  lemma AllDirections(p: Position, r: int, f: int, rkOffs: int, done: set<int>)
    requires rkOffs == 1 || rkOffs == -1
    requires done == {} + {2 + rkOffs} + {6 - rkOffs} + {2 - rkOffs} + {6 + rkOffs} + {0} + {2} + {4} + {6}
    ensures BlockedDirs(p, r, f) * done == BlockedDirs(p, r, f)
  {
    assert done == {0, 1, 2, 3, 4, 5, 6, 7};
  }

  /**
   * _board_hitKnight: a knight of the colour stands at one of the eight
   * jumps of the knight table from (rk, offs).
   */
  method HitKnight(p: Position, rk: int, offs: int, white: bool) returns (hit: bool)
    ensures hit <==> KnightAttack(p, rk, offs, white)
  {
    var pcOffs := if white then 0 else 6;
    var i := 0;
    while i < 8
      invariant 0 <= i <= 8
      invariant forall k :: 0 <= k < i ==>
        !(OnBoard(rk + KnightRank(k), offs + KnightFile(k)) && At(p, rk + KnightRank(k), offs + KnightFile(k)) == Colored(WKNIGHT, white))
    {
      var dx, dy := KnightRank(i), KnightFile(i);
      if OnBoard(rk + dx, offs + dy) && At(p, rk + dx, offs + dy) == WKNIGHT + pcOffs {
        return true;
      }
      i := i + 1;
    }
    return false;
  }

  /**
   * _board_hitDiagonal: along each diagonal not blocked in `blocks`, the
   * first piece from distance 2 on is a bishop or queen of the colour.
   */
  method HitDiagonal(p: Position, rk: int, offs: int, white: bool, blocks: Blocks) returns (hit: bool)
    ensures hit <==> exists d :: 0 <= d < 8 && IsDiagonal(d) && d !in blocks && Walk(p, rk, offs, d, white, 2)
  {
    var i := 0;
    while i < 4
      invariant 0 <= i <= 4
      invariant forall d :: 0 <= d < 2 * i && IsDiagonal(d) ==> !(d !in blocks && Walk(p, rk, offs, d, white, 2))
    {
      assert forall d :: 2 * i <= d < 2 * i + 2 && IsDiagonal(d) ==> d == 2 * i + 1;
      if 2 * i + 1 !in blocks {
        hit := WalkDiagonal(p, rk, offs, white, i);
        if hit {
          return;
        }
      }
      i := i + 1;
    }
    return false;
  }

  /** The inner loop of _board_hitDiagonal for diagonal i: the walk from distance 2 to 7 stops at the edge or the first piece, and finds a hit when that piece is a bishop or queen of the colour. */
  method WalkDiagonal(p: Position, rk: int, offs: int, white: bool, i: int) returns (hit: bool)
    requires 0 <= i < 4
    ensures hit == Walk(p, rk, offs, 2 * i + 1, white, 2)
  {
    var pcOffs := if white then 0 else 6;
    var d := 2 * i + 1;
    assert IsDiagonal(d);
    var j := 1;
    while j < 7
      invariant 1 <= j <= 7
      invariant Walk(p, rk, offs, d, white, 2) == Walk(p, rk, offs, d, white, j + 1)
    {
      // bishop_moves[i * 7 + j]
      var dx, dy := Step(DirRank(d), j + 1), Step(DirFile(d), j + 1);
      if OnBoard(rk + dx, offs + dy) {
        var attacker := At(p, rk + dx, offs + dy);
        DiagonalSlider(attacker, d, white, pcOffs);
        if attacker == WBISHOP + pcOffs || attacker == WQUEEN + pcOffs {
          return true;
        } else if attacker != NOPC {
          return false;
        }
      } else {
        return false;
      }
      j := j + 1;
    }
    return false;
  }

  /**
   * _board_hitLateral: along each line not blocked in `blocks`, the first
   * piece from distance 2 on is a rook or queen of the colour.
   */
  method HitLateral(p: Position, rk: int, offs: int, white: bool, blocks: Blocks) returns (hit: bool)
    ensures hit <==> exists d :: 0 <= d < 8 && !IsDiagonal(d) && d !in blocks && Walk(p, rk, offs, d, white, 2)
  {
    var i := 0;
    while i < 4
      invariant 0 <= i <= 4
      invariant forall d :: 0 <= d < 2 * i && !IsDiagonal(d) ==> !(d !in blocks && Walk(p, rk, offs, d, white, 2))
    {
      assert forall d :: 2 * i <= d < 2 * i + 2 && !IsDiagonal(d) ==> d == 2 * i;
      if 2 * i !in blocks {
        hit := WalkLateral(p, rk, offs, white, i);
        if hit {
          return;
        }
      }
      i := i + 1;
    }
    return false;
  }

  /** The inner loop of _board_hitLateral for line i: the walk from distance 2 to 7 stops at the edge or the first piece, and finds a hit when that piece is a rook or queen of the colour. */
  method WalkLateral(p: Position, rk: int, offs: int, white: bool, i: int) returns (hit: bool)
    requires 0 <= i < 4
    ensures hit == Walk(p, rk, offs, 2 * i, white, 2)
  {
    var pcOffs := if white then 0 else 6;
    var d := 2 * i;
    assert !IsDiagonal(d);
    var j := 1;
    while j < 7
      invariant 1 <= j <= 7
      invariant Walk(p, rk, offs, d, white, 2) == Walk(p, rk, offs, d, white, j + 1)
    {
      // rook_moves[i * 7 + j]
      var dx, dy := Step(DirRank(d), j + 1), Step(DirFile(d), j + 1);
      if OnBoard(rk + dx, offs + dy) {
        var attacker := At(p, rk + dx, offs + dy);
        LateralSlider(attacker, d, white, pcOffs);
        if attacker == WROOK + pcOffs || attacker == WQUEEN + pcOffs {
          return true;
        } else if attacker != NOPC {
          return false;
        }
      } else {
        return false;
      }
      j := j + 1;
    }
    return false;
  }


  /**
   * _board_hit: (rk, offs) is attacked by a piece of the colour (white
   * when `white`), exactly as the rules define it.
   */
  method Hit(p: Position, rk: int, offs: int, white: bool) returns (hit: bool)
    requires OnBoard(rk, offs)
    ensures hit == Attacked(p, rk, offs, white)
  {
    var blocks: Blocks := {};
    hit, blocks := HitSingle(p, rk, offs, white, blocks);
    if hit {
      AttackedIffByDirections(p, rk, offs, white);
      return;
    }
    assert blocks == BlockedDirs(p, rk, offs);
    hit := HitKnight(p, rk, offs, white);
    if hit {
      AttackedIffByDirections(p, rk, offs, white);
      return;
    }
    hit := HitDiagonal(p, rk, offs, white, blocks);
    if hit {
      DistantIsAttack(p, rk, offs, white, blocks);
      return;
    }
    hit := HitLateral(p, rk, offs, white, blocks);
    if hit {
      DistantIsAttack(p, rk, offs, white, blocks);
      return;
    }
    NoAttackFound(p, rk, offs, white, blocks);
  }

  /** On a diagonal the sliders of the colour are its bishop and queen. */
  lemma DiagonalSlider(pc: Piece, d: int, white: bool, o: int)
    requires IsDiagonal(d) && o == (if white then 0 else 6)
    ensures SliderFor(pc, d, white) <==> pc == WBISHOP + o || pc == WQUEEN + o
  {
  }

  /** On a rank or file the sliders of the colour are its rook and queen. */
  lemma LateralSlider(pc: Piece, d: int, white: bool, o: int)
    requires !IsDiagonal(d) && o == (if white then 0 else 6)
    ensures SliderFor(pc, d, white) <==> pc == WROOK + o || pc == WQUEEN + o
  {
  }

  /**
   * The walk of _board_hitDiagonal and _board_hitLateral along direction d
   * from distance n: off the board it stops without a hit, on a slider of
   * the colour it hits, on any other piece it stops, and over an empty
   * square it goes on, up to distance 7.
   */
  predicate Walk(p: Position, r: int, f: int, d: int, white: bool, n: int)
    requires 1 <= n
    decreases 8 - n
  {
    if n > 7 || !OnBoard(r + Step(DirRank(d), n), f + Step(DirFile(d), n)) then false
    else if SliderFor(At(p, r + Step(DirRank(d), n), f + Step(DirFile(d), n)), d, white) then true
    else if !EmptyAt(p, r + Step(DirRank(d), n), f + Step(DirFile(d), n)) then false
    else Walk(p, r, f, d, white, n + 1)
  }

  /** The walk from distance n hits exactly when the first piece from distance n on slides towards (r, f) and has the colour. */
  lemma {:induction false} WalkIsDistant(p: Position, r: int, f: int, d: int, white: bool, n: int)
    requires 1 <= n
    ensures Walk(p, r, f, d, white, n) <==>
      var m := FirstOccupied(p, r, f, d, n);
      m > 0 && SliderFor(At(p, r + Step(DirRank(d), m), f + Step(DirFile(d), m)), d, white)
    decreases 8 - n
  {
    var nr, nf := r + Step(DirRank(d), n), f + Step(DirFile(d), n);
    if n > 7 || !OnBoard(nr, nf) {
      assert FirstOccupied(p, r, f, d, n) == 0 && !Walk(p, r, f, d, white, n);
    } else if !EmptyAt(p, nr, nf) {
      assert FirstOccupied(p, r, f, d, n) == n;
      assert Walk(p, r, f, d, white, n) == SliderFor(At(p, nr, nf), d, white);
    } else {
      assert FirstOccupied(p, r, f, d, n) == FirstOccupied(p, r, f, d, n + 1);
      assert Walk(p, r, f, d, white, n) == Walk(p, r, f, d, white, n + 1);
      WalkIsDistant(p, r, f, d, white, n + 1);
    }
  }

  /** Past its neighbour, a direction's first piece is its first piece from distance 2 on. */
  lemma RayPastNeighbour(p: Position, r: int, f: int, d: int, white: bool)
    requires 0 <= d < 8
    ensures RayAttack(p, r, f, d, white) <==>
      (NeighbourAttack(p, r, f, d, white) && SliderFor(At(p, r + Step(DirRank(d), 1), f + Step(DirFile(d), 1)), d, white))
      || (Open(p, r, f, d) && DistantAttack(p, r, f, d, white))
  {
    var nr, nf := r + Step(DirRank(d), 1), f + Step(DirFile(d), 1);
    if !OnBoard(nr, nf) {
      assert FirstOccupied(p, r, f, d, 1) == 0;
    } else if !EmptyAt(p, nr, nf) {
      assert FirstOccupied(p, r, f, d, 1) == 1;
    } else {
      assert FirstOccupied(p, r, f, d, 1) == FirstOccupied(p, r, f, d, 2);
      assert !NeighbourAttack(p, r, f, d, white);
    }
  }

  /** A distant attack along an unblocked direction is an attack. */
  lemma DistantIsAttack(p: Position, r: int, f: int, white: bool, blocks: Blocks)
    requires OnBoard(r, f)
    requires blocks == BlockedDirs(p, r, f)
    requires (exists d :: 0 <= d < 8 && IsDiagonal(d) && d !in blocks && Walk(p, r, f, d, white, 2))
          || (exists d :: 0 <= d < 8 && !IsDiagonal(d) && d !in blocks && Walk(p, r, f, d, white, 2))
    ensures Attacked(p, r, f, white)
  {
    var d :| 0 <= d < 8 && d !in blocks && Walk(p, r, f, d, white, 2);
    WalkIsDistant(p, r, f, d, white, 2);
    RayPastNeighbour(p, r, f, d, white);
    AttackedIffByDirections(p, r, f, white);
  }

  /** With no neighbour, knight or distant attacker found, the square is not attacked. */
  lemma NoAttackFound(p: Position, r: int, f: int, white: bool, blocks: Blocks)
    requires OnBoard(r, f)
    requires blocks == BlockedDirs(p, r, f)
    requires !exists d :: 0 <= d < 8 && NeighbourAttack(p, r, f, d, white)
    requires !KnightAttack(p, r, f, white)
    requires !exists d :: 0 <= d < 8 && IsDiagonal(d) && d !in blocks && Walk(p, r, f, d, white, 2)
    requires !exists d :: 0 <= d < 8 && !IsDiagonal(d) && d !in blocks && Walk(p, r, f, d, white, 2)
    ensures !Attacked(p, r, f, white)
  {
    forall d | 0 <= d < 8
      ensures !RayAttack(p, r, f, d, white)
    {
      assert !NeighbourAttack(p, r, f, d, white);
      assert d !in blocks ==> !Walk(p, r, f, d, white, 2);
      NoRayAttack(p, r, f, d, white, blocks);
    }
    AttackedIffByDirections(p, r, f, white);
  }

  /** One direction of NoAttackFound: no neighbour attacker, and no walk found along it when it is open. */
  lemma NoRayAttack(p: Position, r: int, f: int, d: int, white: bool, blocks: Blocks)
    requires 0 <= d < 8 && blocks == BlockedDirs(p, r, f)
    requires !NeighbourAttack(p, r, f, d, white)
    requires d !in blocks ==> !Walk(p, r, f, d, white, 2)
    ensures !RayAttack(p, r, f, d, white)
  {
    WalkIsDistant(p, r, f, d, white, 2);
    RayPastNeighbour(p, r, f, d, white);
    assert Open(p, r, f, d) ==> d !in blocks;
  }
}
