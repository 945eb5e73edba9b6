/**
 * The pseudo-legal move generators of src/movegen.c (the same text as
 * the Board::_generate*Moves methods of chess/src/movegen.cpp) and the
 * scan that runs them over the side to move's pieces.
 *
 * Each generator is a method appending to the move list, proved to
 * append exactly the moves of a specification function; the functions
 * are then related to the rules of play (Article 3 of the FIDE Laws of
 * Chess) by lemmas.
 */
module MoveGen {
  import opened Defs
  import opened Attack
  import Hit
  import ArrayList

  /** Two pieces of opposite colours; `killpc / 6 != frompc / 6` on occupied squares. */
  predicate Opponents(killpc: Piece, frompc: Piece)
  {
    killpc != NOPC && frompc != NOPC && IsWhitePiece(killpc) != IsWhitePiece(frompc)
  }

  /** A move to an empty square: the piece stays what it is and nothing is taken. */
  function Plain(from: Pos, to: Pos, pc: Piece): Move
  {
    Move(from, to, NOPOS, pc, pc, NOPC)
  }

  /** A move taking the piece standing on the destination. */
  function Capture(from: Pos, to: Pos, pc: Piece, killpc: Piece): Move
  {
    Move(from, to, to, pc, pc, killpc)
  }

  /**
   * The move, if any, of the piece `pc` on (rk, offs) to (r, f): none off
   * the board, a plain move to an empty square, a capture of a piece of
   * the other colour, none onto a piece of its own colour.
   */
  function StepTo(p: Position, rk: int, offs: int, r: int, f: int, pc: Piece): seq<Move>
    requires OnBoard(rk, offs)
  {
    if !OnBoard(r, f) then []
    else if EmptyAt(p, r, f) then [Plain(Pos2(offs, rk), Pos2(f, r), pc)]
    else if Opponents(At(p, r, f), pc) then [Capture(Pos2(offs, rk), Pos2(f, r), pc, At(p, r, f))]
    else []
  }

  // ---------------------------------------------------------------------
  // Knights and king steps

  /** The moves of the first n entries of the knight table (knight_moves). */
  function KnightSteps(p: Position, rk: int, offs: int, pc: Piece, n: nat): seq<Move>
    requires OnBoard(rk, offs)
  {
    if n == 0 then []
    else KnightSteps(p, rk, offs, pc, n - 1) + StepTo(p, rk, offs, rk + KnightRank(n - 1), offs + KnightFile(n - 1), pc)
  }

  /**
   * The king table (king_moves) as directions: up, down, right, left,
   * up-right, up-left, down-right, down-left.
   */
  function KingDir(i: int): int
  {
    if i == 0 then 0 else if i == 1 then 4 else if i == 2 then 2 else if i == 3 then 6
    else if i == 4 then 1 else if i == 5 then 7 else if i == 6 then 3 else 5
  }

  /** The moves of the first n entries of the king table. */
  function KingSteps(p: Position, rk: int, offs: int, pc: Piece, n: nat): seq<Move>
    requires OnBoard(rk, offs)
  {
    if n == 0 then []
    else KingSteps(p, rk, offs, pc, n - 1) + StepTo(p, rk, offs, rk + DirRank(KingDir(n - 1)), offs + DirFile(KingDir(n - 1)), pc)
  }

  // ---------------------------------------------------------------------
  // Sliders

  /**
   * The moves along direction d from distance n on: a plain move to each
   * empty square, then a capture if the first occupied square holds a
   * piece of the other colour; the ray ends at the first occupied square
   * and at the edge.
   */
  function Ray(p: Position, rk: int, offs: int, pc: Piece, d: int, n: int): seq<Move>
    requires OnBoard(rk, offs) && 1 <= n
    decreases 8 - n
  {
    var r, f := rk + Step(DirRank(d), n), offs + Step(DirFile(d), n);
    if n > 7 || !OnBoard(r, f) then []
    else if EmptyAt(p, r, f) then [Plain(Pos2(offs, rk), Pos2(f, r), pc)] + Ray(p, rk, offs, pc, d, n + 1)
    else if Opponents(At(p, r, f), pc) then [Capture(Pos2(offs, rk), Pos2(f, r), pc, At(p, r, f))]
    else []
  }

  /**
   * The direction of entry i of a slider's table: the bishop's diagonals
   * up-right, down-right, down-left, up-left; the rook's lines up, right,
   * down, left; the queen's diagonals then lines.
   */
  function SliderDir(kind: Piece, i: int): int
  {
    if kind == WBISHOP then 2 * i + 1
    else if kind == WROOK then 2 * i
    else if i < 4 then 2 * i + 1
    else 2 * (i - 4)
  }

  /** The moves along the first n directions of the slider's table. */
  function Rays(p: Position, rk: int, offs: int, pc: Piece, n: nat): seq<Move>
    requires OnBoard(rk, offs)
  {
    if n == 0 then []
    else Rays(p, rk, offs, pc, n - 1) + Ray(p, rk, offs, pc, SliderDir(Kind(pc), n - 1), 1)
  }

  // ---------------------------------------------------------------------
  // Pawns

  /** The four promotions, to knight, bishop, rook and queen in that order. */
  function Promotions(from: Pos, to: Pos, killpos: Pos, killpc: Piece, white: bool): seq<Move>
  {
    var pawn := Colored(WPAWN, white);
    [Move(from, to, killpos, pawn, Colored(WKNIGHT, white), killpc),
     Move(from, to, killpos, pawn, Colored(WBISHOP, white), killpc),
     Move(from, to, killpos, pawn, Colored(WROOK, white), killpc),
     Move(from, to, killpos, pawn, Colored(WQUEEN, white), killpc)]
  }

  /** A pawn move: the four promotions onto the last rank, one move elsewhere. */
  function PawnTo(from: Pos, to: Pos, killpos: Pos, killpc: Piece, white: bool, last: bool): seq<Move>
  {
    if last then Promotions(from, to, killpos, killpc, white)
    else [Move(from, to, killpos, Colored(WPAWN, white), Colored(WPAWN, white), killpc)]
  }

  /** The rank a pawn of the colour moves towards: +1 for white, -1 for black. */
  function Forward(white: bool): int { if white then 1 else -1 }

  /** One step forward onto the last rank promotes: rank index 7 for white, 0 for black. */
  predicate LastRank(white: bool, rk: int)
  {
    if white then !(rk + 1 < 7) else !(rk - 1 > 0)
  }

  /** The rank index a pawn of the colour starts on: 1 for white, 6 for black. */
  function HomeRank(white: bool): int { if white then 1 else 6 }

  /** The single push (or its promotions) onto an empty square, then the double push from the home rank over two empty squares. */
  function Pushes(p: Position, rk: int, offs: int): seq<Move>
    requires OnBoard(rk, offs)
  {
    var white := p.flags.white;
    var r1, r2 := rk + Forward(white), rk + 2 * Forward(white);
    if OnBoard(r1, offs) && EmptyAt(p, r1, offs) then
      PawnTo(Pos2(offs, rk), Pos2(offs, r1), NOPOS, NOPC, white, LastRank(white, rk))
      + (if rk == HomeRank(white) && OnBoard(r2, offs) && EmptyAt(p, r2, offs)
         then [Plain(Pos2(offs, rk), Pos2(offs, r2), Colored(WPAWN, white))] else [])
    else []
  }

  /** The diagonal capture (or its promotions) onto file f, when a piece of the other colour stands there. */
  function Takes(p: Position, rk: int, offs: int, f: int): seq<Move>
    requires OnBoard(rk, offs)
  {
    var white := p.flags.white;
    var r1 := rk + Forward(white);
    if OnBoard(r1, f) && OfColour(At(p, r1, f), !white) then
      PawnTo(Pos2(offs, rk), Pos2(f, r1), Pos2(f, r1), At(p, r1, f), white, LastRank(white, rk))
    else []
  }

  /**
   * The en passant capture: when the en passant square is one of the two
   * forward diagonal neighbours, the pawn moves there and takes the pawn
   * of the other colour one rank behind it.
   */
  function EnPassant(p: Position, rk: int, offs: int): seq<Move>
    requires OnBoard(rk, offs)
  {
    var white := p.flags.white;
    var r1 := rk + Forward(white);
    var ep := p.flags.ep;
    if ep != NOPOS && ((OnBoard(r1, offs - 1) && ep == Pos2(offs - 1, r1)) || (OnBoard(r1, offs + 1) && ep == Pos2(offs + 1, r1))) then
      [Move(Pos2(offs, rk), ep, ep - 8 * Forward(white), Colored(WPAWN, white), Colored(WPAWN, white), Colored(WPAWN, !white))]
    else []
  }

  /** _board_generatePawnMoves: pushes, the capture to the left, the capture to the right, en passant. */
  function PawnMoves(p: Position, rk: int, offs: int): seq<Move>
    requires OnBoard(rk, offs)
  {
    Pushes(p, rk, offs) + Takes(p, rk, offs, offs - 1) + Takes(p, rk, offs, offs + 1) + EnPassant(p, rk, offs)
  }

  // ---------------------------------------------------------------------
  // Castling

  /** The square is on the board and empty (a square off the board counts as occupied). */
  predicate FreeAt(p: Position, r: int, f: int)
  {
    OnBoard(r, f) && EmptyAt(p, r, f)
  }

  /**
   * The castling moves of the king on (rk, offs): kingside when its right
   * is held, the two squares towards h are empty and neither the king's
   * square nor the next one is attacked; queenside likewise over three
   * squares towards a. The king's destination is not examined here.
   */
  function CastleMoves(p: Position, rk: int, offs: int): seq<Move>
    requires OnBoard(rk, offs)
  {
    KingSideCastle(p, rk, offs) + QueenSideCastle(p, rk, offs)
  }

  /** Kingside: the right, f and g empty, e and f not attacked; the king moves to g. */
  function KingSideCastle(p: Position, rk: int, offs: int): seq<Move>
    requires OnBoard(rk, offs)
  {
    var white := p.flags.white;
    if (if white then p.flags.rights.wk else p.flags.rights.bk)
      && FreeAt(p, rk, offs + 1) && FreeAt(p, rk, offs + 2)
      && !Attacked(p, rk, offs, !white) && !Attacked(p, rk, offs + 1, !white)
    then [Plain(Pos2(offs, rk), Pos2(offs + 2, rk), Colored(WKING, white))]
    else []
  }

  /** Queenside: the right, d, c and b empty, e and d not attacked; the king moves to c. */
  function QueenSideCastle(p: Position, rk: int, offs: int): seq<Move>
    requires OnBoard(rk, offs)
  {
    var white := p.flags.white;
    if (if white then p.flags.rights.wq else p.flags.rights.bq)
      && FreeAt(p, rk, offs - 1) && FreeAt(p, rk, offs - 2) && FreeAt(p, rk, offs - 3)
      && !Attacked(p, rk, offs, !white) && !Attacked(p, rk, offs - 1, !white)
    then [Plain(Pos2(offs, rk), Pos2(offs - 2, rk), Colored(WKING, white))]
    else []
  }

  // ---------------------------------------------------------------------
  // The scan

  /** The moves generated for the square (rk, offs): those of its piece when it belongs to the side to move. */
  function PieceMoves(p: Position, rk: int, offs: int): seq<Move>
    requires OnBoard(rk, offs)
  {
    var pc := At(p, rk, offs);
    if !OfColour(pc, p.flags.white) then []
    else if Kind(pc) == WPAWN then PawnMoves(p, rk, offs)
    else if Kind(pc) == WKNIGHT then KnightSteps(p, rk, offs, pc, 8)
    else if Kind(pc) == WBISHOP then Rays(p, rk, offs, pc, 4)
    else if Kind(pc) == WROOK then Rays(p, rk, offs, pc, 4)
    else if Kind(pc) == WQUEEN then Rays(p, rk, offs, pc, 8)
    else KingSteps(p, rk, offs, pc, 8) + CastleMoves(p, rk, offs)
  }

  /** The moves of files a .. a + n - 1 of rank rk. */
  function RankMoves(p: Position, rk: int, n: nat): seq<Move>
    requires 0 <= rk < 8 && n <= 8
  {
    if n == 0 then [] else RankMoves(p, rk, n - 1) + PieceMoves(p, rk, n - 1)
  }

  /** The moves of ranks 8 down to rk + 1 (indices 7 .. rk), each scanned from file a to h. */
  function MovesAbove(p: Position, rk: int): seq<Move>
    requires 0 <= rk <= 8
    decreases 8 - rk
  {
    if rk == 8 then [] else MovesAbove(p, rk + 1) + RankMoves(p, rk, 8)
  }

  /** All pseudo-legal moves of the side to move, in the scan order of board_get_moves. */
  function Candidates(p: Position): seq<Move>
  {
    MovesAbove(p, 0)
  }

  /** The king square the scan remembers after files a .. a + n - 1 of rank rk, starting from `prev`. */
  function KingInRank(p: Position, rk: int, n: nat, prev: Pos): Pos
    requires 0 <= rk < 8 && n <= 8
  {
    if n == 0 then prev
    else if At(p, rk, n - 1) == Colored(WKING, p.flags.white) then Pos2(n - 1, rk)
    else KingInRank(p, rk, n - 1, prev)
  }

  /** The king square the scan remembers after ranks 8 down to rk + 1: NOPOS when it met no king. */
  function KingAbove(p: Position, rk: int): Pos
    requires 0 <= rk <= 8
    decreases 8 - rk
  {
    if rk == 8 then NOPOS else KingInRank(p, rk, 8, KingAbove(p, rk + 1))
  }

  /** The side to move's king square as board_get_moves finds it: the last one in scan order. */
  function KingSquare(p: Position): Pos
  {
    KingAbove(p, 0)
  }

  /** The side to move has a king on the board. */
  predicate HasKing(p: Position)
  {
    exists r, f :: 0 <= r < 8 && 0 <= f < 8 && At(p, r, f) == Colored(WKING, p.flags.white)
  }

  // ---------------------------------------------------------------------
  // The generators

  /** `killpc / 6 != frompc / 6` on two pieces says that their colours differ. */
  lemma ColourByDivision(killpc: Piece, frompc: Piece)
    requires killpc != NOPC && frompc != NOPC
    ensures (killpc / 6 != frompc / 6) <==> Opponents(killpc, frompc)
  {
  }

  /** Appending one more part to a list that holds `start` followed by `done`. */
  lemma Extend(before: seq<Move>, start: seq<Move>, done: seq<Move>, step: seq<Move>, next: seq<Move>)
    requires before == start + done && next == done + step
    ensures before + step == start + next
  {
  }

  /** Moving the head of the parts still to come onto the end of the list. */
  lemma Shift(before: seq<Move>, m: Move, rest: seq<Move>, total: seq<Move>)
    requires total == before + ([m] + rest)
    ensures total == (before + [m]) + rest
  {
  }

  /** Four appends in a row. */
  lemma Extend4(c0: seq<Move>, c1: seq<Move>, c2: seq<Move>, c3: seq<Move>, c4: seq<Move>, a: seq<Move>, b: seq<Move>, c: seq<Move>, d: seq<Move>)
    requires c1 == c0 + a && c2 == c1 + b && c3 == c2 + c && c4 == c3 + d
    ensures c4 == c0 + (a + b + c + d)
  {
  }

  /** One entry of a step table: append the move of `pc` from (rk, offs) to (r, f), if any. */
  method GenerateStep(p: Position, dest: ArrayList.AList<Move>, rk: int, offs: int, r: int, f: int, pc: Piece)
    requires dest.Valid() && OnBoard(rk, offs) && pc != NOPC
    modifies dest, dest.data
    ensures dest.Valid() && (dest.data == old(dest.data) || fresh(dest.data))
    ensures dest.Contents() == old(dest.Contents()) + StepTo(p, rk, offs, r, f, pc)
  {
    if OnBoard(r, f) {
      var killpc := At(p, r, f);
      if killpc == NOPC {
        dest.Append(Move(Pos2(offs, rk), Pos2(f, r), NOPOS, pc, pc, NOPC));
      } else if killpc / 6 != pc / 6 {
        ColourByDivision(killpc, pc);
        dest.Append(Move(Pos2(offs, rk), Pos2(f, r), Pos2(f, r), pc, pc, killpc));
      } else {
        ColourByDivision(killpc, pc);
      }
    }
  }

  /** _board_generateKnightMoves: the eight knight jumps in table order. */
  method GenerateKnightMoves(p: Position, dest: ArrayList.AList<Move>, rk: int, offs: int)
    requires dest.Valid() && OnBoard(rk, offs)
    modifies dest, dest.data
    ensures dest.Valid() && (dest.data == old(dest.data) || fresh(dest.data))
    ensures dest.Contents() == old(dest.Contents()) + KnightSteps(p, rk, offs, Colored(WKNIGHT, p.flags.white), 8)
  {
    var frompc := if p.flags.white then WKNIGHT else BKNIGHT;
    for i := 0 to 8
      invariant dest.Valid() && (dest.data == old(dest.data) || fresh(dest.data))
      invariant dest.Contents() == old(dest.Contents()) + KnightSteps(p, rk, offs, frompc, i)
    {
      ghost var before := dest.Contents();
      GenerateStep(p, dest, rk, offs, rk + KnightRank(i), offs + KnightFile(i), frompc);
      Extend(before, old(dest.Contents()), KnightSteps(p, rk, offs, frompc, i),
        StepTo(p, rk, offs, rk + KnightRank(i), offs + KnightFile(i), frompc), KnightSteps(p, rk, offs, frompc, i + 1));
    }
  }

  /** The king steps of _board_generateKingMoves: the eight neighbours in table order. */
  method GenerateKingSteps(p: Position, dest: ArrayList.AList<Move>, rk: int, offs: int)
    requires dest.Valid() && OnBoard(rk, offs)
    modifies dest, dest.data
    ensures dest.Valid() && (dest.data == old(dest.data) || fresh(dest.data))
    ensures dest.Contents() == old(dest.Contents()) + KingSteps(p, rk, offs, Colored(WKING, p.flags.white), 8)
  {
    var frompc := if p.flags.white then WKING else BKING;
    for i := 0 to 8
      invariant dest.Valid() && (dest.data == old(dest.data) || fresh(dest.data))
      invariant dest.Contents() == old(dest.Contents()) + KingSteps(p, rk, offs, frompc, i)
    {
      ghost var before := dest.Contents();
      GenerateStep(p, dest, rk, offs, rk + DirRank(KingDir(i)), offs + DirFile(KingDir(i)), frompc);
      Extend(before, old(dest.Contents()), KingSteps(p, rk, offs, frompc, i),
        StepTo(p, rk, offs, rk + DirRank(KingDir(i)), offs + DirFile(KingDir(i)), frompc), KingSteps(p, rk, offs, frompc, i + 1));
    }
  }

  /** The kingside castle of _board_generateKingMoves, tested with _board_hit on e and f. */
  method GenerateKingSideCastle(p: Position, dest: ArrayList.AList<Move>, rk: int, offs: int)
    requires dest.Valid() && OnBoard(rk, offs)
    modifies dest, dest.data
    ensures dest.Valid() && (dest.data == old(dest.data) || fresh(dest.data))
    ensures dest.Contents() == old(dest.Contents()) + KingSideCastle(p, rk, offs)
  {
    var white := p.flags.white;
    var frompc := if white then WKING else BKING;
    if (if white then p.flags.rights.wk else p.flags.rights.bk) && FreeAt(p, rk, offs + 1) && FreeAt(p, rk, offs + 2) {
      var inCheck := Hit.Hit(p, rk, offs, !white);
      if !inCheck {
        var crossed := Hit.Hit(p, rk, offs + 1, !white);
        if !crossed {
          dest.Append(Move(Pos2(offs, rk), Pos2(offs + 2, rk), NOPOS, frompc, frompc, NOPC));
        }
      }
    }
  }

  /** The queenside castle of _board_generateKingMoves, tested with _board_hit on e and d. */
  method GenerateQueenSideCastle(p: Position, dest: ArrayList.AList<Move>, rk: int, offs: int)
    requires dest.Valid() && OnBoard(rk, offs)
    modifies dest, dest.data
    ensures dest.Valid() && (dest.data == old(dest.data) || fresh(dest.data))
    ensures dest.Contents() == old(dest.Contents()) + QueenSideCastle(p, rk, offs)
  {
    var white := p.flags.white;
    var frompc := if white then WKING else BKING;
    if (if white then p.flags.rights.wq else p.flags.rights.bq) && FreeAt(p, rk, offs - 1) && FreeAt(p, rk, offs - 2) && FreeAt(p, rk, offs - 3) {
      var inCheck := Hit.Hit(p, rk, offs, !white);
      if !inCheck {
        var crossed := Hit.Hit(p, rk, offs - 1, !white);
        if !crossed {
          dest.Append(Move(Pos2(offs, rk), Pos2(offs - 2, rk), NOPOS, frompc, frompc, NOPC));
        }
      }
    }
  }

  /** _board_generateKingMoves: the king steps, then kingside and queenside castling. */
  method GenerateKingMoves(p: Position, dest: ArrayList.AList<Move>, rk: int, offs: int)
    requires dest.Valid() && OnBoard(rk, offs)
    modifies dest, dest.data
    ensures dest.Valid() && (dest.data == old(dest.data) || fresh(dest.data))
    ensures dest.Contents() == old(dest.Contents()) + (KingSteps(p, rk, offs, Colored(WKING, p.flags.white), 8) + CastleMoves(p, rk, offs))
  {
    ghost var c0 := dest.Contents();
    GenerateKingSteps(p, dest, rk, offs);
    ghost var c1 := dest.Contents();
    GenerateKingSideCastle(p, dest, rk, offs);
    ghost var c2 := dest.Contents();
    GenerateQueenSideCastle(p, dest, rk, offs);
    Extend4(c0, c1, c2, dest.Contents(), dest.Contents(), KingSteps(p, rk, offs, Colored(WKING, p.flags.white), 8),
      KingSideCastle(p, rk, offs), QueenSideCastle(p, rk, offs), []);
  }

  /**
   * One square of a ray, the body of the inner loop of the bishop, rook
   * and queen generators: a plain move onto an empty square (the ray goes
   * on), a capture of a piece of the other colour, nothing on a piece of
   * its own colour or off the board (the ray ends).
   */
  method GenerateRaySquare(p: Position, dest: ArrayList.AList<Move>, rk: int, offs: int, pc: Piece, d: int, n: int) returns (stop: bool)
    requires dest.Valid() && OnBoard(rk, offs) && pc != NOPC && 1 <= n <= 7
    modifies dest, dest.data
    ensures dest.Valid() && (dest.data == old(dest.data) || fresh(dest.data))
    ensures old(dest.Contents()) + Ray(p, rk, offs, pc, d, n) == dest.Contents() + (if stop then [] else Ray(p, rk, offs, pc, d, n + 1))
  {
    var dx, dy := Step(DirRank(d), n), Step(DirFile(d), n);
    if OnBoard(rk + dx, offs + dy) {
      var killpc := At(p, rk + dx, offs + dy);
      if killpc == NOPC {
        var m := Move(Pos2(offs, rk), Pos2(offs + dy, rk + dx), NOPOS, pc, pc, NOPC);
        ghost var before := dest.Contents();
        dest.Append(m);
        Shift(before, m, Ray(p, rk, offs, pc, d, n + 1), before + Ray(p, rk, offs, pc, d, n));
        return false;
      }
      ColourByDivision(killpc, pc);
      if killpc / 6 != pc / 6 {
        dest.Append(Move(Pos2(offs, rk), Pos2(offs + dy, rk + dx), Pos2(offs + dy, rk + dx), pc, pc, killpc));
      }
    }
    return true;
  }

  /** One direction of a slider's table: the inner loop of the bishop, rook and queen generators. */
  method GenerateRay(p: Position, dest: ArrayList.AList<Move>, rk: int, offs: int, pc: Piece, d: int)
    requires dest.Valid() && OnBoard(rk, offs) && pc != NOPC
    modifies dest, dest.data
    ensures dest.Valid() && (dest.data == old(dest.data) || fresh(dest.data))
    ensures dest.Contents() == old(dest.Contents()) + Ray(p, rk, offs, pc, d, 1)
  {
    var j := 0;
    while j < 7
      invariant 0 <= j <= 8
      invariant dest.Valid() && (dest.data == old(dest.data) || fresh(dest.data))
      invariant old(dest.Contents()) + Ray(p, rk, offs, pc, d, 1) == dest.Contents() + Ray(p, rk, offs, pc, d, j + 1)
    {
      ghost var before := dest.Contents();
      var stop := GenerateRaySquare(p, dest, rk, offs, pc, d, j + 1);
      if stop {
        j := 7;
      }
      j := j + 1;
    }
  }

  /** The outer loop of a slider generator: the first n directions of its table. */
  method GenerateRays(p: Position, dest: ArrayList.AList<Move>, rk: int, offs: int, pc: Piece, n: nat)
    requires dest.Valid() && OnBoard(rk, offs) && pc != NOPC
    modifies dest, dest.data
    ensures dest.Valid() && (dest.data == old(dest.data) || fresh(dest.data))
    ensures dest.Contents() == old(dest.Contents()) + Rays(p, rk, offs, pc, n)
  {
    for i := 0 to n
      invariant dest.Valid() && (dest.data == old(dest.data) || fresh(dest.data))
      invariant dest.Contents() == old(dest.Contents()) + Rays(p, rk, offs, pc, i)
    {
      ghost var before := dest.Contents();
      GenerateRay(p, dest, rk, offs, pc, SliderDir(Kind(pc), i));
      Extend(before, old(dest.Contents()), Rays(p, rk, offs, pc, i),
        Ray(p, rk, offs, pc, SliderDir(Kind(pc), i), 1), Rays(p, rk, offs, pc, i + 1));
    }
  }

  /** _board_generateBishopMoves: the four diagonals. */
  method GenerateBishopMoves(p: Position, dest: ArrayList.AList<Move>, rk: int, offs: int)
    requires dest.Valid() && OnBoard(rk, offs)
    modifies dest, dest.data
    ensures dest.Valid() && (dest.data == old(dest.data) || fresh(dest.data))
    ensures dest.Contents() == old(dest.Contents()) + Rays(p, rk, offs, Colored(WBISHOP, p.flags.white), 4)
  {
    var frompc := if p.flags.white then WBISHOP else BBISHOP;
    GenerateRays(p, dest, rk, offs, frompc, 4);
  }

  /** _board_generateRookMoves: the four lines. */
  method GenerateRookMoves(p: Position, dest: ArrayList.AList<Move>, rk: int, offs: int)
    requires dest.Valid() && OnBoard(rk, offs)
    modifies dest, dest.data
    ensures dest.Valid() && (dest.data == old(dest.data) || fresh(dest.data))
    ensures dest.Contents() == old(dest.Contents()) + Rays(p, rk, offs, Colored(WROOK, p.flags.white), 4)
  {
    var frompc := if p.flags.white then WROOK else BROOK;
    GenerateRays(p, dest, rk, offs, frompc, 4);
  }

  /** _board_generateQueenMoves: the four diagonals, then the four lines. */
  method GenerateQueenMoves(p: Position, dest: ArrayList.AList<Move>, rk: int, offs: int)
    requires dest.Valid() && OnBoard(rk, offs)
    modifies dest, dest.data
    ensures dest.Valid() && (dest.data == old(dest.data) || fresh(dest.data))
    ensures dest.Contents() == old(dest.Contents()) + Rays(p, rk, offs, Colored(WQUEEN, p.flags.white), 8)
  {
    var frompc := if p.flags.white then WQUEEN else BQUEEN;
    GenerateRays(p, dest, rk, offs, frompc, 8);
  }

  /** A pawn move onto `to`: the four promotions when `last`, else the one move. */
  method AppendPawnMove(dest: ArrayList.AList<Move>, from: Pos, to: Pos, killpos: Pos, killpc: Piece, white: bool, last: bool)
    requires dest.Valid()
    modifies dest, dest.data
    ensures dest.Valid() && (dest.data == old(dest.data) || fresh(dest.data))
    ensures dest.Contents() == old(dest.Contents()) + PawnTo(from, to, killpos, killpc, white, last)
  {
    var pawn := if white then WPAWN else BPAWN;
    if !last {
      dest.Append(Move(from, to, killpos, pawn, pawn, killpc));
    } else {
      var knight := Move(from, to, killpos, pawn, if white then WKNIGHT else BKNIGHT, killpc);
      var bishop := Move(from, to, killpos, pawn, if white then WBISHOP else BBISHOP, killpc);
      var rook := Move(from, to, killpos, pawn, if white then WROOK else BROOK, killpc);
      var queen := Move(from, to, killpos, pawn, if white then WQUEEN else BQUEEN, killpc);
      assert Promotions(from, to, killpos, killpc, white) == [knight] + [bishop] + [rook] + [queen];
      ghost var c0 := dest.Contents();
      dest.Append(knight);
      ghost var c1 := dest.Contents();
      dest.Append(bishop);
      ghost var c2 := dest.Contents();
      dest.Append(rook);
      ghost var c3 := dest.Contents();
      dest.Append(queen);
      Extend4(c0, c1, c2, c3, dest.Contents(), [knight], [bishop], [rook], [queen]);
    }
  }

  /** The single push (or its promotions) and the double push of _board_generatePawnMoves. */
  method GeneratePawnPushes(p: Position, dest: ArrayList.AList<Move>, rk: int, offs: int)
    requires dest.Valid() && OnBoard(rk, offs)
    modifies dest, dest.data
    ensures dest.Valid() && (dest.data == old(dest.data) || fresh(dest.data))
    ensures dest.Contents() == old(dest.Contents()) + Pushes(p, rk, offs)
  {
    var white := p.flags.white;
    var pawn := if white then WPAWN else BPAWN;
    var r1, r2 := rk + Forward(white), rk + 2 * Forward(white);
    if OnBoard(r1, offs) && At(p, r1, offs) == NOPC {
      ghost var c0 := dest.Contents();
      AppendPawnMove(dest, Pos2(offs, rk), Pos2(offs, r1), NOPOS, NOPC, white, LastRank(white, rk));
      ghost var c1 := dest.Contents();
      if rk == HomeRank(white) && OnBoard(r2, offs) && At(p, r2, offs) == NOPC {
        dest.Append(Move(Pos2(offs, rk), Pos2(offs, r2), NOPOS, pawn, pawn, NOPC));
      }
      Extend4(c0, c1, dest.Contents(), dest.Contents(), dest.Contents(),
        PawnTo(Pos2(offs, rk), Pos2(offs, r1), NOPOS, NOPC, white, LastRank(white, rk)),
        if rk == HomeRank(white) && OnBoard(r2, offs) && EmptyAt(p, r2, offs)
        then [Plain(Pos2(offs, rk), Pos2(offs, r2), Colored(WPAWN, white))] else [], [], []);
    }
  }

  /** The diagonal capture onto file f of _board_generatePawnMoves. */
  method GeneratePawnTake(p: Position, dest: ArrayList.AList<Move>, rk: int, offs: int, f: int)
    requires dest.Valid() && OnBoard(rk, offs)
    modifies dest, dest.data
    ensures dest.Valid() && (dest.data == old(dest.data) || fresh(dest.data))
    ensures dest.Contents() == old(dest.Contents()) + Takes(p, rk, offs, f)
  {
    var white := p.flags.white;
    var r1 := rk + Forward(white);
    if OnBoard(r1, f) {
      var killpc := At(p, r1, f);
      if (if white then BPAWN <= killpc <= BKING else killpc <= WKING) {
        AppendPawnMove(dest, Pos2(offs, rk), Pos2(f, r1), Pos2(f, r1), killpc, white, LastRank(white, rk));
      }
    }
  }

  /** The en passant capture of _board_generatePawnMoves. */
  method GenerateEnPassant(p: Position, dest: ArrayList.AList<Move>, rk: int, offs: int)
    requires dest.Valid() && OnBoard(rk, offs)
    modifies dest, dest.data
    ensures dest.Valid() && (dest.data == old(dest.data) || fresh(dest.data))
    ensures dest.Contents() == old(dest.Contents()) + EnPassant(p, rk, offs)
  {
    var white := p.flags.white;
    var pawn := if white then WPAWN else BPAWN;
    var r1 := rk + Forward(white);
    var eppos := p.flags.ep;
    if eppos != NOPOS && ((OnBoard(r1, offs - 1) && eppos == Pos2(offs - 1, r1)) || (OnBoard(r1, offs + 1) && eppos == Pos2(offs + 1, r1))) {
      var killpos := if white then eppos - 8 else eppos + 8;
      dest.Append(Move(Pos2(offs, rk), eppos, killpos, pawn, pawn, if white then BPAWN else WPAWN));
    }
  }

  /**
   * _board_generatePawnMoves, both colours: the push and its promotions,
   * the double push, the captures to the left and to the right, and en
   * passant.
   */
  method GeneratePawnMoves(p: Position, dest: ArrayList.AList<Move>, rk: int, offs: int)
    requires dest.Valid() && OnBoard(rk, offs)
    modifies dest, dest.data
    ensures dest.Valid() && (dest.data == old(dest.data) || fresh(dest.data))
    ensures dest.Contents() == old(dest.Contents()) + PawnMoves(p, rk, offs)
  {
    ghost var c0 := dest.Contents();
    GeneratePawnPushes(p, dest, rk, offs);
    ghost var c1 := dest.Contents();
    GeneratePawnTake(p, dest, rk, offs, offs - 1);
    ghost var c2 := dest.Contents();
    GeneratePawnTake(p, dest, rk, offs, offs + 1);
    ghost var c3 := dest.Contents();
    GenerateEnPassant(p, dest, rk, offs);
    Extend4(c0, c1, c2, c3, dest.Contents(), Pushes(p, rk, offs), Takes(p, rk, offs, offs - 1), Takes(p, rk, offs, offs + 1), EnPassant(p, rk, offs));
  }

  /** The switch of board_get_moves: the generator of the piece on (rk, offs), which belongs to the side to move. */
  method GeneratePieceMoves(p: Position, dest: ArrayList.AList<Move>, rk: int, offs: int)
    requires dest.Valid() && OnBoard(rk, offs) && OfColour(At(p, rk, offs), p.flags.white)
    modifies dest, dest.data
    ensures dest.Valid() && (dest.data == old(dest.data) || fresh(dest.data))
    ensures dest.Contents() == old(dest.Contents()) + PieceMoves(p, rk, offs)
  {
    var pc := At(p, rk, offs);
    var white := p.flags.white;
    if pc == WPAWN || pc == BPAWN {
      assert PieceMoves(p, rk, offs) == PawnMoves(p, rk, offs);
      GeneratePawnMoves(p, dest, rk, offs);
    } else if pc == WKNIGHT || pc == BKNIGHT {
      assert PieceMoves(p, rk, offs) == KnightSteps(p, rk, offs, Colored(WKNIGHT, white), 8);
      GenerateKnightMoves(p, dest, rk, offs);
    } else if pc == WBISHOP || pc == BBISHOP {
      assert PieceMoves(p, rk, offs) == Rays(p, rk, offs, Colored(WBISHOP, white), 4);
      GenerateBishopMoves(p, dest, rk, offs);
    } else if pc == WROOK || pc == BROOK {
      assert PieceMoves(p, rk, offs) == Rays(p, rk, offs, Colored(WROOK, white), 4);
      GenerateRookMoves(p, dest, rk, offs);
    } else if pc == WQUEEN || pc == BQUEEN {
      assert PieceMoves(p, rk, offs) == Rays(p, rk, offs, Colored(WQUEEN, white), 8);
      GenerateQueenMoves(p, dest, rk, offs);
    } else {
      assert PieceMoves(p, rk, offs) == KingSteps(p, rk, offs, Colored(WKING, white), 8) + CastleMoves(p, rk, offs);
      GenerateKingMoves(p, dest, rk, offs);
    }
  }

  /**
   * The scan of board_get_moves (and Board::generateMoves): ranks 8 down
   * to 1, files a to h, skipping the squares whose piece is not the side
   * to move's, expanding the others and remembering the last king seen.
   */
  method GenerateCandidates(p: Position) returns (dest: ArrayList.AList<Move>, kingpos: Pos)
    ensures dest.Valid() && fresh(dest) && fresh(dest.data)
    ensures dest.Contents() == Candidates(p)
    ensures kingpos == KingSquare(p)
  {
    dest := new ArrayList.AList<Move>.Make(30);
    kingpos := NOPOS;
    var player := !p.flags.white;
    var rk := 7;
    while rk >= 0
      invariant -1 <= rk <= 7
      invariant dest.Valid() && fresh(dest) && fresh(dest.data)
      invariant dest.Contents() == MovesAbove(p, rk + 1)
      invariant kingpos == KingAbove(p, rk + 1)
    {
      for offs := 0 to 8
        invariant dest.Valid() && fresh(dest.data)
        invariant dest.Contents() == MovesAbove(p, rk + 1) + RankMoves(p, rk, offs)
        invariant kingpos == KingInRank(p, rk, offs, KingAbove(p, rk + 1))
      {
        var pc := At(p, rk, offs);
        ghost var before := dest.Contents();
        if player != (pc >= BPAWN) {
          // not the side to move's piece
          assert PieceMoves(p, rk, offs) == [];
        } else if pc == NOPC {
          assert PieceMoves(p, rk, offs) == [];
        } else {
          if pc == WKING || pc == BKING {
            kingpos := Pos2(offs, rk);
          }
          GeneratePieceMoves(p, dest, rk, offs);
        }
        Extend(before, MovesAbove(p, rk + 1), RankMoves(p, rk, offs), PieceMoves(p, rk, offs), RankMoves(p, rk, offs + 1));
      }
      rk := rk - 1;
    }
  }
}
