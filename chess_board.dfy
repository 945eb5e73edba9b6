/**
 * The board class of the C++ library (chess/src/board.cpp) and its move
 * list (Board::generateMoves of chess/src/movegen.cpp). The rank words and
 * the flags word are the same as in src/board.c, but there is no king
 * square cache, a capture never touches the castling rights, and a rook
 * move voids the queen-side right when it leaves a1 (a8) and the
 * king-side right from any other square.
 */
module ChessBoard {
  import opened Defs
  import Moves
  import Placement
  import Fen
  import Attack
  import MoveGen
  import MoveRules
  import Hit
  import CBoard
  import CLegal

  /** The castling rights after applyMove: a rook voids Q when it leaves a1 (a8) and K otherwise; a king voids both of its colour. */
  function MoverRights(r: Rights, m: Move): Rights
  {
    if m.frompc == WROOK then (if m.frompos == 0 then r.(wq := false) else r.(wk := false))
    else if m.frompc == WKING then r.(wk := false, wq := false)
    else if m.frompc == BROOK then (if m.frompos == 56 then r.(bq := false) else r.(bk := false))
    else if m.frompc == BKING then r.(bk := false, bq := false)
    else r
  }

  /** The value Board::applyMove gives the board: placement, castling rights, en passant square, side flipped. */
  function Applied(p: Position, m: Move): Position
    requires Placement.Applicable(m)
  {
    Position(Placement.Placed(p.ranks, m),
             Flags(!p.flags.white, MoverRights(p.flags.rights, m), Placement.EpAfter(m)))
  }

  /**
   * A right is voided exactly when its king moves or a rook of its colour
   * moves from any square but the other side's corner; the victim of a
   * capture plays no part, and every rook move voids a right.
   */
  lemma MoverRightsClears(r: Rights, m: Move)
    ensures var r' := MoverRights(r, m);
      (r'.wk <==> r.wk && m.frompc != WKING && !(m.frompc == WROOK && m.frompos != 0)) &&
      (r'.wq <==> r.wq && m.frompc != WKING && !(m.frompc == WROOK && m.frompos == 0)) &&
      (r'.bk <==> r.bk && m.frompc != BKING && !(m.frompc == BROOK && m.frompos != 56)) &&
      (r'.bq <==> r.bq && m.frompc != BKING && !(m.frompc == BROOK && m.frompos == 56))
    ensures m.frompc == WROOK ==> !MoverRights(r, m).wk || !MoverRights(r, m).wq
    ensures m.frompc == BROOK ==> !MoverRights(r, m).bk || !MoverRights(r, m).bq
  {
  }

  /**
   * Board::applyMove and board_apply_move agree on everything but the
   * castling rights: the same placement, en passant square and side.
   */
  lemma AppliedAsC(p: Position, m: Move)
    requires Placement.Applicable(m)
    ensures Applied(p, m).ranks == CBoard.Applied(p, m).ranks
    ensures Applied(p, m).flags.white == CBoard.Applied(p, m).flags.white
    ensures Applied(p, m).flags.ep == CBoard.Applied(p, m).flags.ep
    ensures m.killpc == NOPC && (m.frompc == WROOK ==> m.frompos == 0 || m.frompos == 7)
            && (m.frompc == BROOK ==> m.frompos == 56 || m.frompos == 63)
            ==> Applied(p, m) == CBoard.Applied(p, m)
  {
  }

  /**
   * Where the two libraries part: with every right held, a white rook
   * moving from d1 keeps K in src/board.c but voids it here, and a capture
   * of the h8 rook voids k in src/board.c but keeps it here.
   */
  lemma RightsDiffer(p: Position)
    requires p.flags.rights == Rights(true, true, true, true)
    ensures var m := Move(3, 11, NOPOS, WROOK, WROOK, NOPC);
      CBoard.Applied(p, m).flags.rights.wk && !Applied(p, m).flags.rights.wk
    ensures var m := Move(7, 63, 63, WQUEEN, WQUEEN, BROOK);
      !CBoard.Applied(p, m).flags.rights.bk && Applied(p, m).flags.rights.bk
  {
  }

  /** `m` can be applied and, after applyMove, the mover's king is not attacked by a piece of the other colour. */
  predicate Safe(p: Position, kingpos: Pos, m: Move)
  {
    var k := CLegal.KingTarget(p, kingpos, m);
    Placement.Applicable(m) && IsSquare(k)
    && !Attack.Attacked(Applied(p, m), k / 8, k % 8, !p.flags.white)
  }

  /** The moves generateMoves returns: the candidates, in scan order, that leave the king unattacked. */
  function LegalMoves(p: Position): seq<Move>
  {
    CLegal.Kept(m => Safe(p, MoveGen.KingSquare(p), m), MoveGen.Candidates(p))
  }

  /** Whether a square is attacked depends on the placement alone. */
  lemma AttackedByPlacement(p: Position, q: Position, r: int, f: int, white: bool)
    requires p.ranks == q.ranks
    ensures Attack.Attacked(p, r, f, white) == Attack.Attacked(q, r, f, white)
  {
    assert forall sr, sf :: 0 <= sr < 8 && 0 <= sf < 8 ==> At(p, sr, sf) == At(q, sr, sf);
    assert forall sr, sf :: 0 <= sr < 8 && 0 <= sf < 8 ==> EmptyAt(p, sr, sf) == EmptyAt(q, sr, sf);
    assert forall sr, sf :: 0 <= sr < 8 && 0 <= sf < 8 ==>
      Attack.AttacksSquare(p, sr, sf, r, f) == Attack.AttacksSquare(q, sr, sf, r, f);
  }

  /** A move is safe here exactly when it is safe for src/board.c. */
  lemma SafeAsC(p: Position, kingpos: Pos, m: Move)
    ensures Safe(p, kingpos, m) == CLegal.Safe(p, kingpos, m)
  {
    if Placement.Applicable(m) {
      var k := CLegal.KingTarget(p, kingpos, m);
      AttackedByPlacement(Applied(p, m), CBoard.Applied(p, m), k / 8, k % 8, !p.flags.white);
    }
  }

  /** Different rights or not, the two libraries give the same legal moves in the same order. */
  lemma {:induction false} KeptAsC(p: Position, kingpos: Pos, s: seq<Move>)
    ensures CLegal.Kept(m => Safe(p, kingpos, m), s) == CLegal.Kept(m => CLegal.Safe(p, kingpos, m), s)
  {
    if s != [] {
      KeptAsC(p, kingpos, s[..|s| - 1]);
      SafeAsC(p, kingpos, s[|s| - 1]);
    }
  }

  lemma LegalMovesAsC(p: Position)
    ensures LegalMoves(p) == CLegal.LegalMoves(p)
  {
    KeptAsC(p, MoveGen.KingSquare(p), MoveGen.Candidates(p));
  }

  class Board {
    var ranks: array<Rank>
    var flags: Flags

    /** Eight rank words. */
    ghost predicate Valid()
      reads this
    {
      ranks.Length == 8
    }

    /** The board's ranks and flags. */
    function Value(): Position
      requires Valid()
      reads this, ranks
    {
      Position(ranks[..], flags)
    }

    /** Board(const char *fen): the ranks, rank 8 first, then the side, the castling letters and the en passant square. */
    constructor Make(fen: string)
      requires Fen.Readable(fen)
      ensures Valid() && fresh(ranks)
      ensures Value() == Fen.ParseFen(fen)
    {
      var fields := Fen.Tokens(fen, ' ');
      assert fields[3] != [] by {
        Fen.TokensShape(fen, ' ');
        assert fields[3] in fields;
      }
      var rs := ReadRanks(Fen.Tokens(fields[0], '/'));
      var f := CBoard.ReadFlags(fields);
      ranks := rs;
      flags := f;
    }

    /** The copy constructor: equal ranks and flags, in a rank array of its own. */
    constructor Copy(other: Board)
      requires other.Valid()
      ensures Valid() && fresh(ranks)
      ensures Value() == other.Value()
    {
      var copy := new Rank[8];
      forall i | 0 <= i < 8 {
        copy[i] := other.ranks[i];
      }
      ranks := copy;
      flags := other.flags;
    }

    /** operator=: the ranks copied into this board's own array, and the flags. */
    method Assign(other: Board)
      requires Valid() && other.Valid()
      modifies this, ranks
      ensures Valid() && ranks == old(ranks)
      ensures Value() == old(other.Value())
    {
      forall i | 0 <= i < 8 {
        ranks[i] := other.ranks[i];
      }
      flags := other.flags;
    }

    /** toFen: the position's text in its four fields. */
    method ToFen() returns (s: string)
      requires Valid()
      ensures s == Fen.FenOf(Value())
    {
      s := Fen.WriteFen(Value());
    }

    /** ZEROPOS then SETPOS: square `sq` of its rank word now holds `pc`. */
    method SetPos(sq: int, pc: Piece)
      requires Valid() && IsSquare(sq)
      modifies ranks
      ensures Valid() && ranks[..] == SetSquare(old(ranks[..]), sq, pc)
    {
      ranks[sq / 8] := ranks[sq / 8][sq % 8 := pc];
    }

    /** The rights the mover voids: the rook by its origin square, the king both. */
    method MoverUpdate(m: Move)
      modifies this
      ensures ranks == old(ranks)
      ensures flags == old(flags).(rights := MoverRights(old(flags.rights), m))
    {
      if m.frompc == WROOK {
        if m.frompos == 0 {
          flags := flags.(rights := flags.rights.(wq := false));
        } else {
          flags := flags.(rights := flags.rights.(wk := false));
        }
      } else if m.frompc == WKING {
        flags := flags.(rights := flags.rights.(wk := false));
        flags := flags.(rights := flags.rights.(wq := false));
      } else if m.frompc == BROOK {
        if m.frompos == 56 {
          flags := flags.(rights := flags.rights.(bq := false));
        } else {
          flags := flags.(rights := flags.rights.(bk := false));
        }
      } else if m.frompc == BKING {
        flags := flags.(rights := flags.rights.(bk := false));
        flags := flags.(rights := flags.rights.(bq := false));
      }
    }

    /**
     * applyMove: empty the victim's square, move the piece, carry the rook
     * of a castle, void the mover's rights, set the en passant square and
     * flip the side to move.
     */
    method ApplyMove(m: Move)
      requires Valid() && Placement.Applicable(m)
      modifies this, ranks
      ensures Valid() && ranks == old(ranks)
      ensures Value() == Applied(old(Value()), m)
    {
      MovePieces(m);
      MoverUpdate(m);
      flags := flags.(ep := NOPOS);
      if (m.frompc == WPAWN || m.frompc == BPAWN) && Attack.Abs(m.topos - m.frompos) == 16 {
        flags := flags.(ep := (m.frompos + m.topos) / 2);
      }
      flags := flags.(white := !flags.white);
    }

    /** The placement steps of applyMove: the victim removed, MOVEPC, then the rook of a castle. */
    method MovePieces(m: Move)
      requires Valid() && Placement.Applicable(m)
      modifies ranks
      ensures ranks[..] == Placement.Placed(old(ranks[..]), m)
    {
      if Moves.IsCap(m) {
        SetPos(m.killpos, NOPC);
      }
      SetPos(m.frompos, NOPC);
      SetPos(m.topos, m.topc);
      match Moves.IsCastle(m)
      case NoCastle =>
      case WKCastle =>
        SetPos(7, NOPC);
        SetPos(5, WROOK);
      case WQCastle =>
        SetPos(0, NOPC);
        SetPos(3, WROOK);
      case BKCastle =>
        SetPos(63, NOPC);
        SetPos(61, BROOK);
      case BQCastle =>
        SetPos(56, NOPC);
        SetPos(59, BROOK);
    }

    /** One candidate of the remove_if predicate, negated: applied to a copy, does it leave the king unattacked? */
    method LeavesKingSafe(move: Move, kingpos: Pos) returns (safe: bool)
      requires Valid() && Placement.Applicable(move) && IsSquare(kingpos)
      ensures safe == Safe(Value(), kingpos, move)
    {
      var player := !flags.white;
      var king := if flags.white then WKING else BKING;
      var fut := new Board.Copy(this);
      fut.ApplyMove(move);
      var kingpos2 := if move.frompc == king then move.topos else kingpos;
      var hit := Hit.Hit(fut.Value(), kingpos2 / 8, kingpos2 % 8, player);
      safe := !hit;
    }

    /**
     * generateMoves: the candidates of the scan, then remove_if and erase
     * drop every one that would leave the mover's king attacked, keeping
     * the order of the others.
     */
    method GenerateMoves() returns (ret: seq<Move>)
      requires Valid() && MoveGen.HasKing(Value())
      ensures ret == LegalMoves(Value())
    {
      var list, kingpos := MoveGen.GenerateCandidates(Value());
      MoveRules.KingSquareFound(Value());
      MoveRules.CandidatesWellFormed(Value());
      forall m | m in list.Contents()
        ensures Placement.Applicable(m)
      {
        CLegal.WellFormedApplicable(Value(), m);
      }
      ret := KeepSafe(list.Contents(), kingpos, Value());
    }

    /** remove_if then erase: the moves of `c` that leave the king safe, in their order in `c`. */
    method KeepSafe(c: seq<Move>, kingpos: Pos, ghost p: Position) returns (ret: seq<Move>)
      requires Valid() && Value() == p && IsSquare(kingpos)
      requires forall m :: m in c ==> Placement.Applicable(m)
      ensures ret == CLegal.Kept(m => Safe(p, kingpos, m), c)
    {
      ghost var keep := m => Safe(p, kingpos, m);
      ret := [];
      var i := 0;
      while i < |c|
        invariant 0 <= i <= |c|
        invariant ret == CLegal.Kept(keep, c[..i])
      {
        var safe := LeavesKingSafe(c[i], kingpos);
        CLegal.KeptStep(keep, c, i);
        if safe {
          ret := ret + [c[i]];
        }
        i := i + 1;
      }
      assert c[..|c|] == c;
    }
  }

  /** The rank loop of the constructor: from rank 8 down to rank 1, each rank word read from its text. */
  method ReadRanks(texts: seq<string>) returns (rs: array<Rank>)
    requires Fen.RanksReadable(texts)
    ensures fresh(rs) && rs.Length == 8 && rs[..] == Fen.ParseRanks(texts)
  {
    rs := new Rank[8](_ => EmptyRank);
    var rk := 8;
    while rk > 0
      invariant 0 <= rk <= 8
      invariant rs[rk..] == Fen.ParseRanks(texts)[rk..]
    {
      ghost var before := rs[..];
      ReadRankAt(rs, texts, rk - 1);
      assert rs[rk - 1..] == [rs[rk - 1]] + before[rk..];
      rk := rk - 1;
    }
    assert rs[..] == rs[0..] && Fen.ParseRanks(texts) == Fen.ParseRanks(texts)[0..];
  }

  /** One round of the rank loop: the text of rank index rk read into rs[rk]. */
  method ReadRankAt(rs: array<Rank>, texts: seq<string>, rk: int)
    requires Fen.RanksReadable(texts) && 0 <= rk < 8 && rs.Length == 8
    modifies rs
    ensures rs[..] == old(rs[..])[rk := Fen.ParseRanks(texts)[rk]]
  {
    Fen.ParseRanksAt(texts, rk);
    var rank, _, _ := Fen.ReadRank(texts[7 - rk], rk);
    rs[rk] := rank;
  }
}
