/**
 * The board of the C library (src/board.c): eight rank words, the flags
 * word and, kept in the flags word by the source, the cached squares of
 * the two kings. board_apply_move changes it in place, step by step.
 */
module CBoard {
  import opened Defs
  import Moves
  import Placement
  import Fen
  import ParseUtils

  /** The castling rights after a capture: taking a rook on its home corner voids that side's right of the victim's colour. */
  function KillRights(r: Rights, m: Move): Rights
  {
    if !Moves.IsCap(m) then r
    else if m.killpc == WROOK then
      (if m.killpos == 0 then r.(wq := false) else if m.killpos == 7 then r.(wk := false) else r)
    else if m.killpc == BROOK then
      (if m.killpos == 56 then r.(bq := false) else if m.killpos == 63 then r.(bk := false) else r)
    else r
  }

  /** The castling rights after the mover leaves its square: a king voids both of its colour, a rook leaving its corner voids that side. */
  function MoverRights(r: Rights, m: Move): Rights
  {
    if m.frompc == WROOK then
      (if m.frompos == 0 then r.(wq := false) else if m.frompos == 7 then r.(wk := false) else r)
    else if m.frompc == WKING then r.(wk := false, wq := false)
    else if m.frompc == BROOK then
      (if m.frompos == 56 then r.(bq := false) else if m.frompos == 63 then r.(bk := false) else r)
    else if m.frompc == BKING then r.(bk := false, bq := false)
    else r
  }

  /** The value board_apply_move gives the board: placement, castling rights, en passant square, side flipped. */
  function Applied(p: Position, m: Move): Position
    requires Placement.Applicable(m)
  {
    Position(Placement.Placed(p.ranks, m),
             Flags(!p.flags.white, MoverRights(KillRights(p.flags.rights, m), m), Placement.EpAfter(m)))
  }

  /** A king square cache after a move: it follows the king of its colour. */
  function KingAfter(cache: Pos, king: Piece, m: Move): Pos
  {
    if m.frompc == king then m.topos else cache
  }

  /** A capture clears a right exactly when the victim is that side's rook on its home corner. */
  lemma KillRightsClears(r: Rights, m: Move)
    ensures var r' := KillRights(r, m);
      (r'.wk <==> r.wk && !(m.killpc == WROOK && m.killpos == 7)) &&
      (r'.wq <==> r.wq && !(m.killpc == WROOK && m.killpos == 0)) &&
      (r'.bk <==> r.bk && !(m.killpc == BROOK && m.killpos == 63)) &&
      (r'.bq <==> r.bq && !(m.killpc == BROOK && m.killpos == 56))
  {
  }

  /** The mover clears a right exactly when it is that side's king, or its rook leaving the home corner. */
  lemma MoverRightsClears(r: Rights, m: Move)
    ensures var r' := MoverRights(r, m);
      (r'.wk <==> r.wk && m.frompc != WKING && !(m.frompc == WROOK && m.frompos == 7)) &&
      (r'.wq <==> r.wq && m.frompc != WKING && !(m.frompc == WROOK && m.frompos == 0)) &&
      (r'.bk <==> r.bk && m.frompc != BKING && !(m.frompc == BROOK && m.frompos == 63)) &&
      (r'.bq <==> r.bq && m.frompc != BKING && !(m.frompc == BROOK && m.frompos == 56))
  {
  }

  /**
   * Castling rights are only ever cleared, and each is cleared exactly
   * when its king moves, its rook leaves the home corner, or its rook is
   * captured on that corner.
   */
  lemma {:induction false} AppliedRights(p: Position, m: Move)
    requires Placement.Applicable(m)
    ensures var r, r' := p.flags.rights, Applied(p, m).flags.rights;
      (r'.wk <==> r.wk && m.frompc != WKING && !(m.frompc == WROOK && m.frompos == 7)
                  && !(m.killpc == WROOK && m.killpos == 7)) &&
      (r'.wq <==> r.wq && m.frompc != WKING && !(m.frompc == WROOK && m.frompos == 0)
                  && !(m.killpc == WROOK && m.killpos == 0)) &&
      (r'.bk <==> r.bk && m.frompc != BKING && !(m.frompc == BROOK && m.frompos == 63)
                  && !(m.killpc == BROOK && m.killpos == 63)) &&
      (r'.bq <==> r.bq && m.frompc != BKING && !(m.frompc == BROOK && m.frompos == 56)
                  && !(m.killpc == BROOK && m.killpos == 56))
  {
    KillRightsClears(p.flags.rights, m);
    MoverRightsClears(KillRights(p.flags.rights, m), m);
  }

  /** After a move the other side is to move. */
  lemma AppliedFlipsSide(p: Position, m: Move)
    requires Placement.Applicable(m)
    ensures Applied(p, m).flags.white == !p.flags.white
  {
  }

  /** A king square cache as board_make leaves it: the square recorded, or 0 from the zeroed allocation. */
  function CacheOf(c: Option<Pos>): Pos
  {
    if c.Some? then c.value else 0
  }

  /**
   * The rank loop of board_make: from rank 8 down to rank 1, each rank
   * word read from its text, and the square of each king met cached.
   */
  method ReadPlacement(texts: seq<string>) returns (rs: array<Rank>, wk: Pos, bk: Pos)
    requires Fen.RanksReadable(texts)
    ensures fresh(rs) && rs.Length == 8 && rs[..] == Fen.ParseRanks(texts)
    ensures wk == CacheOf(Fen.KingCache(texts, WKING, 8)) && bk == CacheOf(Fen.KingCache(texts, BKING, 8))
  {
    rs := new Rank[8](_ => EmptyRank);
    wk, bk := 0, 0;
    var rk := 8;
    ghost var read := 0;
    while rk > 0
      invariant 0 <= rk <= 8 && read == 8 - rk
      invariant rs[rk..] == Fen.ParseRanks(texts)[rk..]
      invariant wk == CacheOf(Fen.KingCache(texts, WKING, read))
      invariant bk == CacheOf(Fen.KingCache(texts, BKING, read))
    {
      ghost var before := rs[..];
      wk, bk := ReadRankInto(rs, texts, rk - 1, read, wk, bk);
      assert rs[rk - 1..] == [rs[rk - 1]] + before[rk..];
      rk := rk - 1;
      read := read + 1;
    }
    assert rs[..] == rs[0..] && Fen.ParseRanks(texts) == Fen.ParseRanks(texts)[0..];
  }

  /**
   * One round of the rank loop: the text of rank index rk is read into
   * rs[rk], and each king met there replaces the cached square.
   */
  method ReadRankInto(rs: array<Rank>, texts: seq<string>, rk: int, ghost read: int, wk: Pos, bk: Pos) returns (wk': Pos, bk': Pos)
    requires Fen.RanksReadable(texts) && 0 <= rk < 8 && read == 7 - rk && rs.Length == 8
    requires wk == CacheOf(Fen.KingCache(texts, WKING, read)) && bk == CacheOf(Fen.KingCache(texts, BKING, read))
    modifies rs
    ensures rs[..] == old(rs[..])[rk := Fen.ParseRanks(texts)[rk]]
    ensures wk' == CacheOf(Fen.KingCache(texts, WKING, read + 1))
    ensures bk' == CacheOf(Fen.KingCache(texts, BKING, read + 1))
  {
    Fen.ParseRanksAt(texts, rk);
    var rank, wfound, bfound := Fen.ReadRank(texts[7 - rk], rk);
    CacheStep(texts, WKING, 8 - rk, wk, wfound);
    CacheStep(texts, BKING, 8 - rk, bk, bfound);
    rs[rk] := rank;
    wk', bk' := wk, bk;
    if wfound.Some? {
      wk' := wfound.value;
    }
    if bfound.Some? {
      bk' := bfound.value;
    }
  }

  /** One more rank text read: its king, when it has one, replaces the cached square. */
  lemma CacheStep(texts: seq<string>, king: Piece, n: int, cached: Pos, found: Option<Pos>)
    requires Fen.RanksReadable(texts) && 1 <= n <= 8
    requires cached == CacheOf(Fen.KingCache(texts, king, n - 1))
    requires found == Fen.KingIn(texts[n - 1], king, 0, 8 - n, None)
    ensures CacheOf(Fen.KingCache(texts, king, n)) == if found.Some? then found.value else cached
  {
  }

  /** The flag fields of board_make: white iff the side is "w", each right iff its letter occurs, and the en passant square. */
  method ReadFlags(fields: seq<string>) returns (flags: Flags)
    requires |fields| >= 4 && fields[3] != []
    ensures flags == Flags(fields[1] == "w", Fen.RightsOf(fields[2]), Fen.EpOf(fields[3]))
  {
    var rights := NoRights;
    if 'K' in fields[2] {
      rights := rights.(wk := true);
    }
    if 'Q' in fields[2] {
      rights := rights.(wq := true);
    }
    if 'k' in fields[2] {
      rights := rights.(bk := true);
    }
    if 'q' in fields[2] {
      rights := rights.(bq := true);
    }
    var ep := if '-' in fields[3] then NOPOS else ParseUtils.PosFromStr(fields[3]);
    flags := Flags(fields[1] == "w", rights, ep);
  }

  class Board {
    var ranks: array<Rank>
    var flags: Flags
    var wking: Pos
    var bking: Pos

    /** Eight rank words. */
    ghost predicate Valid()
      reads this
    {
      ranks.Length == 8
    }

    /** The board's ranks and flags. */
    function Value(): Position
      requires Valid()
      reads this, ranks
    {
      Position(ranks[..], flags)
    }

    /**
     * board_make: the ranks read from the placement field, each king's
     * square cached where it is met, then the side, the castling letters
     * and the en passant square.
     */
    constructor Make(fen: string)
      requires Fen.Readable(fen)
      ensures Valid() && fresh(ranks)
      ensures Value() == Fen.ParseFen(fen)
      ensures var texts := Fen.Tokens(Fen.Tokens(fen, ' ')[0], '/');
              wking == CacheOf(Fen.KingCache(texts, WKING, 8)) && bking == CacheOf(Fen.KingCache(texts, BKING, 8))
    {
      var fields := Fen.Tokens(fen, ' ');
      assert fields[3] != [] by {
        Fen.TokensShape(fen, ' ');
        assert fields[3] in fields;
      }
      var rs, wk, bk := ReadPlacement(Fen.Tokens(fields[0], '/'));
      var f := ReadFlags(fields);
      ranks := rs;
      flags := f;
      wking, bking := wk, bk;
    }

    /** board_to_fen: the position's text in its four fields. */
    method ToFen() returns (s: string)
      requires Valid()
      ensures s == Fen.FenOf(Value())
    {
      s := Fen.WriteFen(Value());
    }

    /** board_copy: a new board with the same ranks and flags word, king caches included. */
    constructor Copy(other: Board)
      requires other.Valid()
      ensures Valid() && fresh(ranks)
      ensures Value() == other.Value() && wking == other.wking && bking == other.bking
    {
      var copy := new Rank[8];
      forall i | 0 <= i < 8 {
        copy[i] := other.ranks[i];
      }
      ranks := copy;
      flags := other.flags;
      wking := other.wking;
      bking := other.bking;
    }

    /** ZEROPOS then SETPOS: square `sq` of its rank word now holds `pc`. */
    method SetPos(sq: int, pc: Piece)
      requires Valid() && IsSquare(sq)
      modifies ranks
      ensures Valid() && ranks[..] == SetSquare(old(ranks[..]), sq, pc)
    {
      ranks[sq / 8] := ranks[sq / 8][sq % 8 := pc];
    }

    /** Step 1: a capture empties the victim's square and voids the right of a rook taken on its corner. */
    method Kill(m: Move)
      requires Valid() && Placement.Applicable(m)
      modifies this, ranks
      ensures Valid() && ranks == old(ranks) && wking == old(wking) && bking == old(bking)
      ensures ranks[..] == Placement.Killed(old(ranks[..]), m)
      ensures flags == old(flags).(rights := KillRights(old(flags.rights), m))
    {
      if Moves.IsCap(m) {
        SetPos(m.killpos, NOPC);
        if m.killpc == WROOK {
          if m.killpos == 0 {
            flags := flags.(rights := flags.rights.(wq := false));
          } else if m.killpos == 7 {
            flags := flags.(rights := flags.rights.(wk := false));
          }
        } else if m.killpc == BROOK {
          if m.killpos == 56 {
            flags := flags.(rights := flags.rights.(bq := false));
          } else if m.killpos == 63 {
            flags := flags.(rights := flags.rights.(bk := false));
          }
        }
      }
    }

    /** Steps 2 and 3: MOVEPC, then the rook of a castle. */
    method MovePieces(m: Move)
      requires Valid() && Placement.Applicable(m)
      modifies ranks
      ensures ranks[..] == Placement.RookRelocated(Placement.Moved(old(ranks[..]), m), Moves.IsCastle(m))
    {
      SetPos(m.frompos, NOPC);
      SetPos(m.topos, m.topc);
      match Moves.IsCastle(m)
      case NoCastle =>
      case WKCastle =>
        SetPos(7, NOPC);
        SetPos(5, WROOK);
      case WQCastle =>
        SetPos(0, NOPC);
        SetPos(3, WROOK);
      case BKCastle =>
        SetPos(63, NOPC);
        SetPos(61, BROOK);
      case BQCastle =>
        SetPos(56, NOPC);
        SetPos(59, BROOK);
    }

    /** Step 4: the rights the mover voids. */
    method MoverUpdate(m: Move)
      modifies this
      ensures ranks == old(ranks) && wking == old(wking) && bking == old(bking)
      ensures flags == old(flags).(rights := MoverRights(old(flags.rights), m))
    {
      if m.frompc == WROOK {
        if m.frompos == 0 {
          flags := flags.(rights := flags.rights.(wq := false));
        } else if m.frompos == 7 {
          flags := flags.(rights := flags.rights.(wk := false));
        }
      } else if m.frompc == WKING {
        flags := flags.(rights := flags.rights.(wk := false));
        flags := flags.(rights := flags.rights.(wq := false));
      } else if m.frompc == BROOK {
        if m.frompos == 56 {
          flags := flags.(rights := flags.rights.(bq := false));
        } else if m.frompos == 63 {
          flags := flags.(rights := flags.rights.(bk := false));
        }
      } else if m.frompc == BKING {
        flags := flags.(rights := flags.rights.(bk := false));
        flags := flags.(rights := flags.rights.(bq := false));
      }
    }

    /** Step 5: no en passant square, unless a pawn moved two ranks; then the square it passed over. */
    method EpUpdate(m: Move)
      requires Placement.Applicable(m)
      modifies this
      ensures ranks == old(ranks) && wking == old(wking) && bking == old(bking)
      ensures flags == old(flags).(ep := Placement.EpAfter(m))
    {
      flags := flags.(ep := NOPOS);
      if (m.frompc == WPAWN || m.frompc == BPAWN) && (m.topos - m.frompos == 16 || m.frompos - m.topos == 16) {
        flags := flags.(ep := (m.frompos + m.topos) / 2);
      }
    }

    /**
     * board_apply_move: remove a captured piece (and void the right of a
     * rook taken on its corner), move the piece, carry the rook of a
     * castle, void the rights the mover loses, set the en passant square,
     * flip the side to move, and follow a moved king in the cache.
     */
    method ApplyMove(m: Move)
      requires Valid() && Placement.Applicable(m)
      modifies this, ranks
      ensures Valid() && ranks == old(ranks)
      ensures Value() == Applied(old(Value()), m)
      ensures wking == KingAfter(old(wking), WKING, m) && bking == KingAfter(old(bking), BKING, m)
    {
      Kill(m);
      MovePieces(m);
      MoverUpdate(m);
      EpUpdate(m);
      flags := flags.(white := !flags.white);
      if m.frompc == WKING {
        wking := m.topos;
      } else if m.frompc == BKING {
        bking := m.topos;
      }
    }
  }
}
