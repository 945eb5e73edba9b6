/**
 * The move class of the game front end (game/move.cpp): it reads a move
 * from its verbose text "<piece><from>[x<victim>]<to>[e.p.][<promotion>]",
 * classifies castles by the king's destination alone, and orders moves
 * by an "or" of field comparisons.
 */
module GameMove {
  import opened Defs
  import Moves
  import ParseUtils
  import ChessParseUtils

  /** The four characters of `s` from index i read "e.p.". */
  predicate EpAt(s: string, i: int)
  {
    0 <= i && i + 4 <= |s| && s[i..i + 4] == "e.p."
  }

  /** Some window of `s` reads "e.p." (strstr). */
  predicate HasEpSuffix(s: string)
  {
    exists i :: 0 <= i <= |s| - 4 && EpAt(s, i)
  }

  /** The square of the pawn taken en passant on `topos`: one rank up from rank index 2, else one rank down, kept in a byte. */
  function EpVictim(topos: Pos): Pos
  {
    if topos / 8 == 2 then (topos + 8) % 256 else (topos - 8) % 256
  }

  /**
   * Move(const char*): the piece letter, then the origin square. A text
   * holding an "x" is a capture whose length picks the form (7 plain, 8
   * with a promotion letter, 11 en passant, where "e.p." must occur);
   * any other length fails an assertion (None). A text without "x" is a
   * quiet move, with a promotion letter when it is six long. The source
   * reads two characters after each square start, so a text without "x"
   * has at least four.
   */
  function Parse(s: string): (r: Option<Move>)
    requires CString(s) && 2 <= |s|
    requires 'x' !in s ==> 4 <= |s|
    ensures r.Some? && 'x' in s ==> 7 <= |s| && r.value.killpc == ChessParseUtils.PieceFromChar(s[4])
                                    && r.value.topos == ParseUtils.PosFromStr(s[5..])
    ensures r.Some? && 'x' !in s ==> r.value.killpc == NOPC && r.value.killpos == NOPOS
                                     && r.value.topos == ParseUtils.PosFromStr(s[3..])
    ensures r.None? <==> 'x' in s && (|s| !in {7, 8, 11} || (|s| == 11 && !HasEpSuffix(s)))
    ensures r.Some? ==> r.value.frompc == ChessParseUtils.PieceFromChar(s[0])
                        && r.value.frompos == ParseUtils.PosFromStr(s[1..])
  {
    var frompc := ChessParseUtils.PieceFromChar(s[0]);
    var frompos := ParseUtils.PosFromStr(s[1..]);
    if 'x' in s then
      if |s| == 7 then
        var topos := ParseUtils.PosFromStr(s[5..]);
        Some(Move(frompos, topos, topos, frompc, frompc, ChessParseUtils.PieceFromChar(s[4])))
      else if |s| == 8 then
        var topos := ParseUtils.PosFromStr(s[5..]);
        Some(Move(frompos, topos, topos, frompc, ChessParseUtils.PieceFromChar(s[7]), ChessParseUtils.PieceFromChar(s[4])))
      else if |s| == 11 && HasEpSuffix(s) then
        var topos := ParseUtils.PosFromStr(s[5..]);
        Some(Move(frompos, topos, EpVictim(topos), frompc, frompc, ChessParseUtils.PieceFromChar(s[4])))
      else
        None
    else
      var topc := if |s| == 6 then ChessParseUtils.PieceFromChar(s[5]) else frompc;
      Some(Move(frompos, ParseUtils.PosFromStr(s[3..]), NOPOS, frompc, topc, NOPC))
  }

  /**
   * A move the verbose text can carry: real pieces on real squares; a
   * quiet move names no victim; a capture takes on its destination, or
   * takes en passant on EpVictim(topos) without promoting.
   */
  predicate VerboseMove(m: Move)
  {
    m.frompc < 12 && m.topc < 12 && IsSquare(m.frompos) && IsSquare(m.topos)
    && (m.killpc == NOPC ==> m.killpos == NOPOS)
    && (m.killpc != NOPC ==> m.killpos == m.topos || (m.killpos == EpVictim(m.topos) && m.topc == m.frompc))
  }

  /** The verbose text of a move, in the form the constructor reads (chess/include/move.h documents it). */
  function Verbose(m: Move): (s: string)
    requires VerboseMove(m)
    ensures CString(s) && 5 <= |s| <= 11
  {
    PieceCharNotNul(m.frompc);
    PieceCharNotNul(m.killpc);
    PieceCharNotNul(m.topc);
    SquareNameNotNul(m.frompos);
    SquareNameNotNul(m.topos);
    [ChessParseUtils.PieceToChar(m.frompc)] + ChessParseUtils.PosToStr(m.frompos)
    + (if Moves.IsCap(m) then "x" + [ChessParseUtils.PieceToChar(m.killpc)] else "")
    + ChessParseUtils.PosToStr(m.topos)
    + (if Moves.IsEp(m) then "e.p." else "")
    + (if Moves.IsPromo(m) then [ChessParseUtils.PieceToChar(m.topc)] else "")
  }

  /** The letter of a piece code is never the terminating NUL. */
  lemma PieceCharNotNul(p: Piece)
    ensures ChessParseUtils.PieceToChar(p) != '\0'
  {
  }

  /** The name of a square is two characters, neither of them NUL. */
  lemma SquareNameNotNul(pos: Pos)
    requires IsSquare(pos)
    ensures |ChessParseUtils.PosToStr(pos)| == 2 && CString(ChessParseUtils.PosToStr(pos))
  {
    var s := ChessParseUtils.PosToStr(pos);
    assert ParseUtils.IsSquareName(s);
  }

  /** No letter of a piece, square name or "e.p." is an "x" or a NUL. */
  lemma NoMarkInPieces(p: Piece)
    requires p < 12
    ensures ChessParseUtils.PieceToChar(p) !in {'x', '\0'}
    ensures ChessParseUtils.PieceFromChar(ChessParseUtils.PieceToChar(p)) == p
  {
    ChessParseUtils.PieceCharRoundTrip(p);
  }

  /** Reading the verbose text of a move gives the move back. */
  lemma ParseVerbose(m: Move)
    requires VerboseMove(m)
    ensures Parse(Verbose(m)) == Some(m)
  {
    NoMarkInPieces(m.frompc);
    NoMarkInPieces(m.topc);
    ParseUtils.PosRoundTrip(m.frompos);
    ParseUtils.PosRoundTrip(m.topos);
    if !Moves.IsCap(m) {
      ParseVerboseQuiet(m);
    } else {
      NoMarkInPieces(m.killpc);
      if Moves.IsEp(m) {
        ParseVerboseEnPassant(m);
      } else {
        ParseVerboseCapture(m);
      }
    }
  }

  /** The letters and squares of a verbose move read back to its fields. */
  predicate ReadsBack(m: Move)
  {
    m.frompc < 12 && m.topc < 12 && IsSquare(m.frompos) && IsSquare(m.topos)
    && ChessParseUtils.PieceToChar(m.frompc) !in {'x', '\0'} && ChessParseUtils.PieceToChar(m.topc) !in {'x', '\0'}
    && ChessParseUtils.PieceFromChar(ChessParseUtils.PieceToChar(m.frompc)) == m.frompc
    && ChessParseUtils.PieceFromChar(ChessParseUtils.PieceToChar(m.topc)) == m.topc
    && ParseUtils.PosFromStr(ParseUtils.PosToStr(m.frompos)) == m.frompos
    && ParseUtils.PosFromStr(ParseUtils.PosToStr(m.topos)) == m.topos
  }

  lemma ParseVerboseQuiet(m: Move)
    requires VerboseMove(m) && !Moves.IsCap(m) && ReadsBack(m)
    ensures Parse(Verbose(m)) == Some(m)
  {
    var promo := if Moves.IsPromo(m) then [ChessParseUtils.PieceToChar(m.topc)] else "";
    assert !Moves.IsEp(m);
    assert Verbose(m) == [ChessParseUtils.PieceToChar(m.frompc)] + ParseUtils.PosToStr(m.frompos) + "" + ParseUtils.PosToStr(m.topos) + "" + promo;
    assert [ChessParseUtils.PieceToChar(m.frompc)] + ParseUtils.PosToStr(m.frompos) + "" == [ChessParseUtils.PieceToChar(m.frompc)] + ParseUtils.PosToStr(m.frompos);
    assert ParseUtils.PosToStr(m.topos) + "" == ParseUtils.PosToStr(m.topos);
    ParseQuietText(Verbose(m), ChessParseUtils.PieceToChar(m.frompc), ParseUtils.PosToStr(m.frompos), ParseUtils.PosToStr(m.topos), promo);
  }

  lemma ParseVerboseCapture(m: Move)
    requires VerboseMove(m) && Moves.IsCap(m) && !Moves.IsEp(m) && ReadsBack(m)
    requires ChessParseUtils.PieceFromChar(ChessParseUtils.PieceToChar(m.killpc)) == m.killpc
    requires ChessParseUtils.PieceToChar(m.killpc) != '\0'
    ensures Parse(Verbose(m)) == Some(m)
  {
    var promo := if Moves.IsPromo(m) then [ChessParseUtils.PieceToChar(m.topc)] else "";
    var k := ChessParseUtils.PieceToChar(m.killpc);
    assert "x" + [k] == ['x', k];
    assert Verbose(m) == [ChessParseUtils.PieceToChar(m.frompc)] + ParseUtils.PosToStr(m.frompos) + ['x', k] + ParseUtils.PosToStr(m.topos) + "" + promo;
    assert ParseUtils.PosToStr(m.topos) + "" == ParseUtils.PosToStr(m.topos);
    ParseCaptureText(Verbose(m), ChessParseUtils.PieceToChar(m.frompc), ParseUtils.PosToStr(m.frompos), k, ParseUtils.PosToStr(m.topos), promo);
  }

  lemma ParseVerboseEnPassant(m: Move)
    requires VerboseMove(m) && Moves.IsEp(m) && ReadsBack(m)
    requires ChessParseUtils.PieceFromChar(ChessParseUtils.PieceToChar(m.killpc)) == m.killpc
    requires ChessParseUtils.PieceToChar(m.killpc) != '\0'
    ensures Parse(Verbose(m)) == Some(m)
  {
    var k := ChessParseUtils.PieceToChar(m.killpc);
    assert "x" + [k] == ['x', k];
    assert !Moves.IsPromo(m);
    assert Verbose(m) == [ChessParseUtils.PieceToChar(m.frompc)] + ParseUtils.PosToStr(m.frompos) + ['x', k] + ParseUtils.PosToStr(m.topos) + "e.p." + "";
    assert ParseUtils.PosToStr(m.topos) + "e.p." + "" == ParseUtils.PosToStr(m.topos) + "e.p.";
    ParseEnPassantText(Verbose(m), ChessParseUtils.PieceToChar(m.frompc), ParseUtils.PosToStr(m.frompos), k, ParseUtils.PosToStr(m.topos));
  }

  /** A text "<piece><from><to>[<promotion>]" reads as a quiet move. */
  lemma ParseQuietText(s: string, pc: char, f: string, t: string, promo: string)
    requires s == [pc] + f + t + promo && |promo| <= 1
    requires ParseUtils.IsSquareName(f) && ParseUtils.IsSquareName(t)
    requires pc !in {'x', '\0'} && 'x' !in promo && '\0' !in promo
    ensures Parse(s) == Some(Move(ParseUtils.PosFromStr(f), ParseUtils.PosFromStr(t), NOPOS,
                                  ChessParseUtils.PieceFromChar(pc),
                                  if |promo| == 1 then ChessParseUtils.PieceFromChar(promo[0]) else ChessParseUtils.PieceFromChar(pc),
                                  NOPC))
  {
    assert s == [pc, f[0], f[1], t[0], t[1]] + promo;
    assert 'x' !in s && CString(s);
    assert s[1..] == f + (t + promo);
    ParseUtils.PosFromStrPrefix(f, t + promo);
    assert s[3..] == t + promo;
    ParseUtils.PosFromStrPrefix(t, promo);
  }

  /** A text "<piece><from>x<victim><to>[<promotion>]" reads as a capture on the destination. */
  lemma ParseCaptureText(s: string, pc: char, f: string, k: char, t: string, promo: string)
    requires s == [pc] + f + ['x', k] + t + promo && |promo| <= 1
    requires ParseUtils.IsSquareName(f) && ParseUtils.IsSquareName(t)
    requires pc != '\0' && k != '\0' && '\0' !in promo
    ensures Parse(s) == Some(Move(ParseUtils.PosFromStr(f), ParseUtils.PosFromStr(t), ParseUtils.PosFromStr(t),
                                  ChessParseUtils.PieceFromChar(pc),
                                  if |promo| == 1 then ChessParseUtils.PieceFromChar(promo[0]) else ChessParseUtils.PieceFromChar(pc),
                                  ChessParseUtils.PieceFromChar(k)))
  {
    assert s == [pc, f[0], f[1], 'x', k, t[0], t[1]] + promo;
    assert s[3] == 'x' && CString(s);
    assert s[1..] == f + (['x', k] + t + promo);
    ParseUtils.PosFromStrPrefix(f, ['x', k] + t + promo);
    assert s[5..] == t + promo;
    ParseUtils.PosFromStrPrefix(t, promo);
  }

  /** A text "<piece><from>x<victim><to>e.p." reads as an en passant capture. */
  lemma ParseEnPassantText(s: string, pc: char, f: string, k: char, t: string)
    requires s == [pc] + f + ['x', k] + t + "e.p."
    requires ParseUtils.IsSquareName(f) && ParseUtils.IsSquareName(t)
    requires pc != '\0' && k != '\0'
    ensures Parse(s) == Some(Move(ParseUtils.PosFromStr(f), ParseUtils.PosFromStr(t), EpVictim(ParseUtils.PosFromStr(t)),
                                  ChessParseUtils.PieceFromChar(pc), ChessParseUtils.PieceFromChar(pc),
                                  ChessParseUtils.PieceFromChar(k)))
  {
    assert s == [pc, f[0], f[1], 'x', k, t[0], t[1], 'e', '.', 'p', '.'];
    assert s[3] == 'x' && CString(s);
    assert EpAt(s, 7);
    assert s[1..] == f + (['x', k] + t + "e.p.");
    ParseUtils.PosFromStrPrefix(f, ['x', k] + t + "e.p.");
    assert s[5..] == t + "e.p.";
    ParseUtils.PosFromStrPrefix(t, "e.p.");
  }

  /** castleType: a king landing on g1, c1, g8 or c8 counts as a castle, wherever it started. */
  function CastleType(m: Move): (c: Castle)
    ensures c == WKCastle <==> m.frompc == WKING && m.topos == 6
    ensures c == WQCastle <==> m.frompc == WKING && m.topos == 2
    ensures c == BKCastle <==> m.frompc == BKING && m.topos == 62
    ensures c == BQCastle <==> m.frompc == BKING && m.topos == 58
  {
    if m.frompc == WKING && m.topos == ParseUtils.PosOf('g', 1) then WKCastle
    else if m.frompc == WKING && m.topos == ParseUtils.PosOf('c', 1) then WQCastle
    else if m.frompc == BKING && m.topos == ParseUtils.PosOf('g', 8) then BKCastle
    else if m.frompc == BKING && m.topos == ParseUtils.PosOf('c', 8) then BQCastle
    else NoCastle
  }

  /**
   * Every castle of move_is_castle is the same castle here, and the two
   * agree on every king move from its home square; a king stepping b8 to
   * c8 is a castle here but not in src/move.c.
   */
  lemma CastleTypeVersusOrigin(m: Move)
    ensures Moves.IsCastle(m) != NoCastle ==> CastleType(m) == Moves.IsCastle(m)
    ensures m.frompos == 4 && m.frompc == WKING ==> CastleType(m) == Moves.IsCastle(m)
    ensures m.frompos == 60 && m.frompc == BKING ==> CastleType(m) == Moves.IsCastle(m)
    ensures m == Move(57, 58, NOPOS, BKING, BKING, NOPC) ==> CastleType(m) == BQCastle && Moves.IsCastle(m) == NoCastle
  {
  }

  /**
   * operator< as written: some one of frompc, frompos, topc, topos is
   * smaller in `a`, whatever the earlier fields say.
   */
  function LessAsWritten(a: Move, b: Move): (r: bool)
    ensures r ==> a != b
    ensures Moves.LexBefore(a, b) && a.killpc == b.killpc && a.killpos == b.killpos ==> r
  {
    Moves.LexBeforeFirstDifference(a, b);
    a.frompc < b.frompc || a.frompos < b.frompos || a.topc < b.topc || a.topos < b.topos
  }

  /**
   * The order as written is not asymmetric: a white pawn move from e4
   * and a white knight move from b1 are each "less" than the other.
   */
  lemma LessAsWrittenNotAsymmetric()
    ensures var a, b := Move(28, 36, NOPOS, WPAWN, WPAWN, NOPC), Move(1, 18, NOPOS, WKNIGHT, WKNIGHT, NOPC);
      LessAsWritten(a, b) && LessAsWritten(b, a)
  {
  }

  /**
   * operator<<: "0-0" or "0-0-0" when castleType says castle; otherwise
   * the origin, "x" for a capture, the destination, "e.p." for en passant
   * and the promotion letter. Wherever castleType agrees with
   * move_is_castle this is move_str's text.
   */
  function Print(m: Move): (s: string)
    ensures CastleType(m) == Moves.IsCastle(m) ==> s == Moves.MoveStr(m)
    ensures CastleType(m) != NoCastle ==> s in {"0-0", "0-0-0"}
  {
    match CastleType(m)
    case WKCastle => "0-0"
    case BKCastle => "0-0"
    case WQCastle => "0-0-0"
    case BQCastle => "0-0-0"
    case NoCastle =>
      ChessParseUtils.PosToStr(m.frompos)
      + (if Moves.IsCap(m) then "x" else "")
      + ChessParseUtils.PosToStr(m.topos)
      + (if Moves.IsEp(m) then "e.p." else "")
      + (if Moves.IsPromo(m) then [ChessParseUtils.PieceToChar(m.topc)] else "")
  }
}
