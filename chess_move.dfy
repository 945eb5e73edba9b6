/**
 * The move class of the C++ library (chess/src/move.cpp). Its capture,
 * en passant, promotion and castle tests are the definitions of
 * src/move.c (Moves.IsCap, Moves.IsEp, Moves.IsPromo, Moves.IsCastle);
 * its order and its text are computed here with the C++ helpers.
 */
module ChessMove {
  import opened Defs
  import Moves
  import ChessParseUtils

  /** operator<: at the first field that differs, this move's is the smaller; equal moves are not ordered. */
  function Less(a: Move, b: Move): (r: bool)
    ensures r <==> Moves.LexBefore(a, b)
  {
    Moves.LexBeforeFirstDifference(a, b);
    if a.frompc != b.frompc then a.frompc < b.frompc
    else if a.frompos != b.frompos then a.frompos < b.frompos
    else if a.topc != b.topc then a.topc < b.topc
    else if a.topos != b.topos then a.topos < b.topos
    else if a.killpc != b.killpc then a.killpc < b.killpc
    else if a.killpos != b.killpos then a.killpos < b.killpos
    else false
  }

  /** operator< is a strict weak order fit for sorting: irreflexive, asymmetric, transitive, and total on distinct moves. */
  lemma LessIsStrictTotalOrder(a: Move, b: Move, c: Move)
    ensures !Less(a, a)
    ensures Less(a, b) ==> !Less(b, a)
    ensures Less(a, b) && Less(b, c) ==> Less(a, c)
    ensures a != b ==> Less(a, b) || Less(b, a)
  {
    Moves.LexBeforeIsStrictTotalOrder(a, b, c);
    Moves.LexBeforeIsStrictTotalOrder(a, b, a);
  }

  /**
   * algNot: "0-0" or "0-0-0" for castles; otherwise the origin square,
   * "x" for a capture, the destination, "e.p." for en passant and the
   * promotion letter. It is the text move_str of src/move.c gives.
   */
  function AlgNot(m: Move): (s: string)
    ensures s == Moves.MoveStr(m)
  {
    match Moves.IsCastle(m)
    case WKCastle => "0-0"
    case BKCastle => "0-0"
    case WQCastle => "0-0-0"
    case BQCastle => "0-0-0"
    case NoCastle =>
      var from := ChessParseUtils.PosToStr(m.frompos);
      var kill := if Moves.IsCap(m) then "x" else "";
      var to := ChessParseUtils.PosToStr(m.topos);
      var ep := if Moves.IsEp(m) then "e.p." else "";
      var promo := if Moves.IsPromo(m) then [ChessParseUtils.PieceToChar(m.topc)] else "";
      from + kill + to + ep + promo
  }
}
