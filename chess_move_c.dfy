/**
 * The older C move functions kept beside the C++ library
 * (chess/src/move.c). The record and its classification are those of
 * src/move.c; the comparison answers only "is a before b".
 */
module ChessMoveC {
  import opened Defs
  import Moves
  import ParseUtils

  /** move_cmp: 1 when `a` sorts before `b`, and 0 both when they are equal and when `b` sorts first. */
  function Cmp(a: Move, b: Move): (r: int)
    ensures r == 0 || r == 1
    ensures r == 1 <==> Moves.LexBefore(a, b)
  {
    Moves.LexBeforeFirstDifference(a, b);
    if a.frompc != b.frompc then (if a.frompc < b.frompc then 1 else 0)
    else if a.frompos != b.frompos then (if a.frompos < b.frompos then 1 else 0)
    else if a.topc != b.topc then (if a.topc < b.topc then 1 else 0)
    else if a.topos != b.topos then (if a.topos < b.topos then 1 else 0)
    else if a.killpc != b.killpc then (if a.killpc < b.killpc then 1 else 0)
    else if a.killpos != b.killpos then (if a.killpos < b.killpos then 1 else 0)
    else 0
  }

  /**
   * One answer of 0 cannot tell equal moves from a later one, but the
   * answers in both directions can: both are 0 exactly when the moves
   * are equal, and both are never 1.
   */
  lemma CmpBothWays(a: Move, b: Move)
    ensures Cmp(a, b) == 0 && Cmp(b, a) == 0 <==> a == b
    ensures !(Cmp(a, b) == 1 && Cmp(b, a) == 1)
  {
    Moves.LexBeforeIsStrictTotalOrder(a, b, a);
  }

  /** move_str on a castle: "0-0" kingside, "0-0-0" queenside, as in src/move.c. */
  function CastleStr(m: Move): (s: string)
    requires Moves.IsCastle(m) != NoCastle
    ensures s == Moves.MoveStr(m)
    ensures |s| == 3 <==> m.topos % 8 == 6
  {
    if Moves.IsCastle(m) in {WKCastle, BKCastle} then "0-0" else "0-0-0"
  }

  /**
   * move_str as written for a move that is not a castle, the buffer taken
   * as starting empty: the capture test names move_is_cap without calling
   * it, so the "x" is written for every move.
   */
  function MoveStrAsWritten(m: Move): (s: string)
    ensures Moves.IsCastle(m) != NoCastle ==> s == Moves.MoveStr(m)
    ensures Moves.IsCap(m) ==> s == Moves.MoveStr(m)
  {
    if Moves.IsCastle(m) != NoCastle then CastleStr(m)
    else
      ParseUtils.PosToStr(m.frompos) + "x" + ParseUtils.PosToStr(m.topos)
      + (if Moves.IsEp(m) then "e.p." else "")
      + (if Moves.IsPromo(m) then ParseUtils.PieceToStr(m.topc) else "")
  }

  /**
   * Every move between two squares that is neither a castle nor a capture
   * is written as a capture: its text has an "x" that the text of
   * src/move.c does not.
   */
  lemma QuietMoveWrittenAsCapture(m: Move)
    requires IsSquare(m.frompos) && IsSquare(m.topos) && Moves.IsCastle(m) == NoCastle && !Moves.IsCap(m)
    ensures 'x' in MoveStrAsWritten(m) && 'x' !in Moves.MoveStr(m)
  {
    Moves.MoveStrReadsBack(m);
    assert |ParseUtils.PosToStr(m.frompos)| == 2;
    assert MoveStrAsWritten(m)[2] == 'x';
  }
}
