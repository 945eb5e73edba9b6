/**
 * Moves of the C library (src/move.c): classification of a move record,
 * its three-way comparison and its short text form.
 */
module Moves {
  import opened Defs
  import ParseUtils

  /** The fields in the order move_cmp compares them. */
  function Key(m: Move): seq<int>
  {
    [m.frompc, m.frompos, m.topc, m.topos, m.killpc, m.killpos]
  }

  /** `a` comes before `b`: at the first field where their keys differ, a's is smaller. */
  predicate LexBefore(a: Move, b: Move)
  {
    exists k :: 0 <= k < 6 && Key(a)[..k] == Key(b)[..k] && Key(a)[k] < Key(b)[k]
  }

  /** move_is_cap: the move takes a piece. */
  predicate IsCap(m: Move) { m.killpc != NOPC }

  /** move_is_ep: a capture whose victim does not stand on the destination. */
  predicate IsEp(m: Move) { IsCap(m) && m.topos != m.killpos }

  /** move_is_promo: the piece changes kind on arrival. */
  predicate IsPromo(m: Move) { m.frompc != m.topc }

  /**
   * move_is_castle: a king moving two files from its home square e1 or e8
   * is a castle, kingside towards g and queenside towards c.
   */
  function IsCastle(m: Move): (c: Castle)
    ensures c == WKCastle <==> m.frompc == WKING && m.frompos == 4 && m.topos == 6
    ensures c == WQCastle <==> m.frompc == WKING && m.frompos == 4 && m.topos == 2
    ensures c == BKCastle <==> m.frompc == BKING && m.frompos == 60 && m.topos == 62
    ensures c == BQCastle <==> m.frompc == BKING && m.frompos == 60 && m.topos == 58
  {
    if m.frompc == WKING && m.frompos == ParseUtils.PosOf('e', 1) && m.topos == ParseUtils.PosOf('g', 1) then WKCastle
    else if m.frompc == WKING && m.frompos == ParseUtils.PosOf('e', 1) && m.topos == ParseUtils.PosOf('c', 1) then WQCastle
    else if m.frompc == BKING && m.frompos == ParseUtils.PosOf('e', 8) && m.topos == ParseUtils.PosOf('g', 8) then BKCastle
    else if m.frompc == BKING && m.frompos == ParseUtils.PosOf('e', 8) && m.topos == ParseUtils.PosOf('c', 8) then BQCastle
    else NoCastle
  }

  /** move_cmp: negative, zero or positive as `a` sorts before, equal to or after `b`. */
  function Cmp(a: Move, b: Move): (r: int)
    ensures r == 0 <==> a == b
  {
    if a.frompc != b.frompc then a.frompc - b.frompc
    else if a.frompos != b.frompos then a.frompos - b.frompos
    else if a.topc != b.topc then a.topc - b.topc
    else if a.topos != b.topos then a.topos - b.topos
    else if a.killpc != b.killpc then a.killpc - b.killpc
    else if a.killpos != b.killpos then a.killpos - b.killpos
    else 0
  }

  /** The index of the first field where two different moves differ. */
  function FirstDifference(a: Move, b: Move): (k: nat)
    requires a != b
    ensures k < 6 && Key(a)[..k] == Key(b)[..k] && Key(a)[k] != Key(b)[k]
  {
    if a.frompc != b.frompc then 0
    else if a.frompos != b.frompos then 1
    else if a.topc != b.topc then 2
    else if a.topos != b.topos then 3
    else if a.killpc != b.killpc then 4
    else 5
  }

  /** Two keys agreeing up to k and differing at k have k as their first difference. */
  lemma FirstDifferenceUnique(a: Move, b: Move, k: int)
    requires 0 <= k < 6 && Key(a)[..k] == Key(b)[..k] && Key(a)[k] != Key(b)[k]
    ensures a != b && FirstDifference(a, b) == k
  {
    var d := FirstDifference(a, b);
  }

  /** `a` comes before `b` exactly when their first differing field is smaller in `a`. */
  lemma LexBeforeFirstDifference(a: Move, b: Move)
    ensures LexBefore(a, b) <==> a != b && Key(a)[FirstDifference(a, b)] < Key(b)[FirstDifference(a, b)]
  {
    if LexBefore(a, b) {
      var k :| 0 <= k < 6 && Key(a)[..k] == Key(b)[..k] && Key(a)[k] < Key(b)[k];
      FirstDifferenceUnique(a, b, k);
    }
    if a != b {
      var d := FirstDifference(a, b);
      if Key(a)[d] < Key(b)[d] {
        assert 0 <= d < 6 && Key(a)[..d] == Key(b)[..d] && Key(a)[d] < Key(b)[d];
      }
    }
  }

  /** The sign of move_cmp is the lexicographic order of the keys. */
  lemma CmpIsLexicographic(a: Move, b: Move)
    ensures Cmp(a, b) < 0 <==> LexBefore(a, b)
    ensures Cmp(a, b) > 0 <==> LexBefore(b, a)
  {
    LexBeforeFirstDifference(a, b);
    LexBeforeFirstDifference(b, a);
    if a != b {
      assert FirstDifference(a, b) == FirstDifference(b, a);
    }
  }

  /** The key order is a strict total order: irreflexive, transitive and total on distinct moves. */
  lemma LexBeforeIsStrictTotalOrder(a: Move, b: Move, c: Move)
    ensures !LexBefore(a, a)
    ensures LexBefore(a, b) && LexBefore(b, c) ==> LexBefore(a, c)
    ensures a != b ==> LexBefore(a, b) || LexBefore(b, a)
  {
    LexBeforeFirstDifference(a, a);
    LexBeforeFirstDifference(a, b);
    LexBeforeFirstDifference(b, a);
    LexBeforeFirstDifference(b, c);
    LexBeforeFirstDifference(a, c);
    if a != b {
      assert FirstDifference(a, b) == FirstDifference(b, a);
    }
    if LexBefore(a, b) && LexBefore(b, c) {
      var i, j := FirstDifference(a, b), FirstDifference(b, c);
      var k := if i < j then i else j;
      assert Key(a)[..k] == Key(c)[..k] by {
        assert Key(a)[..k] == Key(a)[..i][..k] && Key(b)[..k] == Key(b)[..i][..k];
        assert Key(b)[..k] == Key(b)[..j][..k] && Key(c)[..k] == Key(c)[..j][..k];
      }
      if i < j {
        assert Key(b)[..j][i] == Key(c)[..j][i];
      } else if j < i {
        assert Key(a)[..i][j] == Key(b)[..i][j];
      }
      assert Key(a)[k] < Key(c)[k];
    }
  }

  /**
   * move_str: "0-0" or "0-0-0" for castles; otherwise the origin square,
   * "x" for a capture, the destination square, "e.p." for en passant and
   * the letter of the new piece for a promotion.
   */
  function MoveStr(m: Move): (s: string)
    ensures IsCastle(m) in {WKCastle, BKCastle} ==> s == "0-0"
    ensures IsCastle(m) in {WQCastle, BQCastle} ==> s == "0-0-0"
  {
    match IsCastle(m)
    case WKCastle => "0-0"
    case BKCastle => "0-0"
    case WQCastle => "0-0-0"
    case BQCastle => "0-0-0"
    case NoCastle =>
      ParseUtils.PosToStr(m.frompos)
      + (if IsCap(m) then "x" else "")
      + ParseUtils.PosToStr(m.topos)
      + (if IsEp(m) then "e.p." else "")
      + (if IsPromo(m) then ParseUtils.PieceToStr(m.topc) else "")
  }

  /**
   * The text of a move between two squares that is not a castle spells
   * out its squares and kinds: its origin and destination read back from
   * it, it has an "x" exactly when the move is a capture, "e.p." follows
   * the destination of an en passant capture, a promotion ends in the
   * letter of the new piece, and its length counts the optional parts.
   */
  lemma MoveStrReadsBack(m: Move)
    requires IsSquare(m.frompos) && IsSquare(m.topos) && IsCastle(m) == NoCastle
    ensures var s := MoveStr(m);
      var t := if IsCap(m) then 3 else 2;
      |s| == 4 + (if IsCap(m) then 1 else 0) + (if IsEp(m) then 4 else 0) + (if IsPromo(m) then 1 else 0)
      && ParseUtils.PosFromStr(s) == m.frompos
      && ParseUtils.PosFromStr(s[t..]) == m.topos
      && ('x' in s <==> IsCap(m))
      && (IsEp(m) ==> s[t+2..t+6] == "e.p.")
      && (IsPromo(m) ==> s[|s|-1] == ParseUtils.PieceToStr(m.topc)[0])
  {
    var s := MoveStr(m);
    var t := if IsCap(m) then 3 else 2;
    var from, to := ParseUtils.PosToStr(m.frompos), ParseUtils.PosToStr(m.topos);
    var tail := (if IsEp(m) then "e.p." else "") + (if IsPromo(m) then ParseUtils.PieceToStr(m.topc) else "");
    assert s == from + (if IsCap(m) then "x" else "") + to + tail;
    assert s[..2] == from;
    assert s[t..][..2] == to;
    ParseUtils.PosRoundTrip(m.frompos);
    ParseUtils.PosRoundTrip(m.topos);
    assert ParseUtils.PosFromStr(s) == ParseUtils.PosFromStr(from);
    assert ParseUtils.PosFromStr(s[t..]) == ParseUtils.PosFromStr(to);
    assert 'x' !in from && 'x' !in to && 'x' !in tail;
    if IsCap(m) {
      assert s[2] == 'x';
    } else {
      assert s == from + to + tail;
    }
    assert s[t+2..] == tail;
    if IsPromo(m) {
      assert tail[|tail|-1] == ParseUtils.PieceToStr(m.topc)[0];
    }
  }
}
