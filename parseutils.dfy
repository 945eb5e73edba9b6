/**
 * Square names and piece letters (src/parseutils.c): a square is named by
 * its file letter a..h and rank digit 1..8, "-" names no square, and each
 * piece code 0..11 has a one-letter name.
 */
module ParseUtils {
  import opened Defs

  /** _piece_str_map: the one-letter name of each piece code. */
  const PieceStrMap: seq<string> := ["P", "N", "B", "R", "Q", "K", "p", "n", "b", "r", "q", "k"]

  /** The POS macro: the square of a file letter and a rank number, stored in a position byte. */
  function PosOf(file: char, rank: int): Pos
  {
    ((rank - 1) * 8 + (file as int - 'a' as int)) % 256
  }

  /** A square name: a file letter a..h followed by a rank digit 1..8. */
  predicate IsSquareName(s: string)
  {
    |s| == 2 && 'a' <= s[0] <= 'h' && '1' <= s[1] <= '8'
  }

  /** pos_from_str: "-" gives NOPOS; otherwise the first two characters name the square. */
  function PosFromStr(name: string): (p: Pos)
    requires 1 <= |name|
    ensures name[0] == '-' ==> p == NOPOS
    ensures 2 <= |name| && IsSquareName(name[..2]) ==>
              IsSquare(p) && p % 8 == name[0] as int - 'a' as int && p / 8 == name[1] as int - '1' as int
  {
    if name[0] == '-' then NOPOS
    else PosOf(name[0], CharAt(name, 1) as int - '0' as int)
  }

  /** pos_to_str: NOPOS gives "-"; any other byte gives its file letter and rank digit. */
  function PosToStr(pos: Pos): (s: string)
    ensures pos == NOPOS ==> s == "-"
    ensures pos != NOPOS ==> |s| == 2 && s[0] != '-'
    ensures IsSquare(pos) ==> IsSquareName(s)
  {
    if pos == NOPOS then "-"
    else [(pos % 8 + 'a' as int) as char, (pos / 8 + '1' as int) as char]
  }

  /** Reading back the name of any position byte gives the byte. */
  lemma PosRoundTrip(pos: Pos)
    ensures PosFromStr(PosToStr(pos)) == pos
  {
    if pos != NOPOS {
      var s := PosToStr(pos);
      assert CharAt(s, 1) as int - '0' as int == pos / 8 + 1;
    }
  }

  /** pos_from_str looks at no more than the first two characters of a name. */
  lemma PosFromStrPrefix(name: string, rest: string)
    requires |name| == 2
    ensures PosFromStr(name + rest) == PosFromStr(name)
  {
    assert (name + rest)[0] == name[0] && (name + rest)[1] == name[1];
  }

  /** Naming the square read from a square name, or from "-", gives the name back. */
  lemma NameRoundTrip(s: string)
    requires IsSquareName(s) || s == "-"
    ensures PosToStr(PosFromStr(s)) == s
  {
    if s != "-" {
      assert s[..2] == s;
    }
  }

  /** piece_from_char: the index of the first entry of the letter table naming `name`, or NOPC. */
  method PieceFromChar(name: char) returns (pc: Piece)
    ensures pc == PieceOfLetter(name)
  {
    var i := 0;
    while i < 12
      invariant 0 <= i <= 12
      invariant forall k :: 0 <= k < i ==> PieceStrMap[k][0] != name
    {
      if PieceStrMap[i][0] == name {
        return i;
      }
      i := i + 1;
    }
    assert forall k :: 0 <= k < 12 ==> PieceStrMap[k][0] == PieceLetters[k];
    return NOPC;
  }

  /** piece_to_str: the letter of a piece code 0..11, "-" for any other code. */
  function PieceToStr(piece: Piece): (s: string)
    ensures |s| == 1
    ensures piece < 12 ==> s[0] == PieceLetters[piece]
    ensures piece == NOPC ==> s == "-"
  {
    if WPAWN <= piece <= BKING then PieceStrMap[piece] else "-"
  }

  /** Reading back the letter of a piece code 0..11 gives the code. */
  lemma PieceLetterRoundTrip(piece: Piece)
    requires piece < 12
    ensures PieceOfLetter(PieceToStr(piece)[0]) == piece
  {
  }
}
