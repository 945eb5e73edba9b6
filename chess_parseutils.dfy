/**
 * Square names and piece letters of the C++ library
 * (chess/src/parseutils.cpp): the same formats as src/parseutils.c,
 * computed with bit operations and lookup maps.
 */
module ChessParseUtils {
  import opened Defs
  import ParseUtils
  import Bytes

  /** pieceFromCharMap: each piece letter to its code. */
  const PieceFromCharMap: map<char, Piece> :=
    map['P' := WPAWN, 'N' := WKNIGHT, 'B' := WBISHOP, 'R' := WROOK, 'Q' := WQUEEN, 'K' := WKING,
        'p' := BPAWN, 'n' := BKNIGHT, 'b' := BBISHOP, 'r' := BROOK, 'q' := BQUEEN, 'k' := BKING]

  /** pieceToCharMap: each piece code 0..11 to its letter. */
  const PieceToCharMap: map<Piece, char> :=
    map[WPAWN := 'P', WKNIGHT := 'N', WBISHOP := 'B', WROOK := 'R', WQUEEN := 'Q', WKING := 'K',
        BPAWN := 'p', BKNIGHT := 'n', BBISHOP := 'b', BROOK := 'r', BQUEEN := 'q', BKING := 'k']

  /** posToStr: file from the low three bits, rank from the bits above them. */
  function PosToStr(pos: Pos): (s: string)
    ensures s == ParseUtils.PosToStr(pos)
  {
    if pos == NOPOS then "-"
    else
      var file := ((pos as bv8) & 7) as int;
      var rank := ((pos as bv8) >> 3) as int;
      assert file == pos % 8 && rank == pos / 8 by { ByteFields(pos); }
      [(file + 'a' as int) as char, (rank + '1' as int) as char]
  }

  /** The low three bits of a byte are its remainder by 8 and the bits above them its quotient. */
  lemma ByteFields(pos: Pos)
    ensures ((pos as bv8) & 7) as int == pos % 8
    ensures ((pos as bv8) >> 3) as int == pos / 8
  {
    Bytes.RoundTrip(pos);
    Bytes.LowBits(pos as bv8);
    Bytes.HighBits(pos as bv8);
  }

  /** pieceFromChar: the code the map gives the letter, NOPC for any other character. */
  function PieceFromChar(name: char): (pc: Piece)
    ensures pc == PieceOfLetter(name)
  {
    if name in PieceFromCharMap then PieceFromCharMap[name] else NOPC
  }

  /** pieceToChar: the letter the map gives the code, '-' for NOPC. */
  function PieceToChar(piece: Piece): (c: char)
    ensures c == ParseUtils.PieceToStr(piece)[0]
  {
    if piece in PieceToCharMap then PieceToCharMap[piece] else '-'
  }

  /** Reading back the letter of a piece code 0..11 gives the code. */
  lemma PieceCharRoundTrip(piece: Piece)
    requires piece < 12
    ensures PieceFromChar(PieceToChar(piece)) == piece
  {
    ParseUtils.PieceLetterRoundTrip(piece);
  }
}

/** Facts about the eight-bit values the C++ library keeps positions in. */
module Bytes {
  /** A value 0..255 converts to a byte and back unchanged. */
  lemma RoundTrip(x: int)
    requires 0 <= x < 256
    ensures (x as bv8) as int == x
  {
    var b := ByteOf(x);
    SameByte(b, x);
  }

  /** A byte with the value x, counted up from 0. */
  lemma {:induction false} ByteOf(x: int) returns (b: bv8)
    requires 0 <= x < 256
    ensures b as int == x
  {
    if x == 0 {
      b := 0;
    } else {
      var c := ByteOf(x - 1);
      b := c + 1;
    }
  }

  /** Converting the value of a byte back to a byte gives that byte. */
  lemma SameByte(b: bv8, x: int)
    requires b as int == x
    ensures x as bv8 == b
  {
  }

  /** The low three bits of a byte are its remainder by 8. */
  lemma LowBits(b: bv8)
    ensures (b & 7) as int == (b as int) % 8
  {
  }

  /** The bits above the low three are its quotient by 8. */
  lemma HighBits(b: bv8)
    ensures (b >> 3) as int == (b as int) / 8
  {
  }
}
