/**
 * The older C parse utilities kept beside the C++ library
 * (chess/src/parseutils.c). Square names are those of src/parseutils.c
 * (ParseUtils.PosFromStr, ParseUtils.PosToStr); piece letters are looked
 * up in a list of the twelve letters that the first lookup fills.
 */
module ChessParseUtilsC {
  import opened Defs
  import ParseUtils
  import ArrayList

  /** The module's global state: the letter list `_piece_char_map`, null until first used. */
  class PieceTable {
    var table: ArrayList.AList?<char>

    /** Once filled, the list holds the twelve piece letters in code order. */
    ghost predicate Valid()
      reads this, (if table == null then {} else {table, table.data})
    {
      table != null ==> table.Valid() && table.Contents() == PieceLetters
    }

    /** No list yet. */
    constructor ()
      ensures Valid() && table == null
    {
      table := null;
    }

    /** _parse_utils_init: on the first call, make the list and append P N B R Q K p n b r q k; later calls change nothing. */
    method Init()
      requires Valid()
      modifies this
      ensures Valid() && table != null
      ensures old(table) != null ==> table == old(table)
      ensures old(table) == null ==> fresh(table) && fresh(table.data)
    {
      if table == null {
        var t := new ArrayList.AList<char>.MakeValue(12);
        var i := 0;
        while i < 12
          invariant 0 <= i <= 12
          invariant t.Valid() && fresh(t.data)
          invariant t.Contents() == PieceLetters[..i]
        {
          t.Append(PieceLetters[i]);
          i := i + 1;
        }
        table := t;
      }
    }

    /** piece_from_char: the index of the letter in the list, NOPC when alst_index_of finds none. */
    method PieceFromChar(name: char) returns (pc: Piece)
      requires Valid()
      modifies this
      ensures Valid() && table != null
      ensures old(table) != null ==> table == old(table)
      ensures pc == PieceOfLetter(name)
    {
      Init();
      var r := table.IndexOf(name);
      if r == ArrayList.NOT_FOUND {
        return NOPC;
      }
      return r;
    }

    /** piece_to_str: the list's letter for a code 0..11, "-" for any other code. */
    method PieceToStr(piece: Piece) returns (s: string)
      requires Valid()
      modifies this
      ensures Valid() && table != null
      ensures old(table) != null ==> table == old(table)
      ensures s == ParseUtils.PieceToStr(piece)
    {
      Init();
      if WPAWN <= piece <= BKING {
        var ok, c := table.Get(piece);
        return [c];
      }
      return "-";
    }
  }
}
