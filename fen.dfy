/**
 * Position text in Forsyth-Edwards Notation (section 16.1 of the PGN
 * standard), as board_make and board_to_fen (src/board.c) and the
 * Board(const char*) constructor and toFen (chess/src/board.cpp) read and
 * write it: four space-separated fields (placement, side to move,
 * castling rights, en passant square); the move counters are neither
 * read nor written.
 */
module Fen {
  import opened Defs
  import ParseUtils

  /** The run of `s` before its first delimiter `d`. */
  function Word(s: string, d: char): (w: string)
    ensures |w| <= |s| && w == s[..|w|] && d !in w
    ensures |w| < |s| ==> s[|w|] == d
  {
    if s == [] || s[0] == d then [] else [s[0]] + Word(s[1..], d)
  }

  /** strtok over a whole string: the maximal non-empty runs between delimiters `d`, in order. */
  function Tokens(s: string, d: char): seq<string>
    decreases |s|
  {
    if s == [] then []
    else if s[0] == d then Tokens(s[1..], d)
    else
      var w := Word(s, d);
      [w] + Tokens(s[|w|..], d)
  }

  /** strtok's tokens are never empty and hold no delimiter. */
  lemma {:induction false} TokensShape(s: string, d: char)
    ensures forall t :: t in Tokens(s, d) ==> t != [] && d !in t
    decreases |s|
  {
    if s != [] {
      if s[0] == d {
        TokensShape(s[1..], d);
      } else {
        TokensShape(s[|Word(s, d)|..], d);
      }
    }
  }

  /** A run without delimiter, followed by the end or a delimiter, is a word. */
  lemma {:induction false} WordOf(a: string, rest: string, d: char)
    requires d !in a && (rest == [] || rest[0] == d)
    ensures Word(a + rest, d) == a
  {
    if a != [] {
      assert (a + rest)[1..] == a[1..] + rest;
      WordOf(a[1..], rest, d);
    }
  }

  /** strtok returns a non-empty run without delimiter as the next token. */
  lemma TokensCons(a: string, rest: string, d: char)
    requires a != [] && d !in a && (rest == [] || rest[0] == d)
    ensures Tokens(a + rest, d) == [a] + Tokens(rest, d)
  {
    WordOf(a, rest, d);
    assert (a + rest)[|a|..] == rest;
  }

  /** strtok skips a delimiter. */
  lemma TokensSkip(rest: string, d: char)
    ensures Tokens([d] + rest, d) == Tokens(rest, d)
  {
    assert ([d] + rest)[1..] == rest;
  }

  // ----- the placement field -----

  /** The file offset after character `c` of a rank: one further for a piece letter, `c - '0'` further otherwise. */
  function NextOffs(c: char, offs: int): int
  {
    if PieceOfLetter(c) == NOPC then offs + (c as int - '0' as int) else offs + 1
  }

  /** Every character of the rank text is read at a file of the board (the source writes there with a shift). */
  predicate RankFits(text: string, offs: int)
  {
    text == [] || (0 <= offs < 8 && RankFits(text[1..], NextOffs(text[0], offs)))
  }

  /**
   * The rank word after reading `text` from file `offs`: each character
   * writes its piece (NOPC for a digit) at the current file, then moves
   * the file on.
   */
  function FillRank(text: string, rank: Rank, offs: int): Rank
    requires RankFits(text, offs)
  {
    if text == [] then rank
    else FillRank(text[1..], rank[offs := PieceOfLetter(text[0])], NextOffs(text[0], offs))
  }

  /** A rank of the placement field read into a rank word that starts all NOPC. */
  function ParseRank(text: string): Rank
    requires RankFits(text, 0)
  {
    FillRank(text, EmptyRank, 0)
  }

  /** The digit character of a count 0..9. */
  function DigitChar(n: int): char
    requires 0 <= n <= 9
  {
    ('0' as int + n) as char
  }

  /** The pending run of `blanks` empty files, as board_to_fen prints it: nothing, or one digit. */
  function Blanks(blanks: int): string
    requires 0 <= blanks <= 8
  {
    if blanks > 0 then [DigitChar(blanks)] else []
  }

  /** The text of the files `files` that end a rank, `blanks` empty files being pending before them. */
  function RankTextOf(files: seq<Piece>, blanks: int): string
    requires 0 <= blanks && blanks + |files| <= 8
  {
    if files == [] then Blanks(blanks)
    else if files[0] == NOPC then RankTextOf(files[1..], blanks + 1)
    else Blanks(blanks) + ParseUtils.PieceToStr(files[0]) + RankTextOf(files[1..], 0)
  }

  /** The text of a rank: piece letters, each run of empty files as its length. */
  function RankText(r: Rank): string
  {
    RankTextOf(r, 0)
  }

  /** The placement text of the ranks `rs`, the last one first, separated by "/". */
  function BoardTextOf(rs: seq<Rank>): string
  {
    if rs == [] then []
    else RankText(rs[|rs| - 1]) + ((if |rs| > 1 then "/" else "") + BoardTextOf(rs[..|rs| - 1]))
  }

  /** The castling field: the letters of the rights held, in KQkq order, or "-" when none is. */
  function CastleText(r: Rights): string
  {
    if r == NoRights then "-"
    else (if r.wk then "K" else "") + (if r.wq then "Q" else "") + (if r.bk then "k" else "") + (if r.bq then "q" else "")
  }

  /** The four fields board_to_fen and toFen write for a position. */
  function FenOf(p: Position): string
  {
    BoardTextOf(p.ranks) + (" " + ((if p.flags.white then "w" else "b") + (" "
    + (CastleText(p.flags.rights) + (" " + ParseUtils.PosToStr(p.flags.ep))))))
  }

  /**
   * The text board_make can read without running off its data: at least
   * four space-separated fields, the first holding at least eight
   * "/"-separated ranks, each of which writes only inside its rank word.
   */
  predicate Readable(fen: string)
  {
    var fields := Tokens(fen, ' ');
    |fields| >= 4 && RanksReadable(Tokens(fields[0], '/'))
  }

  /** At least eight rank texts, the first eight of which write only inside their rank words. */
  predicate RanksReadable(texts: seq<string>)
  {
    |texts| >= 8 && forall i :: 0 <= i < 8 ==> RankFits(texts[i], 0)
  }

  /** The rank words of the placement field: rank index r from the (8 - r)-th rank text. */
  function ParseRanks(texts: seq<string>): Ranks
    requires RanksReadable(texts)
  {
    seq(8, r requires 0 <= r < 8 => ParseRank(texts[7 - r]))
  }

  /** The castling field: each right is held iff its letter occurs anywhere in the field. */
  function RightsOf(field: string): Rights
  {
    Rights('K' in field, 'Q' in field, 'k' in field, 'q' in field)
  }

  /** The en passant field: NOPOS when it holds a '-', else the square its first two characters name. */
  function EpOf(field: string): Pos
    requires field != []
  {
    if '-' in field then NOPOS else ParseUtils.PosFromStr(field)
  }

  /**
   * The position board_make reads: rank index r from the (8 - r)-th rank
   * text, white to move iff the side field is exactly "w", each castling
   * right iff its letter occurs, and the en passant square.
   */
  function ParseFen(fen: string): Position
    requires Readable(fen)
  {
    var fields := Tokens(fen, ' ');
    var texts := Tokens(fields[0], '/');
    var ep := fields[3];
    assert ep != [] by {
      TokensShape(fen, ' ');
      assert ep in fields;
    }
    Position(ParseRanks(texts), Flags(fields[1] == "w", RightsOf(fields[2]), EpOf(ep)))
  }


  // ----- reading back what is written -----

  /** A blank count is written as a digit, which names no piece and moves the file on by the count. */
  lemma DigitStep(n: int, offs: int)
    requires 1 <= n <= 8
    ensures PieceOfLetter(DigitChar(n)) == NOPC && NextOffs(DigitChar(n), offs) == offs + n
    ensures DigitChar(n) != '/' && DigitChar(n) != ' '
  {
    assert DigitChar(n) !in PieceLetters;
  }

  /** A piece is written as its letter, which reads back as the piece and moves the file on by one. */
  lemma LetterStep(pc: Piece, offs: int)
    requires pc != NOPC
    ensures ParseUtils.PieceToStr(pc) == [PieceLetters[pc]]
    ensures PieceOfLetter(PieceLetters[pc]) == pc && NextOffs(PieceLetters[pc], offs) == offs + 1
    ensures PieceLetters[pc] != '/' && PieceLetters[pc] != ' '
  {
    ParseUtils.PieceLetterRoundTrip(pc);
  }

  /** A rank text is never empty once a file or a pending blank remains, and holds no separator of the text. */
  lemma {:induction false} RankTextShape(files: seq<Piece>, b: int)
    requires 0 <= b && b + |files| <= 8
    ensures (files != [] || b > 0) ==> RankTextOf(files, b) != []
    ensures '/' !in RankTextOf(files, b) && ' ' !in RankTextOf(files, b)
  {
    if files == [] {
      if b > 0 {
        DigitStep(b, 0);
      }
    } else if files[0] == NOPC {
      RankTextShape(files[1..], b + 1);
    } else {
      RankTextShape(files[1..], 0);
      LetterStep(files[0], 0);
      if b > 0 {
        DigitStep(b, 0);
      }
    }
  }

  /** A character in front of a rank text: its piece is written at the file, and the rest is read from the next one. */
  lemma FillCons(c: char, t: string, cur: Rank, offs: int)
    requires 0 <= offs < 8 && RankFits(t, NextOffs(c, offs))
    ensures RankFits([c] + t, offs)
    ensures FillRank([c] + t, cur, offs) == FillRank(t, cur[offs := PieceOfLetter(c)], NextOffs(c, offs))
  {
    assert ([c] + t)[0] == c && ([c] + t)[1..] == t;
  }

  /** A rank word read up to file `lo`: it agrees with `r` before `lo` and is empty from there, and `r` is empty on lo..hi - 1. */
  ghost predicate ReadUpTo(cur: Rank, r: Rank, lo: int, hi: int)
  {
    0 <= lo <= hi <= 8
    && (forall k :: 0 <= k < lo ==> cur[k] == r[k])
    && (forall k :: lo <= k < 8 ==> cur[k] == NOPC)
    && (forall k :: lo <= k < hi ==> r[k] == NOPC)
  }

  /** An empty file of `r` joins the pending blanks. */
  lemma ReadUpToBlank(cur: Rank, r: Rank, lo: int, f: int)
    requires 0 <= lo <= f < 8 && r[f] == NOPC && ReadUpTo(cur, r, lo, f)
    ensures ReadUpTo(cur, r, lo, f + 1)
  {
  }

  /** Once the pending blanks are read, the word agrees with `r` up to file f. */
  lemma ReadUpToBlanks(cur: Rank, r: Rank, lo: int, f: int)
    requires 0 <= lo <= f <= 8 && ReadUpTo(cur, r, lo, f)
    ensures ReadUpTo(cur, r, f, f) && (lo < 8 ==> cur[lo := NOPC] == cur)
  {
  }

  /** Once the piece on file f is read too, the word agrees with `r` up to f + 1. */
  lemma ReadUpToLetter(cur: Rank, r: Rank, f: int)
    requires 0 <= f < 8 && ReadUpTo(cur, r, f, f)
    ensures ReadUpTo(cur[f := r[f]], r, f + 1, f + 1)
  {
  }

  /** A digit in front of a rank text: nothing is written but NOPC on an empty file, and the rest is read `b` files on. */
  lemma DigitThen(b: int, t: string, cur: Rank, offs: int)
    requires 1 <= b <= 8 && 0 <= offs < 8 && RankFits(t, offs + b) && cur[offs] == NOPC
    ensures RankFits(Blanks(b) + t, offs) && FillRank(Blanks(b) + t, cur, offs) == FillRank(t, cur, offs + b)
  {
    DigitStep(b, offs);
    FillCons(DigitChar(b), t, cur, offs);
    assert cur[offs := NOPC] == cur;
  }

  /** At the end of the rank, with the pending blanks read, the word is `r`. */
  lemma ReadUpToEnd(cur: Rank, r: Rank, lo: int)
    requires 0 <= lo <= 8 && ReadUpTo(cur, r, lo, 8)
    ensures cur == r && (lo < 8 ==> cur[lo := NOPC] == r)
  {
  }

  /** The text of no more files is the pending count. */
  lemma RankTextEnd(r: Rank, b: int)
    requires 0 <= b <= 8
    ensures RankTextOf(r[8..], b) == Blanks(b)
  {
    assert r[8..] == [];
  }

  /** The text of files f..7 of `r`: a blank joins the pending count, a piece writes the count and its letter. */
  lemma RankTextStep(r: Rank, f: int, b: int)
    requires 0 <= b <= f < 8
    ensures r[f] == NOPC ==> RankTextOf(r[f..], b) == RankTextOf(r[f + 1..], b + 1)
    ensures r[f] != NOPC ==>
              RankTextOf(r[f..], b) == Blanks(b) + ([PieceLetters[r[f]]] + RankTextOf(r[f + 1..], 0))
  {
    var files := r[f..];
    assert files != [] && files[0] == r[f] && files[1..] == r[f + 1..];
    if r[f] != NOPC {
      LetterStep(r[f], f);
      var rest := RankTextOf(files[1..], 0);
      assert RankTextOf(files, b) == Blanks(b) + ParseUtils.PieceToStr(files[0]) + rest;
      AppendAssoc(Blanks(b), [PieceLetters[r[f]]], rest);
    } else {
      assert RankTextOf(files, b) == RankTextOf(files[1..], b + 1);
    }
  }

  /** FillRankText past the last file: only the pending blanks are left to read. */
  lemma FillRankEnd(r: Rank, b: int, cur: Rank)
    requires 0 <= b <= 8 && ReadUpTo(cur, r, 8 - b, 8)
    ensures RankFits(RankTextOf(r[8..], b), 8 - b)
    ensures FillRank(RankTextOf(r[8..], b), cur, 8 - b) == r
  {
    RankTextEnd(r, b);
    ReadUpToEnd(cur, r, 8 - b);
    if b > 0 {
      DigitThen(b, [], cur, 8 - b);
      assert Blanks(b) + [] == Blanks(b);
    }
  }

  /**
   * Reading the text of files f..7 (with `b` blanks pending) from file
   * f - b into a rank word that agrees with `r` before that file and is
   * empty from it on gives back `r`.
   */
  lemma {:induction false} FillRankText(r: Rank, f: int, b: int, cur: Rank)
    requires 0 <= b <= f <= 8 && ReadUpTo(cur, r, f - b, f)
    ensures RankFits(RankTextOf(r[f..], b), f - b)
    ensures FillRank(RankTextOf(r[f..], b), cur, f - b) == r
    decreases 8 - f, 2
  {
    if f == 8 {
      FillRankEnd(r, b, cur);
    } else if r[f] == NOPC {
      FillRankBlank(r, f, b, cur);
    } else {
      RankTextStep(r, f, b);
      FillRankLetter(r, f, b, cur);
    }
  }

  /** FillRankText when file f is empty: it joins the pending blanks. */
  lemma {:induction false} FillRankBlank(r: Rank, f: int, b: int, cur: Rank)
    requires 0 <= b <= f < 8 && r[f] == NOPC && ReadUpTo(cur, r, f - b, f)
    ensures RankFits(RankTextOf(r[f..], b), f - b)
    ensures FillRank(RankTextOf(r[f..], b), cur, f - b) == r
    decreases 8 - f, 1
  {
    RankTextStep(r, f, b);
    ReadUpToBlank(cur, r, f - b, f);
    FillRankText(r, f + 1, b + 1, cur);
    assert (f + 1) - (b + 1) == f - b;
  }

  /** FillRankText when file f holds a piece: the pending blanks, then the letter and the rest. */
  lemma {:induction false} FillRankLetter(r: Rank, f: int, b: int, cur: Rank)
    requires 0 <= b <= f < 8 && r[f] != NOPC && ReadUpTo(cur, r, f - b, f)
    ensures RankFits(Blanks(b) + ([PieceLetters[r[f]]] + RankTextOf(r[f + 1..], 0)), f - b)
    ensures FillRank(Blanks(b) + ([PieceLetters[r[f]]] + RankTextOf(r[f + 1..], 0)), cur, f - b) == r
    decreases 8 - f, 1
  {
    var lr := [PieceLetters[r[f]]] + RankTextOf(r[f + 1..], 0);
    ReadUpToBlanks(cur, r, f - b, f);
    LetterThenRest(r, f, cur);
    if b > 0 {
      DigitThen(b, lr, cur, f - b);
    } else {
      assert Blanks(b) + lr == lr;
    }
  }

  /** The letter of the piece on file f, then the text of the files after it, read from file f. */
  lemma {:induction false} LetterThenRest(r: Rank, f: int, cur: Rank)
    requires 0 <= f < 8 && r[f] != NOPC && ReadUpTo(cur, r, f, f)
    ensures RankFits([PieceLetters[r[f]]] + RankTextOf(r[f + 1..], 0), f)
    ensures FillRank([PieceLetters[r[f]]] + RankTextOf(r[f + 1..], 0), cur, f) == r
    decreases 8 - f, 0
  {
    var rest := RankTextOf(r[f + 1..], 0);
    LetterStep(r[f], f);
    ReadUpToLetter(cur, r, f);
    FillRankText(r, f + 1, 0, cur[f := r[f]]);
    FillCons(PieceLetters[r[f]], rest, cur, f);
  }

  /** A rank's text reads back as the rank. */
  lemma RankRoundTrip(r: Rank)
    ensures RankFits(RankText(r), 0) && ParseRank(RankText(r)) == r
  {
    FillRankText(r, 0, 0, EmptyRank);
    assert r[0..] == r;
  }

  /** The texts of the ranks `rs`, the last one first. */
  function RankTexts(rs: seq<Rank>): (texts: seq<string>)
    ensures |texts| == |rs|
  {
    if rs == [] then [] else [RankText(rs[|rs| - 1])] + RankTexts(rs[..|rs| - 1])
  }

  /** Entry i of the rank texts is the text of the i-th rank from the end. */
  lemma {:induction false} RankTextsAt(rs: seq<Rank>, i: int)
    requires 0 <= i < |rs|
    ensures RankTexts(rs)[i] == RankText(rs[|rs| - 1 - i])
  {
    if i > 0 {
      RankTextsAt(rs[..|rs| - 1], i - 1);
    }
  }

  /** The placement text of some ranks is not empty and holds no space. */
  lemma {:induction false} BoardTextShape(rs: seq<Rank>)
    requires rs != []
    ensures BoardTextOf(rs) != [] && ' ' !in BoardTextOf(rs)
  {
    RankTextShape(rs[|rs| - 1], 0);
    if |rs| > 1 {
      BoardTextShape(rs[..|rs| - 1]);
    }
  }

  /** The placement text of some ranks splits on "/" into their rank texts, the last rank first. */
  lemma {:induction false} BoardTextTokens(rs: seq<Rank>)
    requires rs != []
    ensures Tokens(BoardTextOf(rs), '/') == RankTexts(rs)
  {
    var a := RankText(rs[|rs| - 1]);
    RankTextShape(rs[|rs| - 1], 0);
    if |rs| == 1 {
      assert BoardTextOf(rs) == a + [] by { assert BoardTextOf(rs[..0]) == []; }
      TokensCons(a, [], '/');
    } else {
      var below := BoardTextOf(rs[..|rs| - 1]);
      BoardTextTokens(rs[..|rs| - 1]);
      assert BoardTextOf(rs) == a + ("/" + below);
      TokensCons(a, "/" + below, '/');
      TokensSkip(below, '/');
    }
  }

  /** After a space, a field without spaces followed by the end or a space is the next token. */
  lemma FieldTokens(w: string, rest: string)
    requires w != [] && ' ' !in w && (rest == [] || rest[0] == ' ')
    ensures Tokens(" " + (w + rest), ' ') == [w] + Tokens(rest, ' ')
  {
    TokensSkip(w + rest, ' ');
    TokensCons(w, rest, ' ');
  }

  /** The side, castling and en passant fields, each after its space, split into three tokens. */
  lemma TailTokens(side: string, castle: string, ep: string)
    requires side != [] && ' ' !in side && castle != [] && ' ' !in castle && ep != [] && ' ' !in ep
    ensures Tokens(" " + (side + (" " + (castle + (" " + ep)))), ' ') == [side, castle, ep]
  {
    FieldTokens(ep, []);
    assert ep + [] == ep;
    FieldTokens(castle, " " + ep);
    FieldTokens(side, " " + (castle + (" " + ep)));
  }

  /** The castling and en passant fields are never empty and hold no space. */
  lemma FieldShapes(p: Position)
    ensures CastleText(p.flags.rights) != [] && ' ' !in CastleText(p.flags.rights)
    ensures ParseUtils.PosToStr(p.flags.ep) != [] && ' ' !in ParseUtils.PosToStr(p.flags.ep)
  {
  }

  /** board_to_fen writes four space-separated fields, none of them empty or holding a space. */
  lemma FenFields(p: Position)
    ensures Tokens(FenOf(p), ' ') ==
              [BoardTextOf(p.ranks), if p.flags.white then "w" else "b",
               CastleText(p.flags.rights), ParseUtils.PosToStr(p.flags.ep)]
  {
    var side := if p.flags.white then "w" else "b";
    var castle := CastleText(p.flags.rights);
    var ep := ParseUtils.PosToStr(p.flags.ep);
    var tail := " " + (side + (" " + (castle + (" " + ep))));
    BoardTextShape(p.ranks);
    FieldShapes(p);
    TailTokens(side, castle, ep);
    TokensCons(BoardTextOf(p.ranks), tail, ' ');
  }

  /** The rank texts of eight ranks read back as the ranks. */
  lemma RanksRoundTrip(rs: Ranks)
    ensures RanksReadable(RankTexts(rs))
    ensures ParseRanks(RankTexts(rs)) == rs
  {
    var texts := RankTexts(rs);
    forall i | 0 <= i < 8
      ensures RankFits(texts[i], 0) && ParseRank(texts[i]) == rs[7 - i]
    {
      RankTextsAt(rs, i);
      RankRoundTrip(rs[7 - i]);
    }
    forall r | 0 <= r < 8
      ensures ParseRanks(texts)[r] == rs[r]
    {
      ParseRanksAt(texts, r);
    }
  }

  /** The castling field read back gives the rights written. */
  lemma RightsRoundTrip(r: Rights)
    ensures RightsOf(CastleText(r)) == r
  {
  }

  /** The en passant field read back gives the square, or NOPOS, written. */
  lemma EpRoundTrip(ep: Pos)
    ensures ParseUtils.PosToStr(ep) != [] && EpOf(ParseUtils.PosToStr(ep)) == ep
  {
    ParseUtils.PosRoundTrip(ep);
    assert '-' in ParseUtils.PosToStr(ep) <==> ep == NOPOS;
  }

  /** Reading back the text board_to_fen writes for any position gives the position. */
  lemma FenRoundTrip(p: Position)
    ensures Readable(FenOf(p)) && ParseFen(FenOf(p)) == p
  {
    FenFields(p);
    BoardTextTokens(p.ranks);
    RanksRoundTrip(p.ranks);
    RightsRoundTrip(p.flags.rights);
    EpRoundTrip(p.flags.ep);
  }

  // ----- the loops of board_make and board_to_fen -----

  /**
   * The king square a rank text records, reading from file `offs` of rank
   * `rk`: the square of the last letter of `king`, or `found` when there is none.
   */
  function KingIn(text: string, king: Piece, offs: int, rk: int, found: Option<Pos>): Option<Pos>
    requires RankFits(text, offs) && 0 <= rk < 8
  {
    if text == [] then found
    else KingIn(text[1..], king, NextOffs(text[0], offs), rk,
                if PieceOfLetter(text[0]) == king then Some(Pos2(offs, rk)) else found)
  }

  /** A well-formed rank text: piece letters and digits 1..9 only, so the file only moves forward. */
  predicate Advancing(text: string)
  {
    forall i :: 0 <= i < |text| ==> PieceOfLetter(text[i]) != NOPC || '1' <= text[i] <= '9'
  }

  /** The king cache board_make leaves after the first n rank texts: the square of the last king met, if any. */
  function KingCache(texts: seq<string>, king: Piece, n: int): Option<Pos>
    requires RanksReadable(texts) && 0 <= n <= 8
  {
    if n == 0 then None
    else
      var k := KingIn(texts[n - 1], king, 0, 8 - n, None);
      if k.Some? then k else KingCache(texts, king, n - 1)
  }

  /** Once a king was met, one stays recorded. */
  lemma {:induction false} KingInKeeps(text: string, king: Piece, offs: int, rk: int, found: Option<Pos>)
    requires RankFits(text, offs) && 0 <= rk < 8 && found.Some?
    ensures KingIn(text, king, offs, rk, found).Some?
  {
    if text != [] {
      var next := if PieceOfLetter(text[0]) == king then Some(Pos2(offs, rk)) else found;
      KingInKeeps(text[1..], king, NextOffs(text[0], offs), rk, next);
    }
  }

  /**
   * On an advancing rank text the recorded king square still holds the
   * king once the whole text is read: no later character writes there.
   */
  lemma {:induction false} KingInHolds(text: string, king: Piece, offs: int, rk: int, cur: Rank, found: Option<Pos>)
    requires RankFits(text, offs) && Advancing(text) && 0 <= rk < 8
    requires found.Some? ==> found.value / 8 == rk && found.value % 8 < offs && cur[found.value % 8] == king
    ensures var k := KingIn(text, king, offs, rk, found);
            k.Some? ==> IsSquare(k.value) && k.value / 8 == rk && FillRank(text, cur, offs)[k.value % 8] == king
  {
    if text == [] {
    } else {
      var pc := PieceOfLetter(text[0]);
      var next := if pc == king then Some(Pos2(offs, rk)) else found;
      assert NextOffs(text[0], offs) > offs;
      assert Advancing(text[1..]) by {
        forall i | 0 <= i < |text[1..]|
          ensures PieceOfLetter(text[1..][i]) != NOPC || '1' <= text[1..][i] <= '9'
        {
          assert text[1..][i] == text[i + 1];
        }
      }
      KingInHolds(text[1..], king, NextOffs(text[0], offs), rk, cur[offs := pc], next);
    }
  }

  /** When no king is recorded, reading the text wrote no king: every king of the result was there before. */
  lemma {:induction false} KingInNone(text: string, king: Piece, offs: int, rk: int, cur: Rank)
    requires RankFits(text, offs) && 0 <= rk < 8 && KingIn(text, king, offs, rk, None).None?
    ensures forall k :: 0 <= k < 8 && FillRank(text, cur, offs)[k] == king ==> cur[k] == king
  {
    if text != [] {
      var pc := PieceOfLetter(text[0]);
      if pc == king {
        KingInKeeps(text[1..], king, NextOffs(text[0], offs), rk, Some(Pos2(offs, rk)));
        assert false;
      }
      KingInNone(text[1..], king, NextOffs(text[0], offs), rk, cur[offs := pc]);
    }
  }

  /** Rank index r of the ranks read is the (8 - r)-th rank text read. */
  lemma ParseRanksAt(texts: seq<string>, r: int)
    requires RanksReadable(texts) && 0 <= r < 8
    ensures RankFits(texts[7 - r], 0) && ParseRanks(texts)[r] == ParseRank(texts[7 - r])
  {
  }

  /** A king square recorded for a rank text holds that king once the text is read into rank rk. */
  lemma KingInRank(text: string, king: Piece, rk: int)
    requires RankFits(text, 0) && Advancing(text) && 0 <= rk < 8
    requires KingIn(text, king, 0, rk, None).Some?
    ensures var sq := KingIn(text, king, 0, rk, None).value;
            IsSquare(sq) && sq / 8 == rk && ParseRank(text)[sq % 8] == king
  {
    KingInHolds(text, king, 0, rk, EmptyRank, None);
  }

  /** A king square the cache recorded holds that king in the position read. */
  lemma {:induction false} KingCacheSome(texts: seq<string>, king: Piece, n: int)
    requires RanksReadable(texts) && 0 <= n <= 8
    requires forall i :: 0 <= i < 8 ==> Advancing(texts[i])
    requires KingCache(texts, king, n).Some?
    ensures var sq := KingCache(texts, king, n).value;
            IsSquare(sq) && SquareOf(ParseRanks(texts), sq) == king
  {
    var k := KingIn(texts[n - 1], king, 0, 8 - n, None);
    if k.Some? {
      KingInRank(texts[n - 1], king, 8 - n);
      ParseRanksAt(texts, 8 - n);
    } else {
      KingCacheSome(texts, king, n - 1);
    }
  }

  /** When the cache recorded no square, no square of the ranks read so far holds that king. */
  lemma {:induction false} KingCacheNone(texts: seq<string>, king: Piece, n: int)
    requires RanksReadable(texts) && 0 <= n <= 8 && king != NOPC
    requires KingCache(texts, king, n).None?
    ensures forall r, f :: 8 - n <= r < 8 && 0 <= f < 8 ==> ParseRanks(texts)[r][f] != king
  {
    if n > 0 {
      KingCacheNone(texts, king, n - 1);
      var rank := ParseRanks(texts)[8 - n];
      assert rank == ParseRank(texts[n - 1]);
      KingInNone(texts[n - 1], king, 0, 8 - n, EmptyRank);
      forall r, f | 8 - n <= r < 8 && 0 <= f < 8
        ensures ParseRanks(texts)[r][f] != king
      {
        if r == 8 - n {
          assert rank[f] != king;
        }
      }
    }
  }

  /**
   * The inner loop of board_make for one rank: starting from an all-NOPC
   * word, each character writes its piece at the current file and moves
   * the file on; the squares of the kings met are recorded.
   */
  method ReadRank(text: string, rk: int) returns (rank: Rank, wking: Option<Pos>, bking: Option<Pos>)
    requires RankFits(text, 0) && 0 <= rk < 8
    ensures rank == ParseRank(text)
    ensures wking == KingIn(text, WKING, 0, rk, None) && bking == KingIn(text, BKING, 0, rk, None)
  {
    rank := EmptyRank;
    wking, bking := None, None;
    var offs := 0;
    var i := 0;
    while i < |text|
      invariant 0 <= i <= |text|
      invariant RankFits(text[i..], offs)
      invariant FillRank(text[i..], rank, offs) == ParseRank(text)
      invariant KingIn(text[i..], WKING, offs, rk, wking) == KingIn(text, WKING, 0, rk, None)
      invariant KingIn(text[i..], BKING, offs, rk, bking) == KingIn(text, BKING, 0, rk, None)
    {
      assert text[i..][0] == text[i] && text[i..][1..] == text[i + 1..];
      var pc := ParseUtils.PieceFromChar(text[i]);
      if pc == WKING {
        wking := Some(Pos2(offs, rk));
      } else if pc == BKING {
        bking := Some(Pos2(offs, rk));
      }
      rank := rank[offs := pc];
      offs := offs + if pc == NOPC then text[i] as int - '0' as int else 1;
      i := i + 1;
    }
  }

  /** The inner loop of board_to_fen for one rank: letters, and each run of empty files flushed as its count. */
  method WriteRank(r: Rank) returns (s: string)
    ensures s == RankText(r)
  {
    s := [];
    var blanks := 0;
    var offs := 0;
    while offs < 8
      invariant 0 <= blanks <= offs <= 8
      invariant s + RankTextOf(r[offs..], blanks) == RankText(r)
    {
      var pc := r[offs];
      RankTextStep(r, offs, blanks);
      if pc == NOPC {
        blanks := blanks + 1;
      } else {
        ghost var rest := RankTextOf(r[offs + 1..], 0);
        ghost var flushed := s + Blanks(blanks);
        var letter := ParseUtils.PieceToStr(pc);
        assert letter == [PieceLetters[pc]];
        AppendAssoc(s, Blanks(blanks), letter + rest);
        AppendAssoc(flushed, letter, rest);
        if blanks > 0 {
          s := s + [DigitChar(blanks)];
          blanks := 0;
        }
        assert s == flushed;
        s := s + letter;
      }
      offs := offs + 1;
    }
    RankTextEnd(r, blanks);
    if blanks > 0 {
      s := s + [DigitChar(blanks)];
    } else {
      assert s + Blanks(blanks) == s;
    }
  }

  /** Five appends in a row, regrouped to the right. */
  lemma AppendsRight(a: string, b: string, c: string, d: string, e: string, f: string, g: string)
    ensures a + b + c + d + e + f + g == a + (b + (c + (d + (e + (f + g)))))
  {
  }

  /** The placement text of the lowest rk ranks: the top one's text, a "/" when more follow, then the rest. */
  lemma BoardTextStep(ranks: Ranks, rk: int)
    requires 1 <= rk <= 8
    ensures BoardTextOf(ranks[..rk]) ==
              (RankText(ranks[rk - 1]) + (if rk > 1 then "/" else "")) + BoardTextOf(ranks[..rk - 1])
  {
    var rs := ranks[..rk];
    assert rs[|rs| - 1] == ranks[rk - 1] && rs[..|rs| - 1] == ranks[..rk - 1];
  }

  /** Appending is associative. */
  lemma AppendAssoc(a: string, b: string, c: string)
    ensures (a + b) + c == a + (b + c)
  {
  }

  /** The rank loop of board_to_fen: the ranks from 8 down to 1, separated by "/". */
  method WritePlacement(ranks: Ranks) returns (s: string)
    ensures s == BoardTextOf(ranks)
  {
    s := [];
    var rk := 8;
    assert ranks[..8] == ranks;
    while rk > 0
      invariant 0 <= rk <= 8
      invariant s + BoardTextOf(ranks[..rk]) == BoardTextOf(ranks)
    {
      ghost var before := s;
      var text := WriteRank(ranks[rk - 1]);
      ghost var sep := if rk > 1 then "/" else "";
      BoardTextStep(ranks, rk);
      s := s + text;
      if rk > 1 {
        AppendAssoc(before, text, "/");
        s := s + "/";
      }
      assert s == before + (text + sep);
      AppendAssoc(before, text + sep, BoardTextOf(ranks[..rk - 1]));
      rk := rk - 1;
    }
    assert ranks[..0] == [];
  }

  /** The castling part of board_to_fen: the letters of the rights held in KQkq order, or "-". */
  method WriteCastle(r: Rights) returns (s: string)
    ensures s == CastleText(r)
  {
    if r != NoRights {
      s := [];
      if r.wk {
        s := s + "K";
      }
      if r.wq {
        s := s + "Q";
      }
      if r.bk {
        s := s + "k";
      }
      if r.bq {
        s := s + "q";
      }
    } else {
      s := "-";
    }
  }

  /**
   * board_to_fen: the placement, then the side, the castling field and
   * the en passant square, separated by spaces.
   */
  method WriteFen(p: Position) returns (s: string)
    ensures s == FenOf(p)
  {
    s := WritePlacement(p.ranks);
    ghost var board := s;
    var side := if p.flags.white then "w" else "b";
    var castle := WriteCastle(p.flags.rights);
    var ep := ParseUtils.PosToStr(p.flags.ep);
    s := s + " " + side + " " + castle + " " + ep;
    AppendsRight(board, " ", side, " ", castle, " ", ep);
  }
}
