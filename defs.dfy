/**
 * Shared vocabulary of the chess library: piece codes, position bytes,
 * the six-field move record and the value of a board (eight rank words
 * plus the flags word).
 */
module Defs {

  /** A piece code: white P N B R Q K are 0..5, black p n b r q k are 6..11, 12 is "no piece". */
  type Piece = p: int | 0 <= p <= 12

  const WPAWN: Piece := 0
  const WKNIGHT: Piece := 1
  const WBISHOP: Piece := 2
  const WROOK: Piece := 3
  const WQUEEN: Piece := 4
  const WKING: Piece := 5
  const BPAWN: Piece := 6
  const BKNIGHT: Piece := 7
  const BBISHOP: Piece := 8
  const BROOK: Piece := 9
  const BQUEEN: Piece := 10
  const BKING: Piece := 11
  const NOPC: Piece := 12

  predicate IsWhitePiece(p: Piece) { p <= WKING }
  predicate IsBlackPiece(p: Piece) { BPAWN <= p <= BKING }

  /** The piece of kind `kind` (a white code 0..5) in the given colour. */
  function Colored(kind: Piece, white: bool): Piece
    requires kind <= WKING
  {
    if white then kind else kind + 6
  }

  /** The letter of every piece code 0..11, in code order. */
  const PieceLetters: string := "PNBRQKpnbrqk"

  /** The piece whose letter is `c`, or NOPC when no piece has that letter. */
  function PieceOfLetter(c: char): (p: Piece)
    ensures p == NOPC <==> c !in PieceLetters
    ensures p != NOPC ==> PieceLetters[p] == c
  {
    match c
    case 'P' => WPAWN
    case 'N' => WKNIGHT
    case 'B' => WBISHOP
    case 'R' => WROOK
    case 'Q' => WQUEEN
    case 'K' => WKING
    case 'p' => BPAWN
    case 'n' => BKNIGHT
    case 'b' => BBISHOP
    case 'r' => BROOK
    case 'q' => BQUEEN
    case 'k' => BKING
    case _ => NOPC
  }

  /**
   * A position byte (pos_t): a square rank * 8 + file, file a being 0,
   * or NOPOS. The source keeps positions in eight bits.
   */
  type Pos = p: int | 0 <= p < 256

  /** "No position"; any byte outside 0..63 would do. */
  const NOPOS: Pos := 64

  predicate IsSquare(p: int) { 0 <= p < 64 }

  /** ISPOS2: the rank and file are on the board. */
  predicate OnBoard(rk: int, offs: int) { 0 <= rk < 8 && 0 <= offs < 8 }

  /** POS2(offs, rk): the square at a file offset and a rank index. */
  function Pos2(offs: int, rk: int): (p: Pos)
    requires OnBoard(rk, offs)
    ensures IsSquare(p) && p / 8 == rk && p % 8 == offs
  {
    rk * 8 + offs
  }

  /** The six fields of a move, in the order of move_make. */
  datatype Move = Move(frompos: Pos, topos: Pos, killpos: Pos, frompc: Piece, topc: Piece, killpc: Piece)

  /** The four castling kinds (WKCASTLE, WQCASTLE, BKCASTLE, BQCASTLE) and "no castle" (0). */
  datatype Castle = NoCastle | WKCastle | WQCastle | BKCastle | BQCastle

  /** One rank word: the pieces on files a..h. */
  type Rank = r: seq<Piece> | |r| == 8 witness [12, 12, 12, 12, 12, 12, 12, 12]

  /** The rank word 0xcccccccc: every file empty. */
  const EmptyRank: Rank := [NOPC, NOPC, NOPC, NOPC, NOPC, NOPC, NOPC, NOPC]

  /** The eight rank words, rank 1 first. */
  type Ranks = s: seq<Rank> | |s| == 8
    witness [EmptyRank, EmptyRank, EmptyRank, EmptyRank, EmptyRank, EmptyRank, EmptyRank, EmptyRank]

  /** The four castling bits of the flags word. */
  datatype Rights = Rights(wk: bool, wq: bool, bk: bool, bq: bool)

  const NoRights := Rights(false, false, false, false)

  /** The flags word: side to move, castling bits and en passant square. */
  datatype Flags = Flags(white: bool, rights: Rights, ep: Pos)

  /** The value of a board: its ranks and its flags. */
  datatype Position = Position(ranks: Ranks, flags: Flags)

  /** The piece at a rank index and file offset. */
  function At(p: Position, rk: int, offs: int): Piece
    requires OnBoard(rk, offs)
  {
    p.ranks[rk][offs]
  }

  predicate EmptyAt(p: Position, rk: int, offs: int)
    requires OnBoard(rk, offs)
  {
    At(p, rk, offs) == NOPC
  }

  /** The piece a rank sequence holds on a square 0..63. */
  function SquareOf(ranks: Ranks, sq: int): Piece
    requires IsSquare(sq)
  {
    ranks[sq / 8][sq % 8]
  }

  /** The piece on a square 0..63. */
  function PieceOn(p: Position, sq: int): Piece
    requires IsSquare(sq)
  {
    SquareOf(p.ranks, sq)
  }

  /** The ranks with square `sq` set to `pc` (ZEROPOS then SETPOS on its rank word); no other square changes. */
  function SetSquare(ranks: Ranks, sq: int, pc: Piece): (r: Ranks)
    requires IsSquare(sq)
    ensures forall s :: IsSquare(s) ==> SquareOf(r, s) == if s == sq then pc else SquareOf(ranks, s)
    ensures forall k :: 0 <= k < 8 && k != sq / 8 ==> r[k] == ranks[k]
    ensures forall f :: 0 <= f < 8 && f != sq % 8 ==> r[sq / 8][f] == ranks[sq / 8][f]
    ensures r[sq / 8][sq % 8] == pc
  {
    ranks[sq / 8 := ranks[sq / 8][sq % 8 := pc]]
  }

  /** An optional value: None where the source fails or exits. */
  datatype Option<T> = None | Some(value: T)

  /** A C string holds no NUL: its end is the terminator. */
  predicate CString(s: string) { '\0' !in s }

  /** The character at index i of a C string; index |s| is the terminating NUL. */
  function CharAt(s: string, i: nat): char
    requires i <= |s|
  {
    if i < |s| then s[i] else '\0'
  }
}
