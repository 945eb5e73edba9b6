/**
 * The piece placement after a move, common to board_apply_move
 * (src/board.c) and Board::applyMove (chess/src/board.cpp): the victim
 * of a capture is removed, the mover leaves its square and `topc` lands
 * on the destination, and a castle also carries the rook from its corner
 * to the square the king passed. Both also set the en passant square
 * the same way. Castling rights are where the two differ; each board
 * module states its own.
 */
module Placement {
  import opened Defs
  import Moves
  import Attack

  /** The squares a move writes are on the board: origin, destination and, for a capture, the victim's. */
  predicate Applicable(m: Move)
  {
    IsSquare(m.frompos) && IsSquare(m.topos) && (Moves.IsCap(m) ==> IsSquare(m.killpos))
  }

  /** Step 1: a capture empties the victim's square. */
  function Killed(ranks: Ranks, m: Move): Ranks
    requires Applicable(m)
  {
    if Moves.IsCap(m) then SetSquare(ranks, m.killpos, NOPC) else ranks
  }

  /** Step 2 (MOVEPC): the origin is emptied, then `topc` is written on the destination. */
  function Moved(ranks: Ranks, m: Move): Ranks
    requires Applicable(m)
  {
    SetSquare(SetSquare(ranks, m.frompos, NOPC), m.topos, m.topc)
  }

  /** The corner a castling rook leaves and the square it lands on. */
  function RookFrom(c: Castle): int
  {
    match c
    case WKCastle => 7
    case WQCastle => 0
    case BKCastle => 63
    case BQCastle => 56
    case NoCastle => 64
  }

  function RookTo(c: Castle): int
  {
    match c
    case WKCastle => 5
    case WQCastle => 3
    case BKCastle => 61
    case BQCastle => 59
    case NoCastle => 64
  }

  /** Step 3 (MOVEPC2): for a castle, the rook of the king's colour moves h to f or a to d. */
  function RookRelocated(ranks: Ranks, c: Castle): Ranks
  {
    match c
    case NoCastle => ranks
    case WKCastle => SetSquare(SetSquare(ranks, 7, NOPC), 5, WROOK)
    case WQCastle => SetSquare(SetSquare(ranks, 0, NOPC), 3, WROOK)
    case BKCastle => SetSquare(SetSquare(ranks, 63, NOPC), 61, BROOK)
    case BQCastle => SetSquare(SetSquare(ranks, 56, NOPC), 59, BROOK)
  }

  /** The placement after the three steps, castles classified by move_is_castle. */
  function Placed(ranks: Ranks, m: Move): Ranks
    requires Applicable(m)
  {
    RookRelocated(Moved(Killed(ranks, m), m), Moves.IsCastle(m))
  }

  /** The en passant square after a move: the square passed over by a pawn's double step, NOPOS after any other move. */
  function EpAfter(m: Move): Pos
    requires Applicable(m)
  {
    if (m.frompc == WPAWN || m.frompc == BPAWN) && Attack.Abs(m.topos - m.frompos) == 16 then (m.frompos + m.topos) / 2
    else NOPOS
  }

  /**
   * After a move the destination holds `topc`, the origin (when it is
   * not the destination) is empty, a capture's victim square other than
   * the destination is empty, a castle's rook stands on f or d and its
   * corner is empty, and every other square keeps its piece.
   */
  lemma PlacedSquares(ranks: Ranks, m: Move)
    requires Applicable(m)
    ensures SquareOf(Placed(ranks, m), m.topos) == m.topc
    ensures m.frompos != m.topos ==> SquareOf(Placed(ranks, m), m.frompos) == NOPC
    ensures Moves.IsCap(m) && m.killpos != m.topos && Moves.IsCastle(m) == NoCastle ==>
              SquareOf(Placed(ranks, m), m.killpos) == NOPC
    ensures Moves.IsCastle(m) != NoCastle ==>
              SquareOf(Placed(ranks, m), RookFrom(Moves.IsCastle(m))) == NOPC &&
              SquareOf(Placed(ranks, m), RookTo(Moves.IsCastle(m))) == Colored(WROOK, IsWhitePiece(m.frompc))
    ensures forall sq :: (IsSquare(sq) && sq != m.frompos && sq != m.topos && !(Moves.IsCap(m) && sq == m.killpos)
                          && sq != RookFrom(Moves.IsCastle(m)) && sq != RookTo(Moves.IsCastle(m))) ==>
              SquareOf(Placed(ranks, m), sq) == SquareOf(ranks, sq)
  {
  }

  /** The en passant square is set only by a pawn's double step, and is then the square it passed over. */
  lemma EpAfterIsPassedSquare(m: Move)
    requires Applicable(m)
    ensures EpAfter(m) != NOPOS <==> (m.frompc == WPAWN || m.frompc == BPAWN) && (m.topos == m.frompos + 16 || m.frompos == m.topos + 16)
    ensures EpAfter(m) != NOPOS ==>
              IsSquare(EpAfter(m)) && (EpAfter(m) == m.frompos + 8 || EpAfter(m) == m.frompos - 8)
  {
  }
}
