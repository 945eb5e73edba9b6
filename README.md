# A verified model of chesslib's rules core

chesslib is a chess rules engine kept in several generations: a C library
(`src/`), a C++ library with an older C copy beside it (`chess/src/`) and
a C++ move class for a game front end (`game/`). This project models, in
Dafny, the part of it that decides what a position is and which moves are
legal:

- **positions** (`src/board.c`, `chess/src/board.cpp`): eight rank words
  of piece codes, the side to move, four castling rights and an en passant
  square; the C board also caches both king squares. Positions are read
  from and written to the first four fields of Forsyth–Edwards Notation
  (section 16.1 of the PGN standard), and a move is applied in place, step
  by step: capture, move, castling rook, castling rights, en passant
  square, side to move, king cache;
- **move generation and attack detection** (`src/movegen.c`,
  `chess/src/movegen.cpp`): the six pseudo-legal generators appending to
  the move list, the square-attacked test with its distance-1 "blocks"
  shortcut, and the legality filter that applies each candidate to a copy
  and drops it when the mover's king is then attacked;
- **moves** (`src/move.c`, `chess/src/move.c`, `chess/src/move.cpp`,
  `game/move.cpp`): the six-field record, its classification (capture, en
  passant, promotion, castle), the three orderings and the text forms,
  including the verbose text `game/move.cpp` reads;
- **square and piece names** (`src/parseutils.c`, `chess/src/parseutils.c`,
  `chess/src/parseutils.cpp`);
- **the growable list** (`src/arraylist.c`, `chess/src/arraylist.c`) that
  carries the generated moves.

Encoding. White pawn, knight, bishop, rook, queen and king are the piece
codes 0..5, black 6..11, and the empty square `NOPC` is 12. A square is
`rank * 8 + file` with file a = 0, kept in a byte (`Pos`), and `NOPOS` is
64. A rank word is a sequence of eight piece codes (file a first); the
flags word is the record `Flags(white, Rights(wk, wq, bk, bq), ep)`.

Shape of the model. The generator and attack code of `src/movegen.c` and
`chess/src/movegen.cpp` are the same algorithm and differ only in their
containers, so they are modelled once, in `MoveGen` and `Hit`,
as methods that append to an `ArrayList.AList` (which stands for the C++
`vector` too) and are proved equal to specification functions
(`MoveGen.Candidates`, `Attack.Attacked`). The C filter is the in-place
swap compaction of `CLegal.CompactSafe`; the C++ filter (`remove_if` and
`erase`) is `ChessBoard.Board.KeepSafe`; both are proved to keep exactly
the safe candidates in their original order. The two board classes are
`CBoard.Board` and `ChessBoard.Board`, with `array<Rank>` fields updated in
place; they keep their own castling-right rules, and
`ChessBoard.LegalMovesAsC` shows that the legal move lists agree all the
same. Where the generations differ (castle classification, ordering,
castling rights) each is modelled as written and the differences are
stated as lemmas.

Modules: `Defs` (codes, squares, positions), `ParseUtils`,
`ChessParseUtils`, `Bytes`, `ChessParseUtilsC`, `Moves`, `ChessMove`,
`ChessMoveC`, `GameMove`, `ArrayList`, `Attack` (the naive attack
definition), `Hit`, `MoveGen`, `MoveProps`, `MoveRules`, `Placement`,
`Fen`, `CBoard`, `CLegal`, `ChessBoard`.

The classification predicates `Moves.IsCap`, `Moves.IsEp` and
`Moves.IsPromo` are `move_is_cap`, `move_is_ep` and `move_is_promo`
(src/move.c:69-79, chess/src/move.c:50-60) and `isCapture`,
`isEnPassant`, `isPromotion` (chess/src/move.cpp:34-44,
game/move.cpp:67-77). `move_make`, `move_cpy` and the copy constructors
and assignments of `Move` are the datatype constructor `Defs.Move` and
value copying.

## Model

| member | source | states |
|---|---|---|
| Defs.PieceOfLetter | src/parseutils.c:7 | a character names a piece iff it is one of "PNBRQKpnbrqk", and then the piece's letter is that character |
| Defs.Pos2 | src/parseutils.c:26-27 | the square of rank index rk and file offs is on the board, with rank rk = square / 8 and file offs = square % 8 |
| Defs.SetSquare | src/board.c:91-92 | writing a piece on one square sets that square and leaves every other square and every other rank unchanged |
| ParseUtils.PosFromStr | src/parseutils.c:9-14 | a name starting with '-' gives NOPOS; a square name "a1".."h8" gives rank * 8 + file |
| ParseUtils.PosToStr | src/parseutils.c:17-30 | NOPOS gives "-"; any other byte gives two characters, and a square gives a square name |
| ParseUtils.PosRoundTrip | src/parseutils.c:9-30 | reading back the name of any position byte, squares and NOPOS included, gives the byte |
| ParseUtils.PosFromStrPrefix | src/parseutils.c:9-14 | pos_from_str looks at the first two characters only |
| ParseUtils.NameRoundTrip | src/parseutils.c:9-30 | naming the square read from a square name, or from "-", gives the name back |
| ParseUtils.PieceFromChar | src/parseutils.c:32-40 | the loop returns the index of the letter in "PNBRQKpnbrqk", or NOPC when no entry matches |
| ParseUtils.PieceToStr | src/parseutils.c:42-44 | one character: the piece's letter for codes 0..11, "-" for NOPC |
| ParseUtils.PieceLetterRoundTrip | src/parseutils.c:32-44 | reading back the letter of a piece code 0..11 gives the code |
| ChessParseUtils.PosToStr | chess/src/parseutils.cpp:12-15 | the bit-mask form (pos & 7, pos >> 3) names every position byte exactly as pos_to_str does |
| ChessParseUtils.ByteFields | chess/src/parseutils.cpp:14 | on a byte, the low three bits are the remainder by 8 and the bits above them the quotient |
| ChessParseUtils.PieceFromChar | chess/src/parseutils.cpp:17-19 | the map lookup gives the piece of a letter and NOPC for any other character |
| ChessParseUtils.PieceToChar | chess/src/parseutils.cpp:21-23 | the map lookup gives the piece's letter, '-' for NOPC |
| ChessParseUtils.PieceCharRoundTrip | chess/src/parseutils.cpp:17-23 | pieceFromChar(pieceToChar(p)) == p for every piece code 0..11 |
| Bytes.RoundTrip | chess/src/parseutils.cpp:14 | a value 0..255 survives the conversion to a byte and back |
| Bytes.ByteOf | chess/src/parseutils.cpp:14 | every value 0..255 is the value of some byte |
| Bytes.SameByte | chess/src/parseutils.cpp:14 | converting the value of a byte back gives that byte |
| Bytes.LowBits | chess/src/parseutils.cpp:14 | b & 7 is b % 8 on a byte |
| Bytes.HighBits | chess/src/parseutils.cpp:14 | b >> 3 is b / 8 on a byte |
| ChessParseUtilsC.PieceTable.constructor | chess/src/parseutils.c:7 | the global table starts out null |
| ChessParseUtilsC.PieceTable.Init | chess/src/parseutils.c:10-31 | the first call makes the list and fills it with the twelve letters in code order; later calls change nothing |
| ChessParseUtilsC.PieceTable.PieceFromChar | chess/src/parseutils.c:56-60 | after the lazy init, the index alst_index_of finds is the letter's piece, and "not found" gives NOPC |
| ChessParseUtilsC.PieceTable.PieceToStr | chess/src/parseutils.c:63-69 | after the lazy init, the list's letter for codes 0..11 and "-" otherwise, the same text as piece_to_str of src/parseutils.c |
| Moves.IsCastle | src/move.c:81-99 | each castle kind is returned iff that colour's king moves e1→g1, e1→c1, e8→g8 or e8→c8; every other move is not a castle |
| Moves.Cmp | src/move.c:51-67 | move_cmp is 0 exactly on equal moves |
| Moves.FirstDifference | src/move.c:51-67 | two different moves have a first field, in comparison order, where they differ |
| Moves.FirstDifferenceUnique | src/move.c:51-67 | the first differing field is unique |
| Moves.LexBeforeFirstDifference | src/move.c:51-67 | a sorts before b iff at their first differing field a's value is smaller |
| Moves.CmpIsLexicographic | src/move.c:51-67 | move_cmp is negative iff a sorts before b and positive iff b sorts before a, so its sign is antisymmetric |
| Moves.LexBeforeIsStrictTotalOrder | src/move.c:51-67 | the field order is irreflexive, transitive and total on distinct moves |
| Moves.MoveStr | src/move.c:101-151 | castles print "0-0" (kingside) and "0-0-0" (queenside) |
| Moves.MoveStrReadsBack | src/move.c:101-151 | for a move that is not a castle, the text is from-square, "x" iff capture, to-square, "e.p." iff en passant, promotion letter iff promotion: its length counts those parts, both squares read back, "e.p." stands right after the destination of an en passant move, and a promotion ends in the letter of the new piece |
| ChessMove.Less | chess/src/move.cpp:66-82 | operator< holds iff the move sorts first in the field order of move_cmp |
| ChessMove.LessIsStrictTotalOrder | chess/src/move.cpp:66-82 | operator< is irreflexive, asymmetric, transitive and total on distinct moves |
| ChessMove.AlgNot | chess/src/move.cpp:84-106 | algNot gives the same text as move_str of src/move.c |
| ChessMoveC.Cmp | chess/src/move.c:32-48 | move_cmp is 0 or 1, and 1 iff a sorts before b, so 0 covers both "equal" and "after" |
| ChessMoveC.CmpBothWays | chess/src/move.c:32-48 | both directions answer 0 iff the moves are equal, and never both 1 |
| ChessMoveC.CastleStr | chess/src/move.c:82-90 | the castle branch of move_str gives the text of src/move.c: three characters iff the king goes to the g file |
| ChessMoveC.MoveStrAsWritten | chess/src/move.c:82-101 | castles and captures print as in src/move.c |
| ChessMoveC.QuietMoveWrittenAsCapture | chess/src/move.c:95 | every quiet move between squares gets an "x" that the text of src/move.c does not have |
| GameMove.Parse | game/move.cpp:14-53 | the piece letter and origin come from characters 0 and 1-2; with an "x", lengths 7, 8 and 11 (holding "e.p.") read the victim at 4 and the destination at 5-6, any other length fails (None); without "x" the move is quiet with no victim |
| GameMove.Verbose | game/move.cpp:14-53 | the verbose text of a move is a C string of 5 to 11 characters |
| GameMove.ParseVerbose | game/move.cpp:14-53 | reading the verbose text of any move it can carry gives the move back |
| GameMove.ParseVerboseQuiet | game/move.cpp:45-52 | the round trip for quiet moves and their promotions |
| GameMove.ParseVerboseCapture | game/move.cpp:22-33 | the round trip for captures on the destination and promotion captures |
| GameMove.ParseVerboseEnPassant | game/move.cpp:34-40 | the round trip for en passant captures |
| GameMove.ParseQuietText | game/move.cpp:45-52 | "<piece><from><to>[<promotion>]" reads as the quiet move with those fields, topc from character 5 iff the text is six long |
| GameMove.ParseCaptureText | game/move.cpp:21-33 | "<piece><from>x<victim><to>[<promotion>]" reads as a capture on the destination |
| GameMove.ParseEnPassantText | game/move.cpp:34-40 | "<piece><from>x<victim><to>e.p." takes on the square one rank up from rank index 2, else one rank down |
| GameMove.PieceCharNotNul | game/move.cpp:114 | no piece letter is the terminating NUL |
| GameMove.SquareNameNotNul | game/move.cpp:110-112 | a square name is two non-NUL characters |
| GameMove.NoMarkInPieces | game/move.cpp:16-18 | no piece letter is "x" or NUL, and each reads back to its piece |
| GameMove.CastleType | game/move.cpp:79-89 | a castle iff a king lands on g1, c1, g8 or c8, wherever it started |
| GameMove.CastleTypeVersusOrigin | game/move.cpp:79-89 | castleType agrees with move_is_castle on every castle and on every king move from e1/e8, but counts the king move b8→c8 as a queenside castle |
| GameMove.LessAsWritten | game/move.cpp:91-96 | the or of field comparisons never orders equal moves, and orders every pair the field order does when the victims agree |
| GameMove.LessAsWrittenNotAsymmetric | game/move.cpp:91-96 | the pawn move e4-e5 and the knight move b1-c3 are each "less" than the other |
| GameMove.Print | game/move.cpp:98-116 | operator<< prints the text of move_str whenever castleType agrees with move_is_castle, and a castle text whenever castleType sees a castle |
| ArrayList.AList.Make | src/arraylist.c:7-21 | an empty list whose capacity is max(cap, 10), with a buffer of that many slots |
| ArrayList.AList.MakeValue | chess/src/arraylist.c:6-19 | an empty list of capacity cap, 10 when 0 is asked for, buffer length equal to the capacity |
| ArrayList.AList.Put | src/arraylist.c:37-43 | an index inside the contents replaces that one element and nothing else; any other index is refused and changes nothing |
| ArrayList.AList.Get | src/arraylist.c:45-51 | an index inside the contents gives that element; any other index is refused |
| ArrayList.AList.Append | src/arraylist.c:53-66 | the contents gain the value at the end; with room the buffer stays, when full the capacity grows tenfold into a fresh buffer holding the old contents |
| ArrayList.AList.IndexOf | chess/src/arraylist.c:56-63 | the first index holding the value, or (size_t) -1 iff the value is absent; the list is not changed |
| ArrayList.IndexCheckAgreesWhenNonEmpty | src/arraylist.c:38 | on a non-empty list, the written bounds check accepts exactly the indices inside the contents |
| ArrayList.IndexCheckAcceptsAnyIndexWhenEmpty | src/arraylist.c:38 | on an empty list, len - 1 wraps and the check accepts every index |
| ArrayList.MakeAsWritten | src/arraylist.c:14-15 | as written, the recorded capacity is exactly the larger of the request and 10, but the buffer has the requested number of slots |
| ArrayList.MakeAsWrittenUnderAllocates | src/arraylist.c:14-15 | for cap < 10 the buffer is shorter than the recorded capacity |
| Attack.DirIndex | src/movegen.c:90-93 | every one of the eight rank/file steps is one of the direction indices |
| Attack.FirstOccupied | src/movegen.c:548-559 | the first occupied square along a direction is on the board, or there is none |
| Attack.FirstOccupiedAfterEmpty | src/movegen.c:548-559 | every square before the first occupied one is on the board and empty |
| Attack.FirstOccupiedIs | src/movegen.c:548-559 | a square after empty ones, and occupied, is the first occupied one |
| Attack.AttackedIffByDirections | src/movegen.c:195-216 | a square is attacked by a colour iff a knight jump, a neighbour in one of the eight directions, or a slider beyond it attacks it |
| Attack.KnightIndex | src/movegen.c:89 | each knight jump is an entry of the knight table |
| Attack.KnightJumpIsInTable | src/movegen.c:525-537 | a knight of the colour a jump away attacks through the table |
| Attack.NeighbourDirection | src/movegen.c:501-523 | an attacker next to the square is seen in the direction towards it |
| Attack.SliderDirection | src/movegen.c:539-589 | a slider attacking from afar is the first occupant of one direction |
| Attack.ClearRayFirst | src/movegen.c:548-559 | with the squares up to n empty and n occupied, n is the first occupied one |
| Attack.SliderKinds | src/movegen.c:551-577 | bishops and queens slide on diagonals, rooks and queens on lines |
| Attack.LineAttacks | src/movegen.c:539-589 | a slider on a clear diagonal or line attacks along it |
| Attack.SliderOnLine | src/movegen.c:539-589 | an attacking slider stands on the square's diagonal or line with the squares between empty |
| Attack.LineDirection | src/movegen.c:90-92 | two squares on a line or diagonal are joined by one direction and a distance 1..7 |
| Attack.LineGeometry | src/movegen.c:90-92 | the distance along a line or diagonal is the larger of the rank and file distances |
| Attack.FirstOccupiedClear | src/movegen.c:548-559 | the squares before the first occupant are clear |
| Attack.RayGeometry | src/movegen.c:90-92 | a square reached along a direction lies on that line or diagonal at that distance |
| Attack.DiagonalsStepBoth | src/movegen.c:90-92 | the diagonal directions change both rank and file |
| Attack.RayIsAttacker | src/movegen.c:539-589 | the first occupant of a direction that slides that way attacks the square |
| Attack.NeighbourIsAttacker | src/movegen.c:501-523 | a neighbour of the right kind attacks the square |
| Hit.LookingFor4 | src/movegen.c:25-35 | found iff the square is on the board and holds one of the four pieces; otherwise the blocks bit is set iff the square is off the board or occupied |
| Hit.LookingFor3 | src/movegen.c:37-47 | the same with three pieces |
| Hit.PawnSideNeighbour | src/movegen.c:509-510 | the diagonal neighbour behind the square attacks iff it holds a pawn, bishop, queen or king of the colour |
| Hit.DiagonalNeighbour | src/movegen.c:513-514 | the diagonal neighbour ahead attacks iff it holds a bishop, queen or king of the colour |
| Hit.LineNeighbour | src/movegen.c:517-520 | a line neighbour attacks iff it holds a rook, queen or king of the colour |
| Hit.HitSingle | src/movegen.c:501-523 | hit iff some neighbour attacks the square; when none does, blocks gains exactly the directions whose first square is off the board or occupied |
| Hit.NoNeighbourLeft | src/movegen.c:501-523 | when all eight neighbour tests fail, no neighbour attacks |
| Hit.MarkDirection | src/movegen.c:509-520 | each failed neighbour test adds that direction's blocks bit |
| Hit.AllDirections | src/movegen.c:509-520 | the eight tests together cover every direction |
| Hit.HitKnight | src/movegen.c:525-537 | hit iff a knight of the colour stands a knight's jump away |
| Hit.HitDiagonal | src/movegen.c:539-563 | hit iff some diagonal not in blocks meets, from distance 2 on, a bishop or queen of the colour before any other piece |
| Hit.WalkDiagonal | src/movegen.c:548-559 | the inner loop walks one diagonal from distance 2 |
| Hit.HitLateral | src/movegen.c:565-589 | the same on the four lines for a rook or queen |
| Hit.WalkLateral | src/movegen.c:574-585 | the inner loop walks one line from distance 2 |
| Hit.Hit | src/movegen.c:195-216 | _board_hit answers exactly whether a piece of the colour attacks the square (pawn, knight, king, or slider on a clear line), despite the blocks shortcut |
| Hit.DiagonalSlider | src/movegen.c:551 | a diagonal slider of the colour is a bishop or queen |
| Hit.LateralSlider | src/movegen.c:577 | a line slider of the colour is a rook or queen |
| Hit.WalkIsDistant | src/movegen.c:548-559 | the walk from distance 2 finds a slider iff the first occupant at distance ≥ 2 is one |
| Hit.RayPastNeighbour | src/movegen.c:545-547 | a slider attack along a direction whose first square is empty is found beyond it |
| Hit.DistantIsAttack | src/movegen.c:539-589 | a slider found by the walks is an attacker |
| Hit.NoAttackFound | src/movegen.c:195-216 | when every test fails the square is not attacked: the blocks bits only skip directions whose first square is off the board or holds a non-attacker |
| Hit.NoRayAttack | src/movegen.c:545-547 | a skipped or unsuccessful direction holds no slider attack |
| MoveGen.ColourByDivision | src/movegen.c:449 | killpc / 6 != frompc / 6 on two pieces says their colours differ |
| MoveGen.Extend | src/movegen.c:112-153 | appending one more part to the list keeps it equal to the specification's concatenation |
| MoveGen.Shift | src/movegen.c:112-153 | moving the next part onto the end of the list keeps the concatenation |
| MoveGen.Extend4 | src/movegen.c:218-347 | four appends in a row |
| MoveGen.GenerateStep | src/movegen.c:353-365 | one table entry appends the plain move onto an empty square, the capture of an enemy, or nothing |
| MoveGen.GenerateKnightMoves | src/movegen.c:349-366 | the knight's moves are appended in table order |
| MoveGen.GenerateKingSteps | src/movegen.c:442-454 | the king's steps are appended in table order |
| MoveGen.GenerateKingSideCastle | src/movegen.c:459-466 | the kingside castle is appended iff the right is held, f and g are empty and e and f are not attacked |
| MoveGen.GenerateQueenSideCastle | src/movegen.c:468-476 | the queenside castle is appended iff the right is held, d, c and b are empty and e and d are not attacked |
| MoveGen.GenerateKingMoves | src/movegen.c:437-499 | the king's steps, then its castles |
| MoveGen.GenerateRaySquare | src/movegen.c:372-388 | one square of a ray: a plain move and go on, a capture and stop, or stop |
| MoveGen.GenerateRay | src/movegen.c:372-388 | one direction appends the ray up to and including an enemy first occupant |
| MoveGen.GenerateRays | src/movegen.c:368-389 | the slider's directions in table order |
| MoveGen.GenerateBishopMoves | src/movegen.c:368-389 | the four diagonals |
| MoveGen.GenerateRookMoves | src/movegen.c:391-412 | the four lines |
| MoveGen.GenerateQueenMoves | src/movegen.c:414-435 | the diagonals, then the lines |
| MoveGen.AppendPawnMove | src/movegen.c:225-234 | onto the last rank the four promotions, elsewhere one move |
| MoveGen.GeneratePawnPushes | src/movegen.c:223-240 | the single push onto an empty square, then the double push from the home rank |
| MoveGen.GeneratePawnTake | src/movegen.c:244-273 | the diagonal capture of an enemy piece, with promotions on the last rank |
| MoveGen.GenerateEnPassant | src/movegen.c:276-282 | the en passant capture when the en passant square is a forward diagonal neighbour |
| MoveGen.GeneratePawnMoves | src/movegen.c:218-347 | pushes, left capture, right capture, en passant, for both colours |
| MoveGen.GeneratePieceMoves | src/movegen.c:120-150 | the generator of the piece's kind |
| MoveGen.GenerateCandidates | src/movegen.c:99-155 | the scan from rank 8 to rank 1, files a to h, appends the moves of every piece of the side to move and remembers its king square |
| MoveProps.RayShape | src/movegen.c:372-388 | every ray move goes one square further out, onto an empty square, except a last move that takes an enemy |
| MoveProps.RayMoveShift | src/movegen.c:372-388 | move i of a ray is move i - 1 of the ray one square further out |
| MoveProps.RayStops | src/movegen.c:372-388 | a ray that does not end in a capture stops at distance 8, the board edge or a piece of its own colour |
| MoveProps.EndsPlainCons | src/movegen.c:372-388 | a plain move in front of a list does not change whether the list ends in a capture |
| MoveProps.CapturePromotes | src/movegen.c:250-256 | a pawn capture onto the last rank is four moves, to knight, bishop, rook and queen, each taking the piece on the destination |
| MoveProps.PushesPromoteOnlyOnLastRank | src/movegen.c:223-240 | a push takes nothing and changes the piece iff it reaches the last rank |
| MoveProps.DoublePushFromHome | src/movegen.c:235-240 | a double push starts on the home rank over two empty squares |
| MoveProps.EnPassantShape | src/movegen.c:276-282 | en passant lands on the en passant square, a forward diagonal neighbour, and takes the enemy pawn one rank behind it |
| MoveProps.CastleConditions | src/movegen.c:459-497 | a castle needs the right, empty squares between king and rook, and neither the king's square nor the passed square attacked; the destination is not checked |
| MoveRules.StepToGenerated | src/movegen.c:353-365 | a step move starts on the scanned square with its piece |
| MoveRules.KnightStepsGenerated | src/movegen.c:349-366 | every knight move comes from the scanned square and carries its piece |
| MoveRules.KingStepsGenerated | src/movegen.c:442-454 | the same for king steps |
| MoveRules.RayGenerated | src/movegen.c:372-388 | the same for one ray |
| MoveRules.RaysGenerated | src/movegen.c:368-435 | the same for the slider's rays |
| MoveRules.PawnToFields | src/movegen.c:225-234 | a pawn move and its promotions keep their squares and victim |
| MoveRules.PushesGenerated | src/movegen.c:223-240 | pushes come from the pawn's square with the pawn |
| MoveRules.TakesGenerated | src/movegen.c:244-273 | captures come from the pawn's square with the pawn |
| MoveRules.EnPassantGenerated | src/movegen.c:276-282 | en passant comes from the pawn's square with the pawn |
| MoveRules.PawnMovesGenerated | src/movegen.c:218-347 | every pawn move comes from the pawn's square with the pawn |
| MoveRules.CastleMovesGenerated | src/movegen.c:459-497 | castles come from the king's square with the king |
| MoveRules.PieceMovesGenerated | src/movegen.c:116-150 | every move generated for a square comes from it, carries its piece, which is of the side to move |
| MoveRules.RankMovesWellFormed | src/movegen.c:114-152 | every move of one rank's scan is well formed |
| MoveRules.MovesAboveWellFormed | src/movegen.c:112-153 | every move of the ranks scanned so far is well formed |
| MoveRules.CandidatesWellFormed | src/movegen.c:112-153 | every candidate starts on a square of the side to move with its piece and can be applied |
| MoveRules.KingInRankIs | src/movegen.c:143-146 | the king square remembered while scanning a rank holds the king |
| MoveRules.KingAboveIs | src/movegen.c:112-153 | the same over the ranks scanned so far |
| MoveRules.KingSquareFound | src/movegen.c:155 | when the side to move has a king, the scan finds a square holding it, so the assert holds |
| Placement.PlacedSquares | src/board.c:88-128 | after a move, the destination holds topc, the origin and an en passant victim's square are empty, a castle's rook stands on f or d with its corner empty, and every other square is unchanged |
| Placement.EpAfterIsPassedSquare | src/board.c:159-163 | the en passant square is set iff a pawn moved 16 squares, and is then the square it passed over |
| Fen.Word | src/board.c:23-31 | the first word of a text: a prefix without the delimiter, followed by the delimiter or the end |
| Fen.TokensShape | src/board.c:23-31 | strtok's tokens are non-empty and hold no delimiter |
| Fen.WordOf | src/board.c:23-31 | a delimiter-free word followed by a delimiter is the first word |
| Fen.TokensCons | src/board.c:23-31 | a word and a delimiter in front give one more token |
| Fen.TokensSkip | src/board.c:23-31 | leading delimiters are skipped |
| Fen.DigitStep | src/board.c:50 | a blank-count digit names no piece and moves the file on by its value |
| Fen.LetterStep | src/board.c:50 | a piece letter names its piece and moves the file on by one |
| Fen.RankTextShape | src/board.c:225-251 | a rank's text is non-empty and holds no "/" or " " |
| Fen.FillCons | src/board.c:38-51 | reading one more character writes its piece at the file and moves on |
| Fen.DigitThen | src/board.c:38-51 | a digit skips that many empty files |
| Fen.RankTextEnd | src/board.c:244-247 | the trailing blank count is flushed at the end of the rank |
| Fen.RankTextStep | src/board.c:229-242 | an empty file adds one blank; a piece flushes the blanks and writes its letter |
| Fen.FillRankEnd | src/board.c:38-51 | reading the flushed blank count finishes the rank |
| Fen.FillRankText | src/board.c:38-51 | reading the text written for a rank from any file rebuilds the rank |
| Fen.FillRankBlank | src/board.c:38-51 | the same, from an empty file |
| Fen.FillRankLetter | src/board.c:38-51 | the same, from a piece after blanks |
| Fen.LetterThenRest | src/board.c:38-51 | the same, from a piece |
| Fen.RankRoundTrip | src/board.c:35-52 | reading the text of any rank gives the rank back |
| Fen.RankTexts | src/board.c:225-251 | one text per rank |
| Fen.RankTextsAt | src/board.c:225-251 | the i-th text is that of rank 8 - i |
| Fen.BoardTextShape | src/board.c:225-251 | the placement field is non-empty and has no space |
| Fen.BoardTextTokens | src/board.c:28-31 | splitting the placement field at "/" gives the rank texts |
| Fen.FieldTokens | src/board.c:23-26 | one more space-separated field |
| Fen.TailTokens | src/board.c:23-26 | the last three fields split apart |
| Fen.FieldShapes | src/board.c:252-268 | the castling and en passant fields are non-empty words |
| Fen.FenFields | src/board.c:213-273 | the text board_to_fen writes splits into the placement, side, castling and en passant fields |
| Fen.RanksRoundTrip | src/board.c:35-52 | reading the rank texts of any board gives it back |
| Fen.RightsRoundTrip | src/board.c:57-62 | reading the castling field written for any rights gives them back |
| Fen.EpRoundTrip | src/board.c:64-65 | reading the en passant field written for any square or NOPOS gives it back |
| Fen.FenRoundTrip | src/board.c:20-69 | board_make reads back exactly the position board_to_fen wrote for any position |
| Fen.KingInKeeps | src/board.c:41-46 | a king square already found stays found |
| Fen.KingInHolds | src/board.c:38-51 | the king square recorded while reading a rank holds that king |
| Fen.KingInNone | src/board.c:38-51 | when none is recorded, the rank holds no such king |
| Fen.ParseRanksAt | src/board.c:35-52 | rank index r is read from the (8 - r)-th rank text |
| Fen.KingInRank | src/board.c:41-46 | the recorded square is the king's on that rank |
| Fen.KingCacheSome | src/board.c:35-52 | the king square board_make caches holds the king |
| Fen.KingCacheNone | src/board.c:35-52 | when nothing is cached, the ranks read hold no such king |
| Fen.ReadRank | src/board.c:36-51 | the character loop writes the rank the text describes and records the kings met |
| Fen.WriteRank | src/board.c:227-247 | the file loop writes the rank's text: letters, and digits for runs of empty files |
| Fen.BoardTextStep | src/board.c:248-250 | each further rank adds "/" and its text |
| Fen.WritePlacement | src/board.c:225-251 | the rank loop writes the placement field |
| Fen.WriteCastle | src/board.c:257-264 | the castling letters in KQkq order, "-" when no right is held |
| Fen.WriteFen | src/board.c:213-273 | the whole text |
| CBoard.KillRightsClears | src/board.c:94-107 | a capture clears a right exactly when it takes that side's rook on its home corner |
| CBoard.MoverRightsClears | src/board.c:131-156 | the mover clears a right exactly when it is that side's king or its rook leaving the home corner |
| CBoard.AppliedRights | src/board.c:88-156 | castling rights are only ever cleared, each exactly when its king moves, its rook leaves or is taken on the home corner |
| CBoard.AppliedFlipsSide | src/board.c:165-167 | the side to move flips |
| CBoard.ReadPlacement | src/board.c:35-52 | the rank loop reads every rank and caches both kings' squares |
| CBoard.ReadRankInto | src/board.c:36-51 | one round reads one rank and updates the caches |
| CBoard.CacheStep | src/board.c:41-46 | a later king found in scan order replaces the cached square |
| CBoard.ReadFlags | src/board.c:54-65 | white iff the side field is "w", each right iff its letter occurs, the en passant square or NOPOS |
| CBoard.Board.Make | src/board.c:20-69 | the board holds the position read from the text, and caches the kings |
| CBoard.Board.ToFen | src/board.c:213-273 | the text of the board's position |
| CBoard.Board.Copy | src/board.c:71-80 | a fresh board with the same ranks, flags and king caches |
| CBoard.Board.SetPos | src/board.c:91-92 | one square written, nothing else changed |
| CBoard.Board.Kill | src/board.c:88-108 | the victim's square is emptied and a captured home rook's right is cleared |
| CBoard.Board.MovePieces | src/board.c:110-128 | the piece moves, becoming topc, and a castle's rook moves to f or d |
| CBoard.Board.MoverUpdate | src/board.c:130-156 | the mover's rights are cleared, nothing else |
| CBoard.Board.EpUpdate | src/board.c:158-163 | the en passant square is reset or set to the passed square, nothing else |
| CBoard.Board.ApplyMove | src/board.c:86-178 | the board afterwards holds the applied position, and the king caches follow a king move |
| CLegal.WellFormedApplicable | src/movegen.c:174-176 | every generated move can be applied |
| CLegal.KeptStep | src/movegen.c:159-189 | one more candidate is kept or dropped |
| CLegal.KeptIsFilter | src/movegen.c:159-190 | the kept moves are exactly the candidates that pass, and no more of them |
| CLegal.KeptAppend | src/movegen.c:159-190 | keeping is done piece by piece |
| CLegal.CompactKeep | src/movegen.c:178-183 | swapping slots i and j after a kept move keeps the invariant: [0, j) the kept moves in order, [j, i) rejected ones |
| CLegal.CompactDrop | src/movegen.c:184-186 | a rejected move stays where it is |
| CLegal.CompactedDone | src/movegen.c:190 | at the end, the first j slots are the kept moves |
| CLegal.LeavesKingSafe | src/movegen.c:174-178 | on a copy with the move applied, the king, which is at topos if it moved, is not attacked |
| CLegal.SwapKept | src/movegen.c:180-183 | the get/put swap of slots i and j |
| CLegal.Examine | src/movegen.c:159-189 | one round of the filter loop |
| CLegal.ExamineAll | src/movegen.c:159-189 | the filter loop leaves the kept moves at the front in order |
| CLegal.CompactSafe | src/movegen.c:157-190 | the list becomes the safe candidates in their original order, in place |
| CLegal.GetMoves | src/movegen.c:99-193 | board_get_moves returns the legal moves of the position |
| CLegal.LegalMovesAreSafe | src/movegen.c:157-190 | a move is legal iff it is a candidate that leaves the king unattacked; no more legal moves than candidates |
| CLegal.CastleDestinationChecked | src/movegen.c:177-178 | a castle left by the filter does not land its king on an attacked square, though the generator never checks it |
| CLegal.IsMate | src/board.c:180-194 | mate iff the king is attacked and there are no legal moves |
| CLegal.IsStalemate | src/board.c:196-210 | stalemate iff the king is not attacked and there are no legal moves |
| ChessBoard.MoverRightsClears | chess/src/board.cpp:97-112 | a king clears both its rights; a rook clears Q iff it leaves a1/a8 and K otherwise, so every rook move clears a right |
| ChessBoard.AppliedAsC | chess/src/board.cpp:67-123 | applyMove gives the placement, en passant square and side board_apply_move gives, and the same rights when no capture and no rook off its corner is involved |
| ChessBoard.RightsDiffer | chess/src/board.cpp:69-74 | a rook moving from d1 clears K here but not in the C library, and taking the h8 rook clears k in the C library but not here |
| ChessBoard.AttackedByPlacement | chess/src/movegen.cpp:447-472 | the attack test depends on the placement alone |
| ChessBoard.SafeAsC | chess/src/movegen.cpp:153-162 | a move is safe here iff it is safe for the C library |
| ChessBoard.KeptAsC | chess/src/movegen.cpp:153-162 | the two filters keep the same moves in the same order |
| ChessBoard.LegalMovesAsC | chess/src/movegen.cpp:94-164 | generateMoves and board_get_moves give the same legal moves |
| ChessBoard.Board.Make | chess/src/board.cpp:14-52 | the board holds the position read from the text |
| ChessBoard.Board.Copy | chess/src/board.cpp:54-57 | a fresh board with the same ranks and flags |
| ChessBoard.Board.Assign | chess/src/board.cpp:61-65 | the board takes the other's value into its own rank buffer, so later changes to the other leave it alone |
| ChessBoard.Board.ToFen | chess/src/board.cpp:129-172 | the text of the board's position |
| ChessBoard.Board.SetPos | chess/src/board.cpp:72-73 | one square written, nothing else changed |
| ChessBoard.Board.MoverUpdate | chess/src/board.cpp:96-112 | the rights as the C++ rules clear them, nothing else |
| ChessBoard.Board.ApplyMove | chess/src/board.cpp:67-127 | the board afterwards holds the applied position |
| ChessBoard.Board.MovePieces | chess/src/board.cpp:68-94 | the capture, the move and a castle's rook |
| ChessBoard.Board.LeavesKingSafe | chess/src/movegen.cpp:153-162 | on a copy with the move applied the king is not attacked |
| ChessBoard.Board.GenerateMoves | chess/src/movegen.cpp:94-164 | the candidates, in scan order, that leave the king unattacked |
| ChessBoard.Board.KeepSafe | chess/src/movegen.cpp:153-162 | remove_if and erase keep exactly the safe moves in their order |
| ChessBoard.ReadRanks | chess/src/board.cpp:28-37 | the rank loop reads every rank |
| ChessBoard.ReadRankAt | chess/src/board.cpp:29-36 | one round reads one rank |

## Left out

- Nibble packing of rank words and the bit layout of the flags word: ranks are sequences of eight piece codes and the flags a record. The header with those macros is not part of this model, so `MOVEPC` is taken as "empty the origin, write topc on the destination".
- The king cache lives in bits of the flags word in src/board.c; here it is two fields of `CBoard.Board`.
- Memory management: `malloc`/`free`, `alst_free`/`aslt_free`, `board_free`, `move_free`, and exit on allocation failure. Refused list indices are reported by `ArrayList.AList.Put`/`Get` as a `false` result instead of an exit.
- `board_to_fen` freeing the "-" literal returned for NOPOS (src/board.c:267-269): memory is not modelled.
- The packed-move build (`CHESSLIB_QWORD_MOVE`, src/movegen.c:160-172): its macros are not part of this model.
- `board_to_tui` and the board's `operator<<` (display only).
- `move_make_algnot`, `algnot_parse` and the text constructor of chess/src/move.cpp: their parsers are not part of this model.
- The Zobrist signature (a TODO in both apply functions) and the uninitialised flag bits of the C++ constructor.
- Perft counts and the search drivers, the Python bindings and the neural network evaluation.
- Fen.ParseFen and both `Make` constructors require `Fen.Readable`: at least four fields and eight rank texts that each stay inside their rank. On other text the source reads or writes out of bounds.
- Castling generation assumes the king stands where a held right implies. When it does not, the source reads nibbles shifted off the rank word, and the model counts a square off the board as occupied.
- CLegal.GetMoves, CLegal.IsMate, CLegal.IsStalemate and ChessBoard.Board.GenerateMoves require a king of the side to move (`MoveGen.HasKing`), which `assert(kingpos != NOPOS)` demands; `MoveGen.GenerateCandidates` itself needs no king and reports NOPOS when there is none.
- ArrayList.AList.IndexOf requires `len < SIZE_MAX`, so that no index collides with the "not found" answer.
- ArrayList.AList: one generic class stands for the `void *` lists and the C++ `vector<Move>`; elements are compared by value, where the C code compares addresses.
- Hit.HitSingle: the blocks byte is modelled as the set of its bit indices.
- ChessMoveC.MoveStrAsWritten: the buffer `move_str` fills is never initialised, so the model takes it as starting empty.

## Findings

| source | as written | input that shows it | evidently intended | confidence | as-written member | corrected member |
|---|---|---|---|---|---|---|
| game/move.cpp:91-96 | `operator<` is an or of field comparisons | a = pawn e4-e5, b = knight b1-c3: a < b by frompc, b < a by frompos | lexicographic comparison as in chess/src/move.cpp:66-82 | high, not executed | GameMove.LessAsWrittenNotAsymmetric | ChessMove.LessIsStrictTotalOrder |
| src/arraylist.c:38,46 | `i > len - 1` on size_t | len == 0, any i: `len - 1` wraps to SIZE_MAX and the check passes | refuse every i >= len | high, not executed | ArrayList.IndexCheckAcceptsAnyIndexWhenEmpty | ArrayList.AList.Put |
| src/arraylist.c:14-15 | capacity max(cap, 10), buffer of cap slots | cap = 5: capacity 10, five slots | a buffer of the recorded capacity | high, not executed | ArrayList.MakeAsWrittenUnderAllocates | ArrayList.AList.Make |
| chess/src/move.c:95 | `if (move_is_cap)` tests the function's address | the pawn push e2-e4 prints "e2xe4" | call `move_is_cap(move)` | high, not executed | ChessMoveC.QuietMoveWrittenAsCapture | Moves.MoveStrReadsBack |

Two differences between generations are modelled as written, not as
defects. `castleType` of game/move.cpp ignores the origin square
(`GameMove.CastleTypeVersusOrigin`). The C++ castling-right rules differ
from src/board.c (`ChessBoard.RightsDiffer`), yet the legal move lists
agree (`ChessBoard.LegalMovesAsC`).
