# Chess rules engine — a Dafny model

This project models the rules and state engine of a small chess game
(`classes/Chess.cpp`, with the enumeration and fields declared in
`classes/Chess.h`). The engine answers the host framework's questions:

- may this piece be picked up (`canBitMoveFrom`);
- may it go from this square to that one (`canBitMoveFromTo`, with
  `canPawnMove`, `isPathClear`, `canCastle`, `isSquareUnderAttack` and
  `pieceAttacksSquare`).

It also commits a move the host has made (`bitMovedFromTo`). A commit keeps
the castling rights and the en-passant target up to date, moves the rook
when castling, removes a pawn taken en passant and promotes pawns to
queens. Three text formats are modelled:

- the piece-placement field of Forsyth-Edwards Notation, as read by
  `FENtoBoard` (section 16.1.3.1 of the Portable Game Notation
  Specification and Implementation Guide);
- the 64-character state string written by `stateString`;
- the digit string read by `setStateString`.

Layout, one module per file:

- `pieces.dfy` (module `Pieces`): the piece-type enumeration, the two
  players (player 0 is `White`, player 1 is `Black`), and the integer tag
  `player * 128 + type` with its decoders `tag & 127` and `tag & 128`.
- `board.dfy` (module `Board`): the 8×8 grid as a value. A board is 64
  optional pieces in row-major order, row 0 first, which is the order the
  grid visits its squares.
- `rules.dfy` (module `Rules`): move legality, attack detection and
  castling. These are pure predicates of a board and the engine state
  (`_kingMoved`, `_rookMoved`, the en-passant target).
- `moves.dfy` (module `Moves`): what a commit does to the board and to the
  state. The capture report and castling bookkeeping are here, and so is
  `HostMove`, the host's whole move (capture report, lift, drop, commit).
- `codec.dfy` (module `Codec`): the state string, the digit reader and the
  FEN placement importer. It also has a FEN placement writer (a letter per
  piece, one digit per run of empty squares), the reference the importer
  is proved against.
- `engine.dfy` (module `Engine`): class `Chess`. Its fields are the grid (an
  `array` of 64 squares), `kingMoved`, `rookMoved` and the en-passant
  target. Each method carries the source's loops and assignments and is
  proved equal to the matching pure definition.

Some behaviours of the source are stated as they are:

- The state string writes one letter per piece, but `setStateString` reads
  digits. Reading a state string back therefore keeps only which squares
  are occupied: every piece becomes a pawn tagged for player 1
  (`Codec.StateStringReadBackIsLossy`). The letters themselves lose nothing
  (`Codec.StateStringRoundTrip`).
- Apart from the pawn's, the movement rules do not forbid landing on a piece of one's own colour
  (`Rules.OwnPieceDestinationAllowed`). Whether such a drop happens is up
  to the host framework, which is not part of this model.
- A bishop, rook or queen counts as attacking its own square, because the
  walk toward it has no squares in between (`Rules.SliderAttacksOwnSquare`).
  The three squares castling examines hold the king, its own rook or
  nothing, never a piece of the attacker, so this does not affect castling.
- Castling does not look at the king's column. The rook relocation moves
  whatever piece stands on the corner square.

## Model

| member | source | states |
|---|---|---|
| Pieces.TagRoundTrip | classes/Chess.cpp:44 | decoding a piece's tag with `& 127` gives back its type; `& 128` is 128 times the owner's number; the tag is below 128 exactly for player 0 |
| Pieces.Tag | classes/Chess.cpp:44 | the tag's remainder by 128 is the piece type's ordinal and its quotient by 128 the owner's player number |
| Pieces.ColorBit | classes/Chess.cpp:143 | `tag & 128` is 0 or 128, and 128 exactly when the tag's remainder by 256 is at least 128 |
| Pieces.TagInjective | classes/Chess.cpp:44 | distinct (type, owner) pairs get distinct tags |
| Pieces.PieceTypeForTag | classes/Chess.cpp:316-323 | a decoded type other than NoPiece has the ordinal `tag & 127` (modelled as the non-negative remainder by 128); values in Pawn..King decode to the type of that ordinal, values outside to NoPiece |
| Pieces.CanBitMoveFrom | classes/Chess.cpp:139-146 | the colour-bit comparison accepts a piece exactly when its owner is the player to move |
| Pieces.Opponent | classes/Chess.cpp:431 | the opponent is the other player, number `1 - n` |
| Rules.PathClearBetween | classes/Chess.cpp:325-345 | the walk is clear iff the line is straight or diagonal and every square strictly between source and destination is empty |
| Rules.WalkBetween | classes/Chess.cpp:327-343 | on a straight or diagonal line every intermediate step is on the board and differs from both endpoints |
| Rules.CrookedPathBlocked | classes/Chess.cpp:327-343 | a walk that is not along a straight or diagonal line is never clear (it leaves the board before reaching the destination) |
| Rules.PathClearIgnoresEndpoints | classes/Chess.cpp:325-345 | what stands on the source and destination squares never changes the answer |
| Rules.OccupiedSquareBlocks | classes/Chess.cpp:337-339 | one occupied intermediate square makes the path not clear |
| Rules.AdjacentPathClear | classes/Chess.cpp:331-332 | a neighbouring square (or the square itself) is always reachable |
| Rules.WalkContinues | classes/Chess.cpp:332-342 | a walk on a free square other than the destination takes another step, and has taken fewer than 8 steps, so the loop ends |
| Rules.WalkBlocked | classes/Chess.cpp:333-339 | meeting a missing or occupied square before the destination means the path is not clear |
| Rules.WalkArrives | classes/Chess.cpp:332-344 | reaching the destination over free squares means the path is clear |
| Engine.Chess.IsPathClear | classes/Chess.cpp:325-345 | the stepping loop returns exactly `PathClear` of the current board |
| Rules.PawnCanMove | classes/Chess.cpp:347-381 | a legal pawn move goes at most one column sideways and one row forward, or two rows straight forward from its start row; onto an occupied square it moves only diagonally and only onto a piece of the other player |
| Rules.PawnStraightMove | classes/Chess.cpp:357-371 | a straight pawn move needs an empty destination; then one row in its direction is legal, two rows only from its start row over an empty square, and nothing else |
| Rules.PawnDiagonalMove | classes/Chess.cpp:373-378 | a diagonal step is legal iff it takes a piece of the other owner, or lands on the empty en-passant target |
| Rules.PawnMoveShape | classes/Chess.cpp:357-380 | every other pawn delta is rejected: at most one column, one row forward, or two rows straight forward |
| Rules.NoNullMove | classes/Chess.cpp:162-164 | no piece may move to its own square |
| Rules.MovesAreAttacks | classes/Chess.cpp:172-187 | for knight, bishop, rook and queen a legal move and an attack coincide; a king's one-square step is both |
| Rules.PawnCapturesWhereItAttacks | classes/Chess.cpp:373-376 | a pawn may capture on an occupied square iff it attacks that square and the piece there belongs to the other player |
| Rules.OwnPieceDestinationAllowed | classes/Chess.cpp:148-192 | the rule accepts a rook move onto a piece of the same player |
| Rules.KingTwoColumnsOnlyByCastling | classes/Chess.cpp:183-187 | a king moving two columns is legal iff castling is allowed, and then its flag and the side's rook flag are clear, its own rook is on the corner, and neither its square nor its destination is attacked |
| Rules.MovedKingOnlySteps | classes/Chess.cpp:390-393 | a king whose flag is set only steps to a neighbouring square |
| Rules.CastlingCrossesEmptySafeSquare | classes/Chess.cpp:419-437 | castling crosses a square that is empty and not attacked by the opponent |
| Engine.Chess.CanCastle | classes/Chess.cpp:383-443 | the method returns exactly `CastleAllowed`: King, unmoved, same row, two columns, rook unmoved, own rook on column 7 or 0, empty squares between, three squares unattacked |
| Engine.Chess.CanBitMoveFromTo | classes/Chess.cpp:148-192 | the method returns exactly `CanMove` for every piece type |
| Rules.Attacks | classes/Chess.cpp:468-496 | every piece but the knight attacks only along its row, column or a diagonal; pawns and kings attack only adjacent squares, never their own; a knight attacks only squares a (1, 2) jump away |
| Rules.PawnAttacksExactly | classes/Chess.cpp:478-481 | a pawn attacks exactly the two forward-diagonal squares, whatever they hold |
| Rules.KingAttacksExactly | classes/Chess.cpp:490-491 | a king attacks exactly the eight adjacent squares, never its own |
| Rules.SliderAttacksOwnSquare | classes/Chess.cpp:484-489 | a bishop, rook or queen counts as attacking its own square |
| Rules.UnderAttackWitness | classes/Chess.cpp:445-466 | a piece of the attacker that attacks the target makes the target attacked |
| Rules.NoAttackerNoAttack | classes/Chess.cpp:445-466 | with no piece of the attacker on the board, nothing is attacked |
| Engine.Chess.IsSquareUnderAttack | classes/Chess.cpp:445-466 | the board scan returns true iff some piece of the attacking player attacks the target |
| Moves.MarkForMoveFlags | classes/Chess.cpp:498-519 | a king move sets exactly its owner's king flag; a rook leaving column 0 or 7 of its home row sets exactly that corner's flag; nothing else changes |
| Moves.MarkForCaptureFlags | classes/Chess.cpp:521-535 | a rook captured on a corner of its own home row sets its owner's flag for that corner; nothing else changes |
| Engine.Chess.MarkCastlingStateForMove | classes/Chess.cpp:498-519 | the flag arrays afterwards are `MarkForMove` of the old state |
| Engine.Chess.MarkCastlingStateForCapturedPiece | classes/Chess.cpp:521-535 | the flag arrays afterwards are `MarkForCapture` of the old state |
| Engine.Chess.PieceTaken | classes/Chess.cpp:537-549 | nothing changes without a piece or its square; otherwise the captured-piece bookkeeping runs |
| Moves.CommitStateEffects | classes/Chess.cpp:208-241 | after a commit the en-passant target is the skipped square of a two-row pawn move and (-1, -1) otherwise; flags only rise, and only the mover's |
| Moves.HostMoveFlags | classes/Chess.cpp:498-549 | over a whole move flags only go from false to true: the mover's king flag, the corner its rook leaves, the corner a captured rook stood on |
| Moves.CastlingRelocatesRook | classes/Chess.cpp:215-226 | a king moving two columns moves the piece on column 7 to `dstX - 1` (or on column 0 to `dstX + 1`), empties the corner and changes no other square; with nothing on the corner the board is unchanged |
| Moves.EnPassantRemovesPawn | classes/Chess.cpp:228-236 | a diagonal pawn move onto the previous target empties the square one row behind the destination, and nothing else apart from a promotion |
| Moves.PromotionMakesQueen | classes/Chess.cpp:243-250 | a pawn landing on row 7 (player 0) or row 0 (player 1) is replaced by a queen of its owner; without an en-passant capture the board is otherwise exactly as the host left it |
| Moves.QuietCommitKeepsBoard | classes/Chess.cpp:194-254 | a commit that is neither castling, en passant nor promotion leaves the board as the host left it |
| Moves.HostMoveKeepsPawnsUnpromoted | classes/Chess.cpp:243-250 | if no pawn stands on its promotion row before a move, none does afterwards |
| Moves.EnPassantScenario | classes/Chess.cpp:194-254 | a double step sets the target, the neighbouring pawn may take en passant, and that removes the double-stepped pawn and clears the target |
| Moves.CastlingScenario | classes/Chess.cpp:383-443 | the king-side castle from (4, 0) is legal iff the three squares are unattacked, and it puts the rook on (5, 0) |
| Engine.Chess.MoveCastlingRook | classes/Chess.cpp:215-226 | the board afterwards is `RelocateRook` of the old board |
| Engine.Chess.CommitPawnMove | classes/Chess.cpp:228-251 | the board afterwards is the en-passant capture and promotion of `PawnEffects`; the target is set after a two-row move and untouched otherwise |
| Engine.Chess.BitMovedFromTo | classes/Chess.cpp:194-254 | board and state afterwards are `CommitBoard` and `CommitState` of the old board and state |
| Engine.Chess.constructor | classes/Chess.cpp:7-15 | an empty board, no flag set, no en-passant target; the record games are set up from is the starting FEN record |
| Engine.Chess.SetUpBoard | classes/Chess.cpp:50-66 | castling rights fully available and no en-passant target afterwards; the board is `FenToBoard` of the starting FEN record and the old board |
| Engine.Chess.StopGame | classes/Chess.cpp:256-263 | every square emptied and the en-passant target cleared; the castling flags stay |
| Codec.PieceNotation | classes/Chess.cpp:22-32 | '0' exactly for an empty square; a lower-case letter exactly for player 0's pieces |
| Codec.NotationRoundTrip | classes/Chess.cpp:22-32 | a square's notation identifies its content |
| Codec.StateString | classes/Chess.cpp:293-301 | 64 characters; character `y * 8 + x` is the notation of square (x, y) |
| Codec.StateStringRoundTrip | classes/Chess.cpp:293-301 | reading the letters back gives the board that was written |
| Engine.Chess.StateString | classes/Chess.cpp:293-301 | the per-square loop builds exactly `Codec.StateString` of the board |
| Codec.CharAt | classes/Chess.cpp:307 | `s[index]` on the string: the character at the index, or the terminating NUL at index `|s|` |
| Codec.ShortStateStringLastSquare | classes/Chess.cpp:303-314 | a 63-character string fills squares 0 to 62 from its characters and square 63, from the terminating NUL, with a pawn tagged for player 1 |
| Codec.CharMinusZero | classes/Chess.cpp:307 | `s[index] - '0'` narrowed to a signed 8-bit char; for a digit it is the digit's value |
| Codec.OccupancyRoundTrip | classes/Chess.cpp:303-314 | reading owner digits ('0', '1', '2') restores who occupies each square, every piece turned into a pawn |
| Codec.StateStringReadBackIsLossy | classes/Chess.cpp:293-314 | reading back what `stateString` writes turns every occupied square into a pawn tagged for player 1 |
| Engine.Chess.SetStateString | classes/Chess.cpp:303-314 | every square afterwards is the one its character describes (`BoardOfDigits`), for strings of 63 characters or more |
| Codec.SkipSpaces | classes/Chess.cpp:70-73 | the stream extraction skips exactly the leading white space |
| Codec.Word | classes/Chess.cpp:70-73 | the extracted field is the longest prefix without white space |
| Codec.PlaceDigit | classes/Chess.cpp:98-103 | any digit d with room left in the row advances the column by d and places nothing |
| Codec.PlacePiece | classes/Chess.cpp:105-125 | the letter of a piece places exactly that piece, with its owner, on the current square and advances one column |
| Codec.PlaceStep | classes/Chess.cpp:84-125 | reading the letter or run digit at the head of a rank's text fills in the squares it covers and moves to a later column |
| Codec.PlaceRank | classes/Chess.cpp:84-127 | importing the text of one rank places exactly that rank's pieces and ends at column 8 |
| Codec.PlaceRanks | classes/Chess.cpp:84-127 | importing the ranks from row y down places exactly those rows of the board |
| Codec.FenRoundTrip | classes/Chess.cpp:68-132 | importing the placement written for any board, with its runs of empty squares as digits 1 to 8, restores that board, whatever was on the board before |
| Codec.FenRecordRoundTrip | classes/Chess.cpp:68-132 | a full FEN record, the placement written for a board followed by white space and further fields, imports that board |
| Codec.WordOfSpacelessPrefix | classes/Chess.cpp:70-73 | a field without white space followed by white space is extracted up to that white space |
| Codec.WordOfSpaceless | classes/Chess.cpp:70-73 | a field without white space is extracted whole |
| Engine.Chess.FENtoBoard | classes/Chess.cpp:68-132 | the character loop leaves exactly `FenToBoard` of the record and the old board: unchanged without a placement field, else the placement laid out on an emptied board until a malformed character |
| Engine.Chess.ClearBoard | classes/Chess.cpp:78-80 | every square is empty afterwards |

## Left out

- Sprites, textures, sizes and positions of pieces (`PieceForPlayer` except its tag formula, `setPosition`, `setParent`): rendering only.
- The Grid, Bit, ChessSquare and Player classes: the grid is an array of 64 optional (type, owner) values; a piece's owner pointer is its `Player`.
- Engine.Chess.SetUpBoard: the contract states the board as `FenToBoard` of the starting record but does not spell out the concrete starting position; the record is kept in the constant field `startFen` so that proofs never unfold the literal. Player count, grid size and `startGame` are framework set-up.
- `endTurn`, `startGame`, `getCurrentPlayer`: turn handling of the framework; the player to move is a parameter of `CanBitMoveFrom`.
- `checkForWinner`, `checkForDraw`, `actionForEmptyHolder`: unconditional stubs.
- `initialStateString`: it returns `stateString()`.
- `ownerAt`: no operation of the engine calls it.
- The destructor and memory management: removing a piece is clearing its square.
- The host's own move (capture report, lift and drop) is not engine code; `Moves.HostMove` models it so that whole moves can be stated.
- Engine.Chess.SetStateString: for a digit value other than 0, 1 or 2 the source asks the framework for a player that does not exist; the model keeps only the tag colour of the pawn created (player 1's). A 63-character string reads its terminating NUL for square 63 (value -48, again a nonexistent player); a string shorter than 63 characters is excluded by `requires`, since the source then reads past the end of the string, which is undefined behaviour.
- The checks for a missing square (`!srcSquare`, `!square`, `getSquare` returning null) in `canBitMoveFromTo`, `bitMovedFromTo`, `canCastle` and `isSquareUnderAttack`: on the 8×8 grid every square exists, so they cannot fail.
- The closing `if (x != 8 || y != 0) return;` of `FENtoBoard`: it is the last statement and has no effect.
- Strings are sequences of Unicode characters; the source works on bytes. The white-space set is that of the "C" locale.
