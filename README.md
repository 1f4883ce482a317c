# Lubyanka board and move generator in Dafny

This project models the two parts of the Lubyanka chess engine that hold its
logic:

- `Board` (src/board.rs) stores a position in two parallel 64-slot arrays.
  - `squares` holds the piece on each square and `colors` holds its colour. Squares are indexed `rank * 8 + file`, with a1 = 0 and h8 = 63.
  - It also holds the side to move, four castling rights, an optional en-passant square and two `u32` clocks.
  - It reads and writes Forsyth–Edwards Notation (FEN) with `from_fen` and `to_fen`.
  - It changes the position with `move_piece` and `put_piece`.
- `MoveGenerator` (src/move_generation.rs) generates pseudo-legal moves for the side to move.
  - It precomputes a 64×8 table of distances to the edge of the board.
  - Queens, rooks and bishops cast rays; knights jump by flat offsets behind a guard against wrapping around the board; pawns push and capture.
  - Every move is appended to the generator's `moves` list.

The model follows the source's own form:

- The board is a `class Board` over two arrays. Its methods run the same loops as the Rust code: the placement scan of `from_fen`, and the rank/file loops of `to_fen` with their pending count of empty squares.
- Each method is proved equal to a function on the value `Position` (`DecodeFen`, `EncodeFen`, `ApplyMove`, `PlacePiece`).
- The properties are proved about those functions:
  - decoding the encoding of any position gives the position back;
  - errors come in the source's order;
  - the starting FEN and the empty-board FEN are reproduced character for character;
  - moving and placing keep pieces and colours together.
- The generator is a `class MoveGenerator`.
  - Its fields are the move list, the edge table (an `array2`), the direction offsets and the board.
  - Each `generate_*` method keeps the source's loops, `break` and `continue`, and is proved to append exactly the moves of a function in `MoveRules`.
  - Those functions are characterised independently, by lemmas stated on ranks and files. A slider emits the squares along its lines up to and including the first blocker of the other side. A knight emits its jumps that land on the board. A pawn emits its push, capture and double-push squares.

Quirks of the source are kept:

- `generate_moves` returns a new, always-empty vector and appends to `moves`, which is never cleared.
- Kings generate nothing.
- "Friendly" means "of the colour of the side to move", not the colour of the moving piece.
- A single push onto the first or last rank is dropped, because promotion is not handled.
- `move_piece` with equal squares deletes the piece.

Inputs on which the Rust code panics are preconditions, with `Decodable` for `from_fen` and `PawnInBounds` / `Generatable` for the generator:

- a FEN that runs out of fields before the first field that fails. `from_fen` reads each field only after the fields before it passed, so "9" or "8/8/8/8/8/8/8/8 x" get an error, not a panic;
- a placement that runs off the board;
- a pawn whose push or capture square lies outside 0..64. This includes a White pawn on h7 and a Black pawn on a2, whose capture squares are 64 and −1.

## Model

| member | source | states |
|---|---|---|
| Pieces.Symbol | src/board.rs:224 | the FEN letter of a piece is upper case exactly for White and lower case exactly for Black |
| Pieces.PieceFromSymbol | src/board.rs:143-156 | defined exactly on the twelve piece letters, and each such letter is the symbol of the pair it decodes to |
| Pieces.SymbolRoundTrip | src/board.rs:143-155 | decoding the letter of a (piece, colour) pair gives the pair back |
| Pieces.SymbolIsLetter | src/board.rs:142-156 | a piece letter is never '/', a digit or a space, so the placement scan reads it as a piece |
| Pieces.Opponent | src/board.rs:309-313 | the side to move after a move is the other colour |
| Squares.IndexOf | src/board.rs:159 | `rank * 8 + file` is on the board and has exactly that rank and file |
| Squares.IndexOfFileRank | src/move_generation.rs:216 | every square is the index of its own file and rank |
| Squares.SquareName | src/board.rs:268-275 | a square's name is the letter of its file in "abcdefgh" followed by the digit of its rank in "12345678", as in the `square_names` table |
| Squares.ParseSquare | src/board.rs:294 | the result is a square named by the input, and there is none exactly when no square has that name |
| Squares.ParseSquareName | src/board.rs:268-275 | reading a square's name gives the square back |
| Text.SplitFrom | src/board.rs:128 | the whitespace-split words are non-empty, hold no whitespace, and concatenate to the input's non-whitespace characters |
| Text.SplitSingleWord | src/board.rs:128 | a non-empty word without whitespace splits into exactly itself |
| Text.SplitAtWhitespace | src/board.rs:128 | a whitespace character separates fields: the text before and the text after it are split independently. With SplitSingleWord this makes the fields the maximal whitespace-free runs |
| Text.SplitJoinWords | src/board.rs:128 | splitting words joined by single spaces gives the words back |
| Text.ParseU32 | src/board.rs:187-193 | an accepted clock is an optional '+' and decimal digits with a value below 2^32 |
| Text.ParseU32Spelling | src/board.rs:187-193 | a clock reads as `n` exactly when it is an optional '+', any number of zeros and the decimal form of `n`, with `n` below 2^32 ("+5" and "007" read as 5 and 7) |
| Text.NegativeIsRejected | src/board.rs:187-193 | a clock starting with '-' (such as "-1") is rejected |
| Text.NatToString | src/board.rs:280-283 | `to_string` of a clock is decimal digits of that value, with no leading zero |
| Text.ParseNatToString | src/board.rs:280-283 | parsing the decimal text of a `u32` gives the number back |
| Fen.ScanSymbol | src/board.rs:136-165 | one placement character keeps both arrays 64 long and keeps piece and colour present together |
| Fen.ScanFrom | src/board.rs:135-166 | scanning a string keeps both arrays 64 long and keeps piece and colour present together |
| Fen.ScanPlacement | src/board.rs:130-166 | the scan from a8 over empty arrays leaves a piece on a square exactly where it leaves a colour |
| Fen.ParseActiveColor | src/board.rs:168-176 | White exactly for "w", Black exactly for "b", an error otherwise |
| Fen.ParseEnPassantSquare | src/board.rs:288-296 | "-" exactly gives no square; otherwise the square named by the field, and an error exactly when no square has that name |
| Fen.Decodable | src/board.rs:128-193 | the inputs on which `from_fen` does not panic: each field is present if every earlier field passed, and the placement stays on the board up to its first bad symbol |
| Fen.DecodeFen | src/board.rs:121-207 | defined on every input on which `from_fen` does not panic. A decoded position comes from six fields, has 64 squares, `u32` clocks and co-present pieces and colours, and holds each castling right exactly when its letter is in a valid castling field |
| Fen.EnPassantExamples | src/board.rs:489-545 | "-" is no square; "a1", "e4", "f7" and "h8" are squares 0, 28, 53 and 63; "-7", "h" and "hh" are errors |
| Fen.Flag | src/board.rs:244-262 | a castling letter is written exactly when its right is held |
| Fen.EncodeRankFrom | src/board.rs:213-231 | one rank of `to_fen` from a file on, with a pending count of empty squares; characterised by EncodeEmptyRank and EncodeFullRank, inverted by ScanEncodedPlacement |
| Fen.EncodeRanks | src/board.rs:212-235 | the ranks from one down to rank 1, separated by '/' |
| Fen.EncodePlacement | src/board.rs:212-235 | the placement field of `to_fen`, ranks 8 down to 1; inverted by ScanEncodedPlacement |
| Fen.CastlingField | src/board.rs:243-262 | the castling field of `to_fen`; characterised by CastlingFieldMembers |
| Fen.EnPassantField | src/board.rs:264-277 | the en-passant field of `to_fen`; inverted by EnPassantFieldRoundTrip |
| Fen.EncodeFen | src/board.rs:209-286 | `to_fen` of a position: six fields joined by spaces; inverted by FenRoundTrip |
| FenProofs.ScanPlacementStep | src/board.rs:135-165 | one character of the placement: '/' moves to file 0 of the rank below, a digit moves the file on, an unknown character stops the scan with the symbol error, a piece letter is stored under the cursor |
| FenProofs.InvalidSymbolRejected | src/board.rs:156 | the first placement character that is not '/', '1'..'8' or a piece letter (such as '9') makes `from_fen` fail with the symbol error |
| FenProofs.DecodeFenErrors | src/board.rs:135-199 | each error is returned exactly when its field is the first to fail, in the order placement, colour, castling, half-move clock, full-move number, en passant |
| FenProofs.ScanEncodedPlacement | src/board.rs:212-235 | scanning the placement `to_fen` writes rebuilds exactly the board's two arrays |
| FenProofs.CastlingFieldMembers | src/board.rs:243-262 | a character is in the castling field exactly when it is the letter of a held right, or '-' when none is held |
| FenProofs.CastlingFieldRoundTrip | src/board.rs:178-203 | the written castling field passes the validity check, and each letter is in it exactly when its right is held |
| FenProofs.EnPassantFieldRoundTrip | src/board.rs:264-277 | parsing the written en-passant field gives back the en-passant square |
| FenProofs.SplitEncodedFen | src/board.rs:209-286 | splitting `to_fen`'s output on whitespace gives exactly its six fields |
| FenProofs.FenRoundTrip | src/board.rs:121-286 | `from_fen(to_fen(b))` succeeds and gives back exactly `b`, for every board whose squares hold a piece exactly where they hold a colour (`Consistent`) and whose en-passant square, if any, is on the board (`Encodable`) |
| FenProofs.DecodedRoundTrip | src/board.rs:121-286 | re-encoding a decoded FEN and decoding again gives the same position |
| FenProofs.EncodeEmptyRank | src/board.rs:213-231 | a run of empty squares to the end of a rank is written as its length |
| FenProofs.EncodeFullRank | src/board.rs:214-228 | a rank occupied from a file on is written as its letters alone |
| KnownPositions.StartFenRoundTrip | src/board.rs:116-119 | the starting FEN decodes to the standard starting position, and `to_fen` of it is the starting FEN again |
| KnownPositions.StartEncodes | src/board.rs:209-286 | `to_fen` of the starting position is "rnbqkbnr/pppppppp/8/8/8/8/PPPPPPPP/RNBQKBNR w KQkq - 0 1" |
| KnownPositions.EmptyFenRoundTrip | src/board.rs:43-58 | "8/8/8/8/8/8/8/8 w - - 0 1" decodes to the default board, and `to_fen` of it is that FEN again |
| KnownPositions.EmptyEncodes | src/board.rs:209-286 | `to_fen` of the default board is "8/8/8/8/8/8/8/8 w - - 0 1" |
| KnownPositions.RejectedAtColor | src/board.rs:168-176 | a FEN of a good placement and a bad colour only gets the colour error |
| KnownPositions.RejectedAtCastling | src/board.rs:178-185 | a FEN of a good placement and colour and bad castling rights only gets the castling error |
| KnownPositions.RejectedAtHalfMoveClock | src/board.rs:187-189 | a FEN of five fields with a bad half-move clock gets the clock error |
| KnownPositions.LoneBadSymbol | src/board.rs:156 | "9" gets the symbol error |
| KnownPositions.MissingCastlingAfterBadColor | src/board.rs:168-176 | "8/8/8/8/8/8/8/8 x" gets the colour error |
| KnownPositions.MissingClocksAfterBadCastling | src/board.rs:178-185 | "8/8/8/8/8/8/8/8 w Z" gets the castling error |
| KnownPositions.MissingFullMoveAfterBadClock | src/board.rs:187-189 | "8/8/8/8/8/8/8/8 w - - x" gets the half-move clock error |
| Boards.Board.constructor | src/board.rs:43-58 | `Board::default` is the empty board with White to move, no castling rights and clocks 0 and 1 |
| Boards.Board.ReadPlacement | src/board.rs:130-166 | the placement loop succeeds exactly when the scan does, and fills the arrays with what the scan describes |
| Boards.Board.ReadSymbol | src/board.rs:136-164 | one iteration of the placement loop advances the cursor and arrays exactly as the scan does, or reports the symbol error |
| Boards.Board.FromFen | src/board.rs:121-207 | `from_fen` returns the board `DecodeFen` describes, or the error it names |
| Boards.Board.StartingPosition | src/board.rs:116-119 | `starting_position` never fails and gives the standard starting position |
| Boards.Board.WriteRank | src/board.rs:213-231 | one rank of `to_fen`'s loop writes that rank's encoding |
| Boards.Board.WriteSquare | src/board.rs:215-227 | one square of the rank loop keeps "text so far + rest of the rank" equal to the rank's encoding |
| Boards.Board.WritePlacement | src/board.rs:212-235 | the placement loop writes the ranks from 8 down to 1, separated by '/' |
| Boards.Board.WriteCastling | src/board.rs:243-262 | the castling part of `to_fen` appends exactly the castling field |
| Boards.Board.ToFen | src/board.rs:209-286 | `to_fen` returns exactly `EncodeFen` of the board |
| Boards.Board.IsPieceAtSquare | src/board.rs:321-326 | true exactly when the square holds that piece and that colour |
| Boards.Board.IsSquareEmpty | src/board.rs:328-330 | true exactly when both slots are empty, and then no piece is at the square |
| Boards.Board.MovePiece | src/board.rs:301-314 | the board becomes `ApplyMove` of the old board, and the starting square is empty afterwards |
| Boards.Board.PutPiece | src/board.rs:316-319 | the board becomes `PlacePiece` of the old board, and the piece is at the square afterwards |
| Moves.ApplyMove | src/board.rs:301-314 | the start is emptied, the target gets the start's old contents unless the squares coincide, the side to move flips, and nothing else changes |
| Moves.PlacePiece | src/board.rs:316-319 | the square holds the piece and colour, and nothing else changes |
| Moves.ApplyMoveConsistent | src/board.rs:302-307 | moving keeps a piece on a square exactly where there is a colour |
| Moves.PlacePieceConsistent | src/board.rs:316-319 | placing keeps a piece on a square exactly where there is a colour |
| Moves.MoveBack | src/board.rs:301-314 | a move onto an empty square followed by the move back restores the position |
| Moves.NullMoveRemoves | src/board.rs:301-314 | a move from a square to itself deletes the piece standing there |
| Moves.TwoMovesSameSide | src/board.rs:309-313 | two moves give the move back to the side that had it |
| Geometry.Offset | src/move_generation.rs:56 | each direction offset is one step of rank and file on the flat board, and never zero |
| Geometry.DirectionKinds | src/move_generation.rs:56 | the first four directions are straight, the last four diagonal |
| Geometry.EdgeRow | src/move_generation.rs:211-227 | an edge-table row has eight entries, each between 0 and 7 |
| Geometry.EdgeRowIsDistance | src/move_generation.rs:207-232 | `k` steps in a direction stay on the board exactly when `k` is at most the edge-table entry |
| Geometry.StepTarget | src/move_generation.rs:95-97 | a ray square within the edge table is on the board, exactly `k` ranks and files away in the direction's steps, with no wrap-around |
| MoveRules.RayFrom | src/move_generation.rs:95-113 | one ray of `generate_sliding_moves`, step by step; characterised by RayFromMembers |
| MoveRules.RaysFrom | src/move_generation.rs:94-114 | the rays of a range of directions, in order; characterised by RaysFromMembers |
| MoveRules.SlidingMoves | src/move_generation.rs:87-116 | `generate_sliding_moves`; characterised by SlidingMembers and SlidingLines |
| MoveRules.KnightGuard | src/move_generation.rs:122-135 | the on-board and no-wrap checks of a knight's target; equal to a real knight's jump by KnightGuardIsJump |
| MoveRules.KnightMoves | src/move_generation.rs:118-147 | `generate_knight_moves`; characterised by KnightMembers |
| MoveRules.PawnInBounds | src/move_generation.rs:155-176 | the squares `generate_pawn_moves` always indexes are on the board, else the source panics |
| MoveRules.PawnSingle | src/move_generation.rs:155-167 | the single push; characterised by PawnSingleMembers |
| MoveRules.PawnCapture | src/move_generation.rs:171-185 | one capture offset; characterised by PawnCaptureMembers |
| MoveRules.PawnDouble | src/move_generation.rs:187-204 | the double push; characterised by PawnDoubleMembers |
| MoveRules.PawnMoves | src/move_generation.rs:149-205 | `generate_pawn_moves`; characterised by PawnMembers |
| MoveRules.Generatable | src/move_generation.rs:66-81 | the positions on which `generate_moves` does not panic |
| MoveRules.PieceMoves | src/move_generation.rs:76-81 | the dispatch by piece kind; characterised by PieceMovesMembers |
| MoveRules.MovesFrom | src/move_generation.rs:66-82 | the squares from one on, in order; characterised by MovesFromMembers and MovesFromOrdered |
| MoveRules.AllMoves | src/move_generation.rs:63-85 | what one call of `generate_moves` appends; characterised by AllMovesMembers, AllMovesOrdered and AllMovesLand |
| MoveRuleProofs.RayFromMembers | src/move_generation.rs:95-113 | a ray emits exactly the squares up to the first occupied one, and that square only when it is not of the side to move's colour |
| MoveRuleProofs.RaysFromMembers | src/move_generation.rs:94-114 | the rays of a direction range emit exactly the moves of each ray |
| MoveRuleProofs.SlidingMembers | src/move_generation.rs:87-116 | a sliding piece emits exactly the squares its rays reach, over its range of directions |
| MoveRuleProofs.SlidingLines | src/move_generation.rs:91-92 | a bishop's moves are diagonal, a rook's straight, a queen's either |
| MoveRuleProofs.StepTargetLine | src/move_generation.rs:56 | a step in a straight direction stays on a rank or file, a diagonal step on a diagonal |
| MoveRuleProofs.KnightGuardIsJump | src/move_generation.rs:121-134 | an offset passes the knight's guard exactly when it is a knight's jump, so wrapping offsets are stopped |
| MoveRuleProofs.KnightJumpIsOffset | src/move_generation.rs:119 | every knight's jump is one of the eight offsets |
| MoveRuleProofs.KnightJumpMovesMembers | src/move_generation.rs:121-145 | one offset emits exactly its target, when the target passes the guard and is not of the side to move's colour |
| MoveRuleProofs.KnightFromMembers | src/move_generation.rs:121-145 | the offsets from an index on emit exactly the guarded, open targets among them |
| MoveRuleProofs.KnightMembers | src/move_generation.rs:118-147 | a knight emits exactly its jumps onto squares not of the side to move's colour |
| MoveRuleProofs.PawnOffsetsForward | src/move_generation.rs:150-153 | the pawn offsets are one rank forward, two ranks forward, and one rank forward with a file to either side |
| MoveRuleProofs.PawnCaptureMembers | src/move_generation.rs:171-185 | a capture offset emits exactly a capture one rank forward and one file aside onto the other side's colour; a- and h-file pawns do not wrap |
| MoveRuleProofs.PawnTakeOffset | src/move_generation.rs:171-172 | every capture square is one of the two capture offsets |
| MoveRuleProofs.PawnSingleMembers | src/move_generation.rs:155-167 | the single push is exactly one rank forward onto an empty square not on the first or last rank |
| MoveRuleProofs.PawnDoubleMembers | src/move_generation.rs:187-204 | the double push is exactly two ranks forward from the home rank over and onto empty squares |
| MoveRuleProofs.PawnMembers | src/move_generation.rs:149-205 | a pawn emits exactly its single push, its captures and its double push |
| MoveRuleProofs.PieceMovesMembers | src/move_generation.rs:76-81 | the dispatch emits exactly the moves the piece can reach by kind, and none for a king |
| MoveRuleProofs.MovesFromMembers | src/move_generation.rs:66-82 | squares from an index on emit exactly the reachable moves of the side to move's pieces there |
| MoveRuleProofs.AllMovesMembers | src/move_generation.rs:63-85 | `generate_moves` emits exactly the reachable moves of the side to move's pieces |
| MoveRuleProofs.MovesFromOrdered | src/move_generation.rs:66 | moves from an index on start at or after it, in square order |
| MoveRuleProofs.AllMovesOrdered | src/move_generation.rs:66 | the generated moves come in order of their starting squares |
| MoveRuleProofs.AllMovesLand | src/move_generation.rs:63-85 | every generated move is on the board, moves a non-king piece of the side to move, and lands off its own square and off a square of the side to move's colour |
| MoveExamples.KnightOnH1 | src/move_generation.rs:434-447 | a knight on h1 emits f2 and g3 and nothing else |
| MoveExamples.QueenOnA8 | src/move_generation.rs:405-417 | a queen on a8 hemmed in as in the example emits a7, b8, b7 in that order |
| MoveExamples.StartKnightOnB1 | src/move_generation.rs:419-431 | in the starting position the b1 knight emits a3 and c3 only |
| MoveGeneration.MoveGenerator.constructor | src/move_generation.rs:54-61 | `new` holds the offsets and the edge table, no moves, and the given board |
| MoveGeneration.MoveGenerator.Default | src/move_generation.rs:47-51 | `default` is a generator over the starting position |
| MoveGeneration.MoveGenerator.PrecomputeMoveData | src/move_generation.rs:207-232 | every entry of the table is the distance from its square to the edge in its direction |
| MoveGeneration.MoveGenerator.GenerateMoves | src/move_generation.rs:63-85 | the returned vector is empty, and exactly `AllMoves` of the board is appended to `moves` |
| MoveGeneration.MoveGenerator.GeneratePieceMoves | src/move_generation.rs:76-81 | the dispatch appends exactly the moves of the piece on the square |
| MoveGeneration.MoveGenerator.GenerateSlidingMoves | src/move_generation.rs:87-116 | exactly `SlidingMoves` of the square is appended |
| MoveGeneration.MoveGenerator.GenerateRay | src/move_generation.rs:95-113 | one direction's inner loop appends exactly that ray |
| MoveGeneration.MoveGenerator.GenerateKnightMoves | src/move_generation.rs:118-147 | exactly `KnightMoves` of the square is appended |
| MoveGeneration.MoveGenerator.GenerateKnightJump | src/move_generation.rs:121-145 | one offset appends exactly its jump, if any |
| MoveGeneration.MoveGenerator.GeneratePawnMoves | src/move_generation.rs:149-205 | exactly `PawnMoves` of the square is appended |
| MoveGeneration.MoveGenerator.GeneratePawnCapture | src/move_generation.rs:171-185 | one capture offset appends exactly its capture, if any |

## Left out

- `Display` and `Debug` formatting (src/board.rs:60-113, src/move_generation.rs:29-38). They only render text. The exact text of each error message is left out too: errors are the `BoardError` datatype, with one variant per kind of failure.
- `Move::from_square`. It only converts the `Square` enum to an index; moves are index pairs here.
- src/square.rs and src/piece.rs are not part of this model.
  - Algebraic square names and piece letters are modelled from how board.rs uses them.
  - `Square::from_algebraic_notation` is modelled as "the square whose name is the field", so its own error cases are not distinguished.
- Unimplemented behaviour stays unimplemented: promotion, king moves, castling execution, en-passant capture, clock updates and legality (check).
- `Vec<Move>` and the `String` being built are sequences. The edge table is an `array2` of unbounded integers. The Rust `usize`/`isize`/`u32` arithmetic cannot overflow on the inputs allowed by the preconditions, so no wrap-around is modelled.
- Rust's `/` and `%` truncate toward zero, and Dafny's are Euclidean. The two differ only for negative operands. Here that happens only for knight targets below 0, which the generator rejects before using their rank and file.
- Panics are preconditions, not behaviour, and only for the three cases listed above.
- Boards.Board.FromFen: requires `Decodable`. The source panics on a FEN that runs out of fields before its first failing field. It also panics on a placement that steps below rank 1 or places a piece at index 64 or beyond.
- MoveGeneration.MoveGenerator.GenerateMoves: requires `Generatable`.
  - Every square of the side to move's colour must hold a piece; the source panics otherwise.
  - Every pawn of the side to move must have its forward and capture squares on the board; the source indexes outside the arrays otherwise.
- The full-move number is accepted as parsed, including 0. The code checks only that it parses as a `u32`, although a FEN full-move number is meant to be positive.
- MoveGeneration.MoveGenerator: the generator holds a reference to a `Board` object, but the Rust generator owns its board by value. A caller that keeps the reference can change the board behind the generator. The generator's methods never change it, and `GenerateMoves`' contract speaks of the board as it is at the call.
- Whitespace splitting uses a fixed list of the Unicode `White_Space` characters.
