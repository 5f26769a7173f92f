# chui, modelled in Dafny

chui is a chess library written in Rust, together with two small terminal
trainers that drill board coordinates and square colours. The repository
keeps several generations of the same library side by side: the oldest
engine under `src/modules/`, an intermediate library under
`lib/chui_core/src/modules/`, and the newest one directly under
`lib/chui_core/src/` with its `Position` trait and four position stores. This
project models the rules core of each generation: coordinates and their
conversions, the bitmask constants, pieces, the boards and position stores
with their target generators and `apply_move`, moves and their setters, the
move-list generator, the command tables, the notation helpers of the
parsers, the FEN field builders, players, the game wrapper, and the
problem checking of the trainers.

Each source file is one Dafny module in a file of its own:

| module | models |
|---|---|
| `Coordinate` | `lib/chui_core/src/coordinate.rs` |
| `CoordMod` | `lib/chui_core/src/modules/coord/mod.rs` |
| `Bitmask` | `lib/chui_core/src/constants/bitmask.rs` |
| `Piece`, `PieceMod` | `lib/chui_core/src/modules/piece.rs`, `lib/chui_core/src/modules/piece/mod.rs` |
| `Geometry`, `BoardRules`, `BoardTargets`, `BoardKing`, `ModulesBoard` | `lib/chui_core/src/modules/board.rs` |
| `OlderBoardRules`, `OlderBoard` | `lib/chui_core/src/modules/board/mod.rs` |
| `OldestBoardRules`, `OldestBoard` | `src/modules/board.rs` |
| `PositionTrait` | `lib/chui_core/src/traits/position.rs` |
| `EnumPositionStore`, `EasyPositionStore`, `Easy1DPositionStore`, `ArrayBitPositionStore` | the four stores under `lib/chui_core/src/position/` |
| `CoreBoard` | `lib/chui_core/src/board.rs` |
| `ChessMove`, `ModulesChessMove`, `OldChessMove` | `lib/chui_core/src/chess_move.rs`, `lib/chui_core/src/modules/chess_move/mod.rs`, `src/modules/chess_move.rs` |
| `MoveGeneration` | `lib/chui_core/src/modules/move_generator.rs` |
| `ParserTrait`, `OldParser` | `lib/chui_core/src/traits/parser.rs`, `src/modules/parser.rs` |
| `Command`, `OldCommand` | `lib/chui_core/src/command.rs`, `src/modules/command.rs` |
| `Fen`, `BoardFen`, `FenFields`, `OldEngineFen` | the FEN builders of `crates/chui_core/src/modules/fen.rs`, `lib/chui_core/src/fen.rs`, the three game and engine `fen.rs` files, and `src/modules/engine/fen.rs` |
| `OldEngine` | `src/modules/engine.rs` |
| `Game` | `lib/chui_core/src/modules/game.rs` |
| `Player`, `OldPlayer` | `lib/chui_core/src/player.rs`, `src/modules/player.rs` |
| `Util` | `lib/chui_core/src/util.rs` |
| `ChuiTrainer`, `ChuiTrainerColor`, `ChuiTrainerCoord` | `bin/chui-trainer/src/lib.rs`, `color.rs`, `coord.rs` |
| `CoordinateTrainerCrate`, `CoordinateTrainerColor` | `crates/coordinate-trainer/src/lib.rs`, `color.rs` |
| `Errors`, `Text` | shared helpers: `Option`, `Result`, the error kinds, and string lemmas |

Structs that the source updates through `&mut self` are Dafny classes. A
board is an `array2` or `array` of optional pieces, mirrored by a ghost
sequence of cells, and each method is proved against a specification function
over that sequence. `Copy` values such as `Coord` and `Piece`, and every
function that only computes, are datatypes and functions. Rust's `u8` and
`usize` arithmetic is written out where it wraps or truncates. `u64`
bitmasks are sets of square indices.

A function that only computes (`ModulesChessMove.MoveText`,
`OldestBoardRules.PawnCoords`, `Fen.GetFen`, `Command.Lookup` and the like)
has no row of its own in the table below: the rows name the lemmas and
methods whose contracts state what it computes, such as `MoveTextSquares`
and `MoveTextEmpty` for `MoveText`, or `ContextLookup`, `ContextMiss` and
`LookupFirst` for `Lookup`.

## Model

| member | source | states |
|---|---|---|
| ArrayBitPositionStore.KindIndexRoundTrip | lib/chui_core/src/position/array_bit_position.rs:89-139 | the kind maps 0..5 ↔ King, Queen, Rook, Bishop, Knight, Pawn are mutual inverses, and an index of 6 or more is `IndexOutOfRange` |
| ArrayBitPositionStore.ColorIndexRoundTrip | lib/chui_core/src/position/array_bit_position.rs:109-147 | the colour maps 6 ↔ White and 7 ↔ Black are mutual inverses, and every other index is `IndexOutOfRange` |
| ArrayBitPositionStore.IdxFromKind | lib/chui_core/src/position/array_bit_position.rs:125-139 | a kind's mask index is below 6 |
| ArrayBitPositionStore.IdxFromColor | lib/chui_core/src/position/array_bit_position.rs:142-147 | a colour's mask index is 6 or 7 |
| ArrayBitPositionStore.FirstHit | lib/chui_core/src/position/array_bit_position.rs:150-177 | the search result is the first mask in range that meets the bits, with none before it; `None` when no mask in range meets them |
| ArrayBitPositionStore.FirstHitIs | lib/chui_core/src/position/array_bit_position.rs:150-177 | the least index whose mask meets the bits is the search result |
| ArrayBitPositionStore.DecodeHit | lib/chui_core/src/position/array_bit_position.rs:214-234 | a square reads as a piece of a kind and colour when their masks are the first kind mask and the first colour mask holding its bit, rebuilt on the square |
| ArrayBitPositionStore.DecodeMiss | lib/chui_core/src/position/array_bit_position.rs:214-234 | a square whose bit is in no kind mask reads as empty |
| ArrayBitPositionStore.SetSingleBit | lib/chui_core/src/position/array_bit_position.rs:180-209 | for a single bit, the bit ends up set exactly in the piece's kind and colour masks (in none for `None`), and no other bit of any mask changes |
| ArrayBitPositionStore.ToggleSetsClearBits | lib/chui_core/src/position/array_bit_position.rs:187-188 | `^=` on a mask that meets the argument flips the argument's bits: inside them the mask ends up holding exactly the bits it lacked, outside them it is unchanged; so a mask holding bit 0, hit by bits 0 and 1, ends up holding only bit 1 |
| ArrayBitPositionStore.GetAfterPut | lib/chui_core/src/position/array_bit_position.rs:214-263 | after a put on a square, the square reads back the piece rebuilt there (or nothing), and every other square reads as before |
| ArrayBitPositionStore.StandardBits | lib/chui_core/src/position/array_bit_position.rs:65-79 | the standard masks hold the kings on e1/e8, queens on d1/d8, rooks, bishops and knights on their corners, pawns on ranks 2 and 7, White on ranks 1-2, Black on ranks 7-8 |
| ArrayBitPositionStore.StandardMasksConsistent | lib/chui_core/src/position/array_bit_position.rs:65-79 | the six kind masks are pairwise disjoint, White and Black are disjoint, and the kind masks cover exactly the coloured squares |
| ArrayBitPositionStore.InitialDecodes | lib/chui_core/src/position/array_bit_position.rs:65-79 | read square by square, the standard masks are the standard position and the empty variant is the empty board |
| ArrayBitPositionStore.StandardBackDecodes | lib/chui_core/src/position/array_bit_position.rs:65-79 | on ranks 1 and 8 each file reads as its back-rank piece of the right colour |
| ArrayBitPositionStore.ArrayBitPosition.constructor | lib/chui_core/src/position/array_bit_position.rs:65-79 | the eight masks are the variant's initial masks |
| ArrayBitPositionStore.ArrayBitPosition.GetPieceKindFromBitmask | lib/chui_core/src/position/array_bit_position.rs:150-162 | the loop returns the kind of the first of masks 0..5 meeting the bits, or an error when none does |
| ArrayBitPositionStore.ArrayBitPosition.GetPieceColorFromBitmask | lib/chui_core/src/position/array_bit_position.rs:165-177 | the loop returns the colour of the first of masks 6 and 7 meeting the bits, or an error when neither does |
| ArrayBitPositionStore.ArrayBitPosition.SetPieceFromBitmask | lib/chui_core/src/position/array_bit_position.rs:180-209 | never an error; the masks become `SetPiece` of the old masks |
| ArrayBitPositionStore.ArrayBitPosition.GetPiece | lib/chui_core/src/position/array_bit_position.rs:214-234 | the piece decoded from the masks at the square's bit |
| ArrayBitPositionStore.ArrayBitPosition.PutPiece | lib/chui_core/src/position/array_bit_position.rs:255-263 | returns what `get_piece` reported before; the square's single bit moves into the piece's masks, or out of all of them |
| Bitmask.SingleBit | lib/chui_core/src/position/array_bit_position.rs:218 | the mask `1 << i` holds exactly the bit `i` |
| Bitmask.FileBits | lib/chui_core/src/constants/bitmask.rs:10-29 | `FILES[i]` holds exactly the bits whose index is `i` modulo 8 |
| Bitmask.RankBits | lib/chui_core/src/constants/bitmask.rs:31-50 | `RANKS[j]` holds exactly the bits `8j` to `8j + 7` |
| Bitmask.SquareBit | lib/chui_core/src/constants/bitmask.rs:10-50 | a file mask and a rank mask meet in exactly the bit `8j + i` of their square |
| Bitmask.SquareConstants | lib/chui_core/src/constants/bitmask.rs:57-190 | each of the 64 square constants is the single bit `8 (rank - 1) + file`; a1 is bit 0 and h8 bit 63 |
| Bitmask.LightSquareParity | lib/chui_core/src/constants/bitmask.rs:52-54 | a square is light exactly when its file and rank indices differ in parity, and dark when they agree |
| Bitmask.LightDarkPartition | lib/chui_core/src/constants/bitmask.rs:52-54 | light and dark squares are disjoint and together cover all 64 squares; a1 is dark |
| Bitmask.FilesDisjoint | lib/chui_core/src/constants/bitmask.rs:10-29 | two different file masks share no bit |
| Bitmask.RanksDisjoint | lib/chui_core/src/constants/bitmask.rs:31-50 | two different rank masks share no bit |
| Bitmask.FilesAndRanksCover | lib/chui_core/src/constants/bitmask.rs:10-50 | the eight file masks together cover all 64 bits, and so do the eight rank masks |
| BoardKing.AttackersFromExhausted | lib/chui_core/src/modules/board.rs:913-921 | one enemy piece whose own target list runs out of recursion depth makes the whole attacker search run out |
| BoardKing.NoEnemiesNoAttackers | lib/chui_core/src/modules/board.rs:913-921 | without enemy pieces nothing attacks a square and the search does not run out of depth |
| BoardKing.NoEnemiesKeepsAll | lib/chui_core/src/modules/board.rs:377-384 | without enemy pieces the attack filter keeps every ray square |
| BoardKing.KingTargetsAsWritten | lib/chui_core/src/modules/board.rs:366-438 | as written: a king reaches its neighbouring squares not held by its own colour and attacked by no enemy, plus the castling squares the flags give |
| BoardKing.KingCoordsParts | lib/chui_core/src/modules/board.rs:366-438 | a king's targets are its unattacked one-square rays followed by its castling squares |
| BoardKing.SafeSteps | lib/chui_core/src/modules/board.rs:369-384 | the unattacked rays of a king are exactly its neighbours not held by its own colour that no enemy attacks |
| BoardKing.FacingKingsExhausted | lib/chui_core/src/modules/board.rs:366-438 | with both kingside flags set and kings on e1 and e8, each king's target list needs the other's, at every depth: the recursion never ends |
| BoardKing.StandardKingsExhausted | lib/chui_core/src/modules/board/tests/test_standard_chess.rs:81-88 | on the standard setup both kings' targets run out of depth at every depth, where the test expects no move for e1 |
| BoardKing.LoneWhiteKing | lib/chui_core/src/modules/board/tests/test_piece_coords.rs:8-34 | the tests' board: the empty variant, all flags set, one white king on the square |
| BoardKing.LoneKingE4Rays | lib/chui_core/src/modules/board/tests/test_piece_coords.rs:76-83 | a lone king on e4 has all eight one-square rays |
| BoardKing.LoneKingCastlesAnywhere | lib/chui_core/src/modules/board.rs:392-414 | with the flags set and no enemy, the castling code offers c1 and g1 wherever the king stands |
| BoardKing.LoneKingE4AsWritten | lib/chui_core/src/modules/board/tests/test_piece_coords.rs:76-83 | as written, the lone king on e4 gets its 8 neighbours plus c1 and g1: 10 squares where the test expects 8 |
| BoardKing.KingsideFlagGivesQueensideSquare | lib/chui_core/src/modules/board.rs:392-402 | with only the kingside flag, the king on e1 is offered c1 |
| BoardKing.SafeSquares | lib/chui_core/src/modules/board.rs:377-384 | the squares of the list, in order, that no enemy piece attacks |
| BoardKing.IntendedKingTargets | lib/chui_core/src/modules/board.rs:366-438 | as intended: the safe neighbours not held by its own colour, and castling only from e1/e8 onto an empty, unattacked g (kingside flag) or c (queenside flag) with the squares between empty |
| BoardKing.IntendedLoneKingE4 | lib/chui_core/src/modules/board/tests/test_piece_coords.rs:76-83 | the corrected king alone on e4 gets exactly its eight neighbours |
| BoardKing.NoEnemiesSafe | lib/chui_core/src/modules/board.rs:377-384 | without enemy pieces every square is safe |
| BoardKing.StandardKingE1Rays | lib/chui_core/src/modules/board/tests/test_standard_chess.rs:81-88 | on the standard setup every neighbour of e1 holds a white piece, so the king has no ray |
| BoardKing.IntendedStandardKingE1 | lib/chui_core/src/modules/board/tests/test_standard_chess.rs:81-88 | the corrected king on e1 of the standard setup has no move, as the test expects |
| BoardRules.InitialState | lib/chui_core/src/modules/board.rs:66-85 | all four castling flags are set, even on the empty board, there is no en passant square, and the empty variant holds no piece |
| BoardRules.Pieces | lib/chui_core/src/modules/board.rs:282-288 | exactly the pieces on the board of the same kind and colour as the given piece, a1 to h8 |
| BoardRules.MoveCoords | lib/chui_core/src/modules/piece.rs:396-406 | the dispatch on the kind; only the king's generator can run out of recursion depth |
| BoardRules.KingCoords | lib/chui_core/src/modules/board.rs:366-438 | with no recursion depth left the king gives no squares and reports that the depth ran out |
| BoardRules.CastleSide | lib/chui_core/src/modules/board.rs:392-436 | one castling test adds its target exactly when the flag is set and neither listed square is attacked by the other colour, and adds nothing else |
| BoardRules.ReachingMembers | lib/chui_core/src/modules/board.rs:219-228 | the loop of `apply_move` keeps, in order, exactly the pieces whose targets contain the move's target |
| BoardRules.CandidatesMembers | lib/chui_core/src/modules/board.rs:209-228 | the candidates are exactly the board's pieces of the move's kind and colour whose targets contain the target square |
| BoardRules.UnattackedMembers | lib/chui_core/src/modules/board.rs:377-384 | a king square survives the filter exactly when it is one of the ray squares and no enemy piece attacks it |
| BoardRules.AttackersMembers | lib/chui_core/src/modules/board.rs:913-921 | `get_pieces_attacking_coord` returns exactly the pieces of the other colour whose targets contain the square |
| BoardRules.RelocatedMovesOnePiece | lib/chui_core/src/modules/board.rs:257-354 | `replace_piece` puts the piece, retagged, on the target, empties its own square, changes no other square, and returns what stood on the target (nothing when the piece stays in place) |
| BoardRules.SquareOf | lib/chui_core/src/modules/board.rs:331-341 | the square of cell `i` is the one whose index is `i`, as `Coord::try_from(i)` gives it |
| BoardRules.RetaggedTagsEveryPiece | lib/chui_core/src/modules/board.rs:331-341 | after `set_coords` every square holds a piece exactly when it did before, of the same kind and colour, tagged with that square; a second call changes nothing |
| BoardRules.RaysSnoc | lib/chui_core/src/modules/board.rs:441-478 | one more direction at the end adds its ray at the end |
| BoardRules.WalkingStart | lib/chui_core/src/modules/board.rs:689-692 | a walk starts one step from the piece with its whole move range |
| BoardRules.WalkingOff | lib/chui_core/src/modules/board.rs:694-708 | off the board (the wrapped index fails `Coord::new`) or out of range, the walk has collected the whole ray |
| BoardRules.WalkingBlocked | lib/chui_core/src/modules/board.rs:695-701 | an occupied square ends the walk and is kept only when it holds the other colour |
| BoardRules.WalkingOpen | lib/chui_core/src/modules/board.rs:702-710 | an empty square is kept and the walk steps on with one less to go |
| BoardRules.StepSigned | lib/chui_core/src/modules/board.rs:689-911 | a step of at most one from a board index lands at the signed sum, near the board |
| BoardTargets.LoneBoard | lib/chui_core/src/modules/board/tests/test_piece_coords.rs:26-34 | the tests' board: the given piece on its own square and nothing else |
| BoardTargets.EmptyRay | lib/chui_core/src/modules/board.rs:689-911 | a ray whose squares are all empty runs to the edge or its range |
| BoardTargets.LoneRayFrom | lib/chui_core/src/modules/board.rs:689-911 | a ray walking away from a square never comes back to it |
| BoardTargets.LoneRay | lib/chui_core/src/modules/board.rs:689-911 | a piece standing alone has the open ray in each direction |
| BoardTargets.RookRays | lib/chui_core/src/modules/board.rs:457-466 | a rook collects its rays up, right, down, left, in that order |
| BoardTargets.BishopRays | lib/chui_core/src/modules/board.rs:469-478 | a bishop collects its rays up-left, up-right, down-right, down-left, in that order |
| BoardTargets.LoneE4Ray | lib/chui_core/src/modules/board.rs:689-911 | a long-range piece alone on e4 slides to the edge in every direction |
| BoardTargets.LoneRookE4 | lib/chui_core/src/modules/board/tests/test_piece_coords.rs:46-53 | a rook alone on e4 reaches e5-e8, f4-h4, e3-e1, d4-a4: 14 squares |
| BoardTargets.LoneBishopE4 | lib/chui_core/src/modules/board/tests/test_piece_coords.rs:66-73 | a bishop alone on e4 reaches the 13 squares of its diagonals |
| BoardTargets.KnightJumpsE4 | lib/chui_core/src/modules/board/tests/test_piece_coords.rs:56-63 | the squares a knight's jump from e4 are d6, d2, c5, c3, f6, f2, g5, g3 |
| BoardTargets.LoneKnightE4 | lib/chui_core/src/modules/board/tests/test_piece_coords.rs:56-63 | a knight alone on e4 reaches exactly those eight squares |
| BoardTargets.StandardBackRowRay | lib/chui_core/src/modules/board/tests/test_standard_chess.rs:41-118 | on the standard setup a back-row piece has no ray in any direction |
| BoardTargets.RayHeldStart | lib/chui_core/src/modules/board.rs:694-708 | a ray whose first square is off the board or held by the mover's colour is empty |
| BoardTargets.StandardSlidersHemmed | lib/chui_core/src/modules/board/tests/test_standard_chess.rs:41-278 | the rooks, bishops and queens of the standard setup have no move |
| BoardTargets.StandardKnights | lib/chui_core/src/modules/board/tests/test_standard_chess.rs:51-268 | a standard knight reaches the two squares of the third (sixth) rank next to its file |
| BoardTargets.StandardPawns | lib/chui_core/src/modules/board/tests/test_standard_chess.rs:121-358 | a standard pawn reaches one and two squares ahead, in that order |
| ChessMove.Fresh | lib/chui_core/src/chess_move.rs:176-213 | a new move keeps the side to move and has no squares, piece, move type, castling, check or en passant square, and no input |
| ChessMove.DefaultPiecesBuild | lib/chui_core/src/chess_move.rs:496-525 | the pieces built with `unwrap` in the castling and pawn setters are always built, so those setters never panic |
| ChessMove.CaptureType | lib/chui_core/src/chess_move.rs:540-553 | a capture exists exactly for a pawn move or a piece move, a pawn move becomes a pawn capture, anything else is an invalid move |
| ChessMove.ParseFile | lib/chui_core/src/chess_move.rs:410-422 | a file letter is accepted exactly when it is in a..h, and the index maps back to the same letter; otherwise an invalid file |
| ChessMove.ParseRank | lib/chui_core/src/chess_move.rs:426-438 | a rank digit is accepted exactly when it is in 1..8, and the index is the digit less one; otherwise an invalid rank |
| ChessMove.Beside | lib/chui_core/src/chess_move.rs:655-736 | the square beside the target exists exactly when its file stays on the board, and it keeps the target's rank |
| ChessMove.EnPassantIff | lib/chui_core/src/chess_move.rs:655-736 | an en passant square is set exactly for a pawn double step with an opposing pawn beside the target; it lies on the source file halfway between source and target; otherwise the move is unchanged and an en passant error is returned |
| ChessMove.EnPassantNeverOnEmptyPosition | lib/chui_core/src/chess_move.rs:655-736 | on a board without pieces no move sets an en passant square |
| ChessMove.Invalidated | lib/chui_core/src/chess_move.rs:901-904 | invalidating gives a new move for the same side to move, with an invalid move error |
| ChessMove.ValidateAlwaysRefuses | lib/chui_core/src/chess_move.rs:790-890 | validation always ends in an invalid move error; the move is reset exactly when it passes the checks on target, source and reachable squares, and is otherwise unchanged |
| ChessMove.MoveTextEmpty | lib/chui_core/src/chess_move.rs:327-330 | the move text is empty exactly when the piece or the move type is missing |
| ChessMove.MoveTextAgreement | lib/chui_core/src/chess_move.rs:327-406 | the text as written and the corrected text agree whenever there is a target square or no source square |
| ChessMove.MoveTextCastling | lib/chui_core/src/chess_move.rs:327-406 | a castling move reads "White King castles" and then "King side" or "Queen side" |
| ChessMove.DanglingTo | lib/chui_core/src/chess_move.rs:327-406 | a move with a source square and no target square ends in a dangling " to " as written; the corrected text ends at the source square |
| ChessMove.CaptureWithoutSource | lib/chui_core/src/chess_move.rs:327-406 | a capture given only by its target reads "<piece> captures on <target>" in both readings |
| ChessMove.CaptureOnce | lib/chui_core/src/chess_move.rs:540-553 | set_capture succeeds exactly on a pawn or piece move and gives the matching capture; a refused call changes nothing; a second capture is refused |
| ChessMove.RecolorSets | lib/chui_core/src/chess_move.rs:471-486 | recolouring sets the colour of the moving piece and the promotion piece, keeps the kind and every other field, and is idempotent |
| ChessMove.WithPieceKind | lib/chui_core/src/chess_move.rs:450-456 | setting the piece gives a pawn move exactly for a pawn and a piece move for any other kind |
| ChessMove.CastledShape | lib/chui_core/src/chess_move.rs:496-514 | castling is the white king's Castle move on exactly the chosen side, and a castling move cannot become a capture |
| ChessMove.CheckExclusive | lib/chui_core/src/chess_move.rs:556-563 | a move is never both check and mate, and the last of set_check and set_check_mate wins |
| ChessMove.ChessMove.constructor | lib/chui_core/src/chess_move.rs:208-213 | the new object holds the fresh move for the side to move |
| ChessMove.ChessMove.SetInputMove | lib/chui_core/src/chess_move.rs:445-447 | only the input text changes |
| ChessMove.ChessMove.SetPiece | lib/chui_core/src/chess_move.rs:450-456 | the piece is set and the move type follows its kind |
| ChessMove.ChessMove.SetMoveType | lib/chui_core/src/chess_move.rs:459-461 | only the move type changes |
| ChessMove.ChessMove.SetColor | lib/chui_core/src/chess_move.rs:471-486 | the new state is the recoloured move |
| ChessMove.ChessMove.SetCastlingKing | lib/chui_core/src/chess_move.rs:496-500 | the new state is the king-side castling move |
| ChessMove.ChessMove.SetCastlingQueen | lib/chui_core/src/chess_move.rs:510-514 | the new state is the queen-side castling move |
| ChessMove.ChessMove.SetPawnMove | lib/chui_core/src/chess_move.rs:522-525 | the piece becomes a pawn, making a pawn move |
| ChessMove.ChessMove.SetPieceMove | lib/chui_core/src/chess_move.rs:528-531 | the piece is set and the move type is a piece move whatever the kind |
| ChessMove.ChessMove.SetCapture | lib/chui_core/src/chess_move.rs:540-553 | state and result are those of the capture function |
| ChessMove.ChessMove.SetCheck | lib/chui_core/src/chess_move.rs:556-558 | only the check mark changes, to check |
| ChessMove.ChessMove.SetCheckMate | lib/chui_core/src/chess_move.rs:561-563 | only the check mark changes, to mate |
| ChessMove.ChessMove.SetPromotion | lib/chui_core/src/chess_move.rs:566-568 | only the promotion piece changes |
| ChessMove.ChessMove.SetFromCoord | lib/chui_core/src/chess_move.rs:571-573 | only the source square changes |
| ChessMove.ChessMove.SetToCoord | lib/chui_core/src/chess_move.rs:610-612 | only the target square changes |
| ChessMove.ChessMove.SetFromCoordFile | lib/chui_core/src/chess_move.rs:580-590 | a valid file letter sets the source file; an invalid one returns an invalid file error and changes nothing |
| ChessMove.ChessMove.SetFromCoordRank | lib/chui_core/src/chess_move.rs:597-607 | a valid rank digit sets the source rank; an invalid one returns an invalid rank error and changes nothing |
| ChessMove.ChessMove.SetToCoordFile | lib/chui_core/src/chess_move.rs:619-629 | a valid file letter sets the target file; an invalid one returns an invalid file error and changes nothing |
| ChessMove.ChessMove.SetToCoordRank | lib/chui_core/src/chess_move.rs:636-646 | a valid rank digit sets the target rank; an invalid one returns an invalid rank error and changes nothing |
| ChessMove.ChessMove.SetEnPassant | lib/chui_core/src/chess_move.rs:655-736 | state and result are those of the en passant function |
| ChessMove.ChessMove.ProcessMove | lib/chui_core/src/chess_move.rs:748-772 | the pieces take the colour of the game's side to move, and the call succeeds |
| ChessMove.ChessMove.ValidateMoveForBoard | lib/chui_core/src/chess_move.rs:790-890 | state and result are those of the validation function |
| ChessMove.ChessMove.ClearSource | lib/chui_core/src/chess_move.rs:176-197 | the source square, file, rank and piece return to their defaults, nothing else changes |
| ChessMove.ChessMove.ClearTarget | lib/chui_core/src/chess_move.rs:176-197 | the target square, file, rank and piece return to their defaults, nothing else changes |
| ChessMove.ChessMove.ClearMarks | lib/chui_core/src/chess_move.rs:176-197 | check, promotion and castling return to their defaults, nothing else changes |
| ChessMove.ChessMove.ClearInput | lib/chui_core/src/chess_move.rs:176-197 | en passant, move type, input text, parse flag and errors return to their defaults |
| ChessMove.ChessMove.ClearText | lib/chui_core/src/chess_move.rs:176-197 | input text, parse flag and errors return to their defaults |
| ChessMove.ChessMove.Invalidate | lib/chui_core/src/chess_move.rs:901-904 | the move becomes the fresh move for the old side to move, and an invalid move error is returned |
| ChuiTrainer.CommandWords | bin/chui-trainer/src/lib.rs:319-337 | each command is selected by exactly its words, matched exactly |
| ChuiTrainer.OtherIsInput | bin/chui-trainer/src/lib.rs:319-337 | any line that is no command word is an answer |
| ChuiTrainer.QuitAt | bin/chui-trainer/src/lib.rs:97-118 | the position of the first quit line: no line before it quits, and it quits when it exists |
| ChuiTrainer.Processed | bin/chui-trainer/src/lib.rs:319-343 | the command type is stored only when asked, and nothing else changes |
| ChuiTrainer.CoordinateTrainer.constructor | bin/chui-trainer/src/lib.rs:71-86 | the new trainer is in the default state |
| ChuiTrainer.CoordinateTrainer.ProcessCommand | bin/chui-trainer/src/lib.rs:319-343 | the command of the input is returned, and stored only when asked |
| ChuiTrainer.CoordinateTrainer.Run | bin/chui-trainer/src/lib.rs:93-121 | the loop reads lines up to and including the first quit line, or all of them; it ends on a quit; the last line read is the input and its command is stored; the score lists and names are unchanged |
| ChuiTrainerColor.DarkSquareMask | bin/chui-trainer/src/color.rs:228-250 | the parity rule for dark squares agrees with the board's dark-square mask |
| ChuiTrainerColor.DarkSquareAlternates | bin/chui-trainer/src/color.rs:228-250 | a1 is dark, and one step along a file or a rank changes the colour |
| ChuiTrainerColor.AnswerSpellings | bin/chui-trainer/src/color.rs:253-263 | 1 and light in any case answer light, 2 and dark in any case answer dark, and nothing else does |
| ChuiTrainerColor.AnswersExclusive | bin/chui-trainer/src/color.rs:253-263 | no input answers both colours |
| ChuiTrainerColor.RecordedNamesJudgement | bin/chui-trainer/src/color.rs:253-320 | the recorded answer is the square's colour name exactly when the answer is judged correct |
| ChuiTrainerColor.AlgebraicCoordinateNames | bin/chui-trainer/src/color.rs:272-282 | a drawn square's name is its file letter and rank digit, and an unset square reads (0, 0) |
| ChuiTrainerColor.SolvedRecordsOne | bin/chui-trainer/src/color.rs:253-269 | solving records exactly one answer, in the correct list exactly when it names the square's colour, keeps the earlier records and clears the square |
| ChuiTrainerColor.ColorTrainer.constructor | bin/chui-trainer/src/color.rs:41-55 | the new trainer is in the default state |
| ChuiTrainerColor.ColorTrainer.GenerateProblem | bin/chui-trainer/src/color.rs:214-220 | the square is cleared and set to the two draws |
| ChuiTrainerColor.ColorTrainer.SetColorCoordinate | bin/chui-trainer/src/color.rs:223-225 | only the square changes |
| ChuiTrainerColor.ColorTrainer.EvaluateAnswer | bin/chui-trainer/src/color.rs:228-250 | the expected colour is set to the square's colour by parity, nothing else changes |
| ChuiTrainerColor.ColorTrainer.SolveAnswer | bin/chui-trainer/src/color.rs:253-269 | the new state is the solved state |
| ChuiTrainerColor.ColorTrainer.GetAlgebraicCoordinate | bin/chui-trainer/src/color.rs:272-282 | the result is the square's name |
| ChuiTrainerColor.ColorTrainer.ClearSavedColorCoordinate | bin/chui-trainer/src/color.rs:285-288 | the square and the expected colour return to their defaults |
| ChuiTrainerColor.ColorTrainer.AddCorrect | bin/chui-trainer/src/color.rs:292-304 | the square's name and the recorded answer are appended to the correct list, nothing else changes |
| ChuiTrainerColor.ColorTrainer.AddIncorrect | bin/chui-trainer/src/color.rs:308-320 | the square's name and the recorded answer are appended to the incorrect list, nothing else changes |
| ChuiTrainerCoord.FileLetter | bin/chui-trainer/src/coord.rs:395-430 | the name of file n counted from 1 is the n-th file letter |
| ChuiTrainerCoord.JudgedDecimal | bin/chui-trainer/src/coord.rs:352-384 | an answer written in decimal parses back to its number, and is judged correct exactly for that number |
| ChuiTrainerCoord.ParseDecimal | bin/chui-trainer/src/coord.rs:357 | unsigned digits parse to their value when it fits in a usize |
| ChuiTrainerCoord.JudgedFileLetter | bin/chui-trainer/src/coord.rs:352-384 | a file letter is no number, and is judged correct exactly for its file's number |
| ChuiTrainerCoord.JudgedOther | bin/chui-trainer/src/coord.rs:352-384 | an input that is neither a number nor a file letter is judged incorrect |
| ChuiTrainerCoord.FileOfLetters | bin/chui-trainer/src/coord.rs:366-375 | the file lookup finds exactly the file letters, each at its own number |
| ChuiTrainerCoord.AcceptedAnswerInRange | bin/chui-trainer/src/coord.rs:290-334 | an accepted draw gives sides in 1..8, no subtraction below 0 and an answer in 1..8 |
| ChuiTrainerCoord.RejectedDraws | bin/chui-trainer/src/coord.rs:290-334 | the rejected draws are exactly the sums above 8 and the differences of equal sides |
| ChuiTrainerCoord.OperandTextNames | bin/chui-trainer/src/coord.rs:395-430 | every rendering of an operand, as a number or a file letter, names that operand |
| ChuiTrainerCoord.DefaultSessionNames | bin/chui-trainer/src/coord.rs:51-86 | by default the three sessions have their own names and every other command type has the unknown name |
| ChuiTrainerCoord.RefilledCached | bin/chui-trainer/src/coord.rs:442-454 | the rendered expression is cached: rendering again changes nothing, so the text shown is the text recorded |
| ChuiTrainerCoord.GeneratedRenderable | bin/chui-trainer/src/coord.rs:290-334 | a freshly generated problem can be rendered in every session |
| ChuiTrainerCoord.SolvedRecordsOne | bin/chui-trainer/src/coord.rs:352-384 | solving records exactly one answer, in the correct list exactly when the input names the answer, and keeps the earlier records |
| ChuiTrainerCoord.AlphaNumericTrainer.constructor | bin/chui-trainer/src/coord.rs:51-74 | the new trainer is in the default state |
| ChuiTrainerCoord.AlphaNumericTrainer.GetNameVerbose | bin/chui-trainer/src/coord.rs:79-86 | the result is the session's name |
| ChuiTrainerCoord.AlphaNumericTrainer.GenerateProblem | bin/chui-trainer/src/coord.rs:290-334 | the loop stops at the first accepted draw, rejecting all before it, and the problem is that draw |
| ChuiTrainerCoord.AlphaNumericTrainer.EvaluateAnswer | bin/chui-trainer/src/coord.rs:341-347 | the answer is set to the sum or difference of the sides, nothing else changes |
| ChuiTrainerCoord.AlphaNumericTrainer.SolveAnswer | bin/chui-trainer/src/coord.rs:352-384 | the new state is the solved state |
| ChuiTrainerCoord.AlphaNumericTrainer.SolveFileLetter | bin/chui-trainer/src/coord.rs:366-375 | an input that is a file letter is recorded, correct exactly when its file is the answer; any other input changes nothing |
| ChuiTrainerCoord.AlphaNumericTrainer.GetLhs | bin/chui-trainer/src/coord.rs:395-407 | the result is the rendering of the left side |
| ChuiTrainerCoord.AlphaNumericTrainer.GetRhs | bin/chui-trainer/src/coord.rs:418-430 | the result is the rendering of the right side |
| ChuiTrainerCoord.AlphaNumericTrainer.GetOperation | bin/chui-trainer/src/coord.rs:433-439 | the result is the operator's text |
| ChuiTrainerCoord.AlphaNumericTrainer.GetExpression | bin/chui-trainer/src/coord.rs:442-454 | the missing parts are rendered and cached, and the result is the expression's text |
| ChuiTrainerCoord.AlphaNumericTrainer.ClearSavedExpression | bin/chui-trainer/src/coord.rs:457-461 | the cached parts are cleared |
| ChuiTrainerCoord.AlphaNumericTrainer.AddCorrect | bin/chui-trainer/src/coord.rs:465-473 | the expression and the input are appended to the correct list |
| ChuiTrainerCoord.AlphaNumericTrainer.AddIncorrect | bin/chui-trainer/src/coord.rs:477-485 | the expression and the input are appended to the incorrect list |
| Command.LookupFirst | lib/chui_core/src/command.rs:126-142 | the lookup returns the kind of the first part that has the alias, and nothing exactly when no part has it |
| Command.AliasesOf | lib/chui_core/src/command.rs:98-107 | the aliases of a part list are exactly the aliases of its parts |
| Command.OwnedLookup | lib/chui_core/src/command.rs:126-142 | when every alias belongs to one kind, the lookup gives a kind exactly when some part of that kind has the alias, whatever the order of the parts |
| Command.OwnedDistinct | lib/chui_core/src/command.rs:227-385 | when every alias belongs to one kind and no two parts share a kind, no alias is in two parts |
| Command.FindCommand | lib/chui_core/src/command.rs:132-139 | the nested loops return the first-match lookup of the alias |
| Command.Parts | lib/chui_core/src/command.rs:227-385 | a context holds one part per kind, in the order of the kinds, each with that kind's aliases |
| Command.BuildCommands | lib/chui_core/src/command.rs:227-385 | the table has the Main and SwitchParser contexts and no other |
| Command.Command.constructor | lib/chui_core/src/command.rs:119-123 | the new table is the built table |
| Command.Command.ProcessCommand | lib/chui_core/src/command.rs:126-142 | a context without parts gives nothing; otherwise the result is the first-match lookup in that context |
| Command.Command.RebuildCommands | lib/chui_core/src/command.rs:147-149 | the whole table is replaced by the built table |
| Command.AliasOwner | lib/chui_core/src/command.rs:227-385 | every alias of a kind's part stands for that kind, so no two kinds share an alias |
| Command.PartsOwned | lib/chui_core/src/command.rs:227-385 | every alias of every part of a context stands for that part's kind |
| Command.ContextLookup | lib/chui_core/src/command.rs:126-142 | in a context, an alias selects a kind exactly when it is one of that kind's aliases and the kind is in the context |
| Command.ContextMiss | lib/chui_core/src/command.rs:126-142 | a context finds nothing exactly when none of its kinds has the alias |
| Command.ContextsDistinct | lib/chui_core/src/command.rs:227-385 | within each context no alias belongs to two parts |
| Command.MainShortcuts | lib/chui_core/src/command.rs:233-313 | in Main, q and quit quit, h, dh, help and display help show help, and MOVE is a move |
| Command.NotAnAlias | lib/chui_core/src/command.rs:126-142 | text that is no alias of any kind selects nothing in any context |
| Command.MainCaseSensitive | lib/chui_core/src/command.rs:133-137 | matching is exact: move, Q, QUIT and Help select nothing in Main |
| Command.SwitchParserDigit | lib/chui_core/src/command.rs:319-359 | in SwitchParser the digit n selects the n-th parser |
| Command.BackOnlyInSwitchParser | lib/chui_core/src/command.rs:233-380 | the back aliases go back in SwitchParser and select nothing in Main |
| CoordMod.New | lib/chui_core/src/modules/coord/mod.rs:29-45 | succeeds exactly unless file or rank is 255, keeping them; a file of 255 is `InvalidFile` before the rank is looked at |
| CoordMod.ToU8Coord | lib/chui_core/src/modules/coord/mod.rs:48-50 | the pair rebuilds the same coordinate through `new` |
| CoordMod.ToStringCoord | lib/chui_core/src/modules/coord/mod.rs:53-55 | both parts are decimal numerals whose values are the file and the rank |
| CoordMod.ToCharCoord | lib/chui_core/src/modules/coord/mod.rs:58-64 | for file and rank up to 9, the digit characters of file and rank |
| CoordMod.ToAlphanumericCoord | lib/chui_core/src/modules/coord/mod.rs:66-73 | for files up to 7, the file letter 'a'..'h' and the rank plus 1 |
| CoordMod.TryFromPair | lib/chui_core/src/modules/coord/mod.rs:76-114 | a component that is not a byte is `InvalidTypeConversion`, the file first; two bytes behave like `new` |
| CoordMod.TryFromPairAccepts | lib/chui_core/src/modules/coord/mod.rs:76-114 | a pair is accepted exactly when both components are 0..254 |
| CoordMod.U8RoundTrip | lib/chui_core/src/modules/coord/mod.rs:29-50 | `to_u8_coord` returns the inputs of `new` |
| CoordMod.ToStringCoordInjective | lib/chui_core/src/modules/coord/mod.rs:53-55 | different coordinates give different string pairs |
| Coordinate.New | lib/chui_core/src/coordinate.rs:29-58 | succeeds exactly when file and rank are both at most 7, keeping them; a bad file is `InvalidFile` before the rank is looked at, a bad rank `InvalidRank` |
| Coordinate.Zero | lib/chui_core/src/coordinate.rs:61-63 | the square a1, the one `new(0, 0)` gives |
| Coordinate.SetFile | lib/chui_core/src/coordinate.rs:80-100 | succeeds exactly for values up to 7 and then changes only the file; a rejected value is `InvalidFile` and leaves the coordinate unchanged |
| Coordinate.SetRank | lib/chui_core/src/coordinate.rs:105-123 | as written: succeeds exactly for values up to 7 and changes only the rank; a rejected value leaves the coordinate unchanged, 8..254 give `InvalidRank` |
| Coordinate.SetRankNicheReportsFile | lib/chui_core/src/coordinate.rs:117-121 | `set_rank(255)` reports `InvalidFile` |
| Coordinate.SetRankChecked | lib/chui_core/src/coordinate.rs:105-123 | as intended: every rejected rank is `InvalidRank`, with the coordinate unchanged |
| Coordinate.ToU8Index | lib/chui_core/src/coordinate.rs:126-128 | the index pair rebuilds the same coordinate through `new` |
| Coordinate.ToCharU8Coord | lib/chui_core/src/coordinate.rs:131-133 | the letter is 'a' plus the file and the number is the rank plus 1, within 'a'..'h' and 1..8 |
| Coordinate.ToStringShape | lib/chui_core/src/coordinate.rs:144-152 | `Display` gives two characters: the file letter, then the digit of rank + 1 |
| Coordinate.ToStringInjective | lib/chui_core/src/coordinate.rs:144-152 | two coordinates that print the same are equal |
| Coordinate.TryFromNonMax | lib/chui_core/src/coordinate.rs:155-161 | the (NonMaxU8, NonMaxU8) conversion succeeds exactly when both are at most 7 |
| Coordinate.TryFromCharU8 | lib/chui_core/src/coordinate.rs:163-169 | as written: the low byte of the char, minus 'a', and the rank minus 1, both wrapping, must be valid; this holds exactly for low bytes 'a'..'h' and ranks 1..8 |
| Coordinate.TryFromCharU8AcceptsNonAscii | lib/chui_core/src/coordinate.rs:166-168 | the char U+0161 with rank 1 is accepted as a1 |
| Coordinate.TryFromCharU8Checked | lib/chui_core/src/coordinate.rs:163-169 | as intended: succeeds exactly for 'a'..'h' and 1..8, giving file letter − 'a' and rank − 1 |
| Coordinate.TryFromCharChar | lib/chui_core/src/coordinate.rs:233-239 | as written, both chars count by their low byte: succeeds exactly when the file's low byte is 'a'..'h' and the rank's is '1'..'8', giving their offsets from 'a' and '1' |
| Coordinate.TryFromCharCharOnBytes | lib/chui_core/src/coordinate.rs:233-239 | on chars below U+0100 it succeeds exactly for 'a'..'h' and '1'..'8', and then agrees with the intended (char, u8) conversion |
| Coordinate.TryFromCharCharAcceptsNonAscii | lib/chui_core/src/coordinate.rs:233-239 | ('a', U+0131) and (U+0161, '1') are both read as a1 |
| Coordinate.TryFromStrU8 | lib/chui_core/src/coordinate.rs:171-185 | an empty string is `InvalidCoords`; otherwise it succeeds exactly when the low byte of the first char is 'a'..'h' and the rank is 1..8, with the result of the (char, u8) conversion as written |
| Coordinate.TryFromStrU8AcceptsNonAscii | lib/chui_core/src/coordinate.rs:171-185 | ("š", 1) is read as a1 |
| Coordinate.TryFromStr | lib/chui_core/src/coordinate.rs:187-209 | more than two bytes or fewer than two chars is `InvalidCoords`; success exactly for "a1".."h8" |
| Coordinate.TryFromStrStr | lib/chui_core/src/coordinate.rs:211-231 | a part longer than one byte or empty is `InvalidCoords`; success exactly for one letter 'a'..'h' and one digit '1'..'8' |
| Coordinate.TryFromIndex | lib/chui_core/src/coordinate.rs:241-257 | an index of 64 or more is `IndexOutOfRange`; a smaller one gives the square whose `8 * rank + file` it is |
| Coordinate.ToBitmask | lib/chui_core/src/coordinate.rs:282-286 | `FILES[file] & RANKS[rank]` is the single bit of the square's index |
| Coordinate.FromBitmaskLoop | lib/chui_core/src/coordinate.rs:259-280 | the two searching loops compute the file and rank of the first masks met above 1 (0 when none) |
| Coordinate.FirstAboveOne | lib/chui_core/src/coordinate.rs:264-276 | the loop's stopping index: the first mask met above 1 after `i`, with none met before it |
| Coordinate.MaskIndexAt | lib/chui_core/src/coordinate.rs:264-276 | when a mask meets exactly one of eight masks, the search settles on it, except that a mask of value at most 1 falls through to index 0 |
| Coordinate.SquareAgainstMasks | lib/chui_core/src/coordinate.rs:259-286 | a square's bit meets a file (rank) mask only at its own file (rank) |
| Coordinate.BitmaskRoundTrip | lib/chui_core/src/coordinate.rs:259-286 | `Coord::from(u64::from(c)) == c` for all 64 squares, a1 included through the fall-through to index 0 |
| Coordinate.EqFailsOnError | lib/chui_core/src/coordinate.rs:288-322 | the comparisons with tuples and strings are false whenever the conversion fails, and otherwise compare with its result |
| Coordinate.StringRoundTrip | lib/chui_core/src/coordinate.rs:144-209 | parsing the printed coordinate gives it back, and it compares equal to its own text |
| Coordinate.EqCharU8 | lib/chui_core/src/coordinate.rs:294-298 | a coordinate equals a (char, u8) pair exactly when the char's low byte is 'a' plus its file and the rank is its rank plus one |
| Coordinate.CharU8RoundTrip | lib/chui_core/src/coordinate.rs:131-169 | `TryFrom<(char, u8)>` inverts `to_char_u8_coord`, and the coordinate compares equal to that pair |
| Coordinate.CoordIndexRoundTrip | lib/chui_core/src/coordinate.rs:241-257 | every square comes back from its own index |
| Coordinate.IndexRoundTrip | lib/chui_core/src/coordinate.rs:241-257 | every index below 64 converts, and back to the same index |
| CoordinateTrainerCrate.ProcessedState | crates/coordinate-trainer/src/lib.rs:309-333 | the command type is stored only when asked, and nothing else changes |
| CoordinateTrainerCrate.CoordinateTrainer.constructor | crates/coordinate-trainer/src/lib.rs:70-91 | the new trainer is in the default state |
| CoordinateTrainerCrate.CoordinateTrainer.ProcessCommand | crates/coordinate-trainer/src/lib.rs:309-333 | the command of the input is returned, and stored only when asked |
| CoordinateTrainerCrate.CoordinateTrainer.Run | crates/coordinate-trainer/src/lib.rs:96-124 | the loop reads lines up to and including the first quit line, or all of them; it ends on a quit; the last line read is the input and its command is stored; the score lists are unchanged |
| CoordinateTrainerColor.ColorCommandNarrows | crates/coordinate-trainer/src/color.rs:277-291 | the session's help and quit words are the top-level trainer's, and every other line is an answer |
| CoordinateTrainerColor.TrainedQuitResets | crates/coordinate-trainer/src/color.rs:63-86 | a session that reads a quit line ends in the default state |
| CoordinateTrainerColor.TrainedCounts | crates/coordinate-trainer/src/color.rs:63-86 | without a quit line every answer line records one answer, the earlier records are kept and the session type is unchanged |
| CoordinateTrainerColor.Round | crates/coordinate-trainer/src/color.rs:70-80 | an answer line records exactly one answer, in the correct list exactly when it names the drawn square's colour, and clears the square; a help line records nothing and leaves the drawn square; earlier records, the input line and the session type are kept |
| CoordinateTrainerColor.ColorTrainer.constructor | crates/coordinate-trainer/src/color.rs:36-60 | the new trainer is in the default state |
| CoordinateTrainerColor.ColorTrainer.Train | crates/coordinate-trainer/src/color.rs:63-86 | the new state is the trained state for the session type, the draws and the lines |
| CoordinateTrainerColor.ColorTrainer.Quit | crates/coordinate-trainer/src/color.rs:224-227 | the trainer returns to the default state |
| CoordinateTrainerColor.ColorTrainer.ProcessCommand | crates/coordinate-trainer/src/color.rs:277-291 | the session command of the input is returned, and stored only when asked |
| CoordinateTrainerColor.ColorTrainer.GenerateProblem | crates/coordinate-trainer/src/color.rs:294-300 | the square is cleared and set to the two draws |
| CoordinateTrainerColor.ColorTrainer.SetColorCoordinate | crates/coordinate-trainer/src/color.rs:303-305 | only the square changes |
| CoordinateTrainerColor.ColorTrainer.EvaluateAnswer | crates/coordinate-trainer/src/color.rs:308-330 | the expected colour is set to the square's colour by parity, nothing else changes |
| CoordinateTrainerColor.ColorTrainer.SolveAnswer | crates/coordinate-trainer/src/color.rs:333-351 | the new state is the solved state |
| CoordinateTrainerColor.ColorTrainer.GetAlgebraicCoordinate | crates/coordinate-trainer/src/color.rs:354-364 | the result is the square's name |
| CoordinateTrainerColor.ColorTrainer.ClearSavedColorCoordinate | crates/coordinate-trainer/src/color.rs:367-370 | the square and the expected colour return to their defaults |
| CoordinateTrainerColor.ColorTrainer.AddCorrect | crates/coordinate-trainer/src/color.rs:374-390 | the square's name and the recorded answer are appended to the correct list, nothing else changes |
| CoordinateTrainerColor.ColorTrainer.AddIncorrect | crates/coordinate-trainer/src/color.rs:394-410 | the square's name and the recorded answer are appended to the incorrect list, nothing else changes |
| CoreBoard.Board.constructor | lib/chui_core/src/board.rs:47-58 | the position is the variant's, all four castling rights are set and there is no en passant square or pawn (`Default` is this with the standard variant, lib/chui_core/src/board.rs:209-213) |
| CoreBoard.Board.SetEnPassantCoord | lib/chui_core/src/board.rs:150-153 | the FEN and the X-FEN target squares both become the given square; the pawn and the castling rights are unchanged |
| CoreBoard.Board.SetEnPassantPiece | lib/chui_core/src/board.rs:156-158 | only the en passant pawn changes |
| CoreBoard.Board.SetEnPassant | lib/chui_core/src/board.rs:141-164 | `get_en_passant` then returns exactly the pair that was set; the castling rights are unchanged |
| CoreBoard.Board.Default | lib/chui_core/src/board.rs:209-213 | the default board is the standard setup with all four castling rights and no en passant square or pawn |
| EasyPositionStore.StandardRowsAreStandard | lib/chui_core/src/position/easy_position.rs:30-127 | the rows `standard_row_of_pieces` gives for White on rank index 0 and Black on rank index 7 are the back ranks of the standard setup, square by square |
| EasyPositionStore.EasyPosition.constructor | lib/chui_core/src/position/easy_position.rs:18-127 | the 8×8 array holds the variant's initial squares: the standard setup, or all empty for `Empty` |
| EasyPositionStore.EasyPosition.GetPiece | lib/chui_core/src/position/easy_position.rs:199-201 | the cell `[rank][file]` is the position's piece on that square |
| EasyPositionStore.EasyPosition.PutPiece | lib/chui_core/src/position/easy_position.rs:213-224 | returns the old occupant; the square then holds the piece retagged with the square, or nothing; no other square changes |
| EasyPositionStore.EasyPosition.SetCoords | lib/chui_core/src/position/easy_position.rs:185-194 | every stored piece is retagged with the square of its flat index; no piece is added or removed |
| EasyPositionStore.EasyPosition.GetPiecesAttackingCoord | lib/chui_core/src/position/easy_position.rs:227-235 | exactly the stored pieces, in rank order, whose target list contains the square |
| Easy1DPositionStore.Easy1DPosition.constructor | lib/chui_core/src/position/easy_1d_position.rs:18-23 | the 64 cells hold the variant's initial squares: the standard setup, or all empty for `Empty` and `Default` |
| Easy1DPositionStore.Easy1DPosition.GetPiece | lib/chui_core/src/position/easy_1d_position.rs:249-251 | the cell of the square's index is the position's piece on that square |
| Easy1DPositionStore.Easy1DPosition.PutPiece | lib/chui_core/src/position/easy_1d_position.rs:263-274 | returns the old occupant; the square then holds the piece retagged with the square, or nothing; no other cell changes |
| Easy1DPositionStore.Easy1DPosition.SetCoords | lib/chui_core/src/position/easy_1d_position.rs:238-244 | every stored piece is retagged with `Coord::try_from(index)`; no piece is added or removed |
| Easy1DPositionStore.Easy1DPosition.GetPiecesAttackingCoord | lib/chui_core/src/position/easy_1d_position.rs:277-284 | exactly the stored pieces, a1 to h8, whose target list contains the square |
| OldEngine.StartGrid | src/modules/engine.rs:220-580 | the grid written out by `new` is 8 rows of 8 squares |
| OldEngine.New | src/modules/engine.rs:220-581 | a new engine has White to move, every castling right, counters at zero, no en passant target and the starting grid |
| OldEngine.StartGridSquares | src/modules/engine.rs:234-579 | square (row, column) is named by its file letter and rank 8 - row, is light exactly where the light-square mask holds it, a1 dark and h1 light |
| OldEngine.StartGridIsStandard | src/modules/engine.rs:234-579 | the grid holds the standard setup, square for square |
| OldEngine.MatchForPiece | src/modules/engine.rs:135-151 | a middle dot exactly for an empty square, the kind's capital for White and its lower case for Black |
| OldEngine.StartLetters | src/modules/engine.rs:135-151 | the starting grid prints "rnbqkbnr", black pawns, four empty rows, white pawns and "RNBQKBNR" |
| OldEngine.Display | src/modules/engine.rs:155-206 | the row loop and the footer build the rendering of the position for the given side |
| OldEngine.WriteRankLine | src/modules/engine.rs:182-191 | one pass of the row loop appends one rank line and a line break |
| OldEngine.Lines | src/modules/engine.rs:155-206 | the display has 14 lines: two player lines, "Position:", eight ranks, the rule, the file letters and the side to move |
| OldEngine.DisplayLines | src/modules/engine.rs:114-206 | the display splits at its line breaks into exactly those 14 lines |
| OldEngine.CellsLayout | src/modules/engine.rs:184-189 | each cell takes three characters, its letter between two spaces, in visiting order |
| OldEngine.RankLineLayout | src/modules/engine.rs:182-191 | a rank line is 27 characters: the rank digit (8 down to 1 for White, 1 up to 8 for Black), " |", and the cells, a to h for White and h to a for Black |
| OldEngine.LabelsLayout | src/modules/engine.rs:156-197 | the file letters are a to h for White and h to a for Black, each between two spaces |
| OldEngine.ColorId | src/modules/engine.rs:103-112 | the printed colour id is 0 or 1 |
| OldEngine.ColorIdIsLight | src/modules/engine.rs:103-112 | the id is 0 exactly on the squares `new` makes light |
| EnumPositionStore.FromPiece | lib/chui_core/src/position/enum_position.rs:80-99 | the variant of a piece stands for the piece's kind and colour (`get_piece`/`get_color` of lines 39-66) |
| EnumPositionStore.ToPiece | lib/chui_core/src/position/enum_position.rs:101-117 | a piece of the variant's kind and colour on a1 |
| EnumPositionStore.EnumRoundTrip | lib/chui_core/src/position/enum_position.rs:80-117 | variant → piece → variant is the identity |
| EnumPositionStore.PieceRoundTrip | lib/chui_core/src/position/enum_position.rs:80-117 | piece → variant → piece keeps kind and colour and resets the square to a1 |
| EnumPositionStore.FromPieceInjective | lib/chui_core/src/position/enum_position.rs:80-99 | two pieces share a variant exactly when they share kind and colour |
| EnumPositionStore.Display | lib/chui_core/src/position/enum_position.rs:70-78 | one character per variant |
| EnumPositionStore.DisplayOfPiece | lib/chui_core/src/position/enum_position.rs:70-99 | a piece's variant prints as the piece's own letter |
| EnumPositionStore.ViewAt | lib/chui_core/src/position/enum_position.rs:213-219 | each square of the board the renderer reads is what `get_piece` reports there |
| EnumPositionStore.GetAfterPut | lib/chui_core/src/position/enum_position.rs:213-245 | without a square `put_piece` changes nothing; otherwise the square then reads as the piece moved there (or nothing), and every other square is unchanged |
| EnumPositionStore.ReplacedMoves | lib/chui_core/src/traits/position.rs:29-37 | `replace_piece` empties the piece's own square, stores it retagged on the target, and touches no other square; without a target it only empties the piece's square |
| EnumPositionStore.SwappedExchanges | lib/chui_core/src/util.rs:88-97 | `piece_operation` exchanges the cells of its two squares and leaves the rest alone |
| EnumPositionStore.EnumRoundTripAt | lib/chui_core/src/position/enum_position.rs:213-245 | a variant read back on one square and stored on another is unchanged |
| EnumPositionStore.BackRows | lib/chui_core/src/position/enum_position.rs:133-208 | the back rows are R N B Q K B N R of each colour |
| EnumPositionStore.StandardEnumsAt | lib/chui_core/src/position/enum_position.rs:133-208 | 8 white back-row cells, 8 white pawns, 32 empty cells, 8 black pawns, 8 black back-row cells |
| EnumPositionStore.InitialDecodes | lib/chui_core/src/position/enum_position.rs:121-131 | read square by square, the standard setup is the standard position of the rest of the model and the empty variant (and `Default`) is the empty board |
| EnumPositionStore.StandardDecodes | lib/chui_core/src/position/enum_position.rs:133-208 | the standard cells read as the standard position, square by square |
| EnumPositionStore.EnumPosition.constructor | lib/chui_core/src/position/enum_position.rs:121-131 | the cells are the variant's initial cells |
| EnumPositionStore.EnumPosition.PutPiece | lib/chui_core/src/position/enum_position.rs:231-245 | returns what `get_piece` reported at the square before; the cells become `Put` of the old cells |
| EnumPositionStore.EnumPosition.TakePiece | lib/chui_core/src/traits/position.rs:16-19 | `put_piece(None, c)`: returns the old occupant and empties the square |
| EnumPositionStore.EnumPosition.ReplacePiece | lib/chui_core/src/traits/position.rs:29-37 | returns what the target held once the piece was taken off; the cells become `Replaced` |
| EnumPositionStore.EnumPosition.PieceOperation | lib/chui_core/src/util.rs:88-97 | the cells become `Swapped` of the old cells |
| EnumPositionStore.EnumPosition.ToString | lib/chui_core/src/traits/position.rs:625-677 | the text is the framed board of the position's squares seen from the given side |
| EnumPositionStore.EnumPosition.Framed | lib/chui_core/src/traits/position.rs:641-671 | the frame, letters and rank lines, built line by line, are the framed text of the specification |
| EnumPositionStore.EnumPosition.AppendRanks | lib/chui_core/src/traits/position.rs:651-660 | the row loop appends the rank lines of the rows in order |
| EnumPositionStore.EnumPosition.AppendRank | lib/chui_core/src/traits/position.rs:652-659 | one pass appends the rank number, the cells, and the rank number again after trimming |
| EnumPositionStore.EnumPosition.AppendCells | lib/chui_core/src/traits/position.rs:653-658 | the column loop appends a space and each cell's symbol, '·' for an empty cell |
| EnumPositionStore.EnumPosition.WhiteToString | lib/chui_core/src/traits/position.rs:680-682 | `to_string(White)` |
| EnumPositionStore.EnumPosition.BlackToString | lib/chui_core/src/traits/position.rs:685-687 | `to_string(Black)` |
| EnumPositionStore.RankLineParts | lib/chui_core/src/traits/position.rs:652-659 | a rank line split where `to_string` trims: "║ n │", the cells, then " │ n ║" |
| BoardFen.Letter | crates/chui_core/src/modules/fen.rs:97-101 | a piece prints as a letter that is neither a digit nor '/' |
| BoardFen.Count | crates/chui_core/src/modules/fen.rs:92-112 | an empty run of length zero writes nothing |
| BoardFen.RankFens | crates/chui_core/src/modules/fen.rs:89 | there are eight rank fields, rank 8 first |
| BoardFen.GetBoardFen | crates/chui_core/src/modules/fen.rs:84-123 | the rank loop, followed by dropping the last '/', writes the placement field of the board |
| BoardFen.WriteRank | crates/chui_core/src/modules/fen.rs:90-116 | one pass of the rank loop appends the rank's field and a '/' |
| BoardFen.RankFenRoundTrip | crates/chui_core/src/modules/fen.rs:89-117 | a rank field read back, each digit as that many empty squares, is the eight squares of the rank |
| BoardFen.RankFenCounts | crates/chui_core/src/modules/fen.rs:92-112 | each run of empty squares is written as one non-zero count: no two digits are adjacent, and no '/' appears |
| BoardFen.RowStateDescribes | crates/chui_core/src/modules/fen.rs:90-106 | after any number of cells, what the cell loop has written plus its pending count describes exactly those cells |
| BoardFen.PlacementRoundTrip | crates/chui_core/src/modules/fen.rs:84-123 | the placement splits at '/' into eight fields, rank 8 first, and each reads back as its rank |
| Fen.FenSplitsIntoFields | crates/chui_core/src/modules/fen.rs:13-32 | a FEN record splits at its spaces into the placement and the five fields when none holds a space |
| Fen.FenVariants | crates/chui_core/src/modules/fen.rs:35-76 | Shredder-FEN is FEN, and X-FEN differs from it only in its en passant field |
| Fen.FenLinesSplit | lib/chui_core/src/game/fen.rs:59-66 | the game's FEN text is three lines, labelled FEN, X-FEN and Shredder-FEN in that order, each holding its record |
| Fen.GameFenRecord | lib/chui_core/src/fen.rs:13-76 | a game's record splits into the placement, the side to move, castling, en passant and both clocks, and its X-FEN and Shredder-FEN records are the same string |
| Fen.PlaceholderBreaksFields | lib/chui_core/src/fen.rs:84-124 | the lib snapshot's placement placeholder holds spaces, so its record no longer splits into six fields |
| Fen.FenStartsWithPlacement | lib/chui_core/src/fen.rs:13-32 | a FEN record starts with its placement field |
| FenFields.ToMove | lib/chui_core/src/game/fen.rs:6-11 | "w" exactly for White and "b" exactly for Black |
| FenFields.GetFenCastle | lib/chui_core/src/game/fen.rs:14-34 | the appending builder writes the castling letters of the held rights |
| FenFields.CastleLettersFacts | lib/chui_core/src/game/fen.rs:14-34 | each of K, Q, k, q appears exactly when its right is held, in that order, the field is empty exactly when no right is held, and its length counts the rights |
| FenFields.CastleLettersParts | lib/chui_core/src/game/fen.rs:14-34 | the castling field is one optional letter per right, in the order K, Q, k, q |
| FenFields.EnPassantField | lib/chui_core/src/game/fen.rs:37-41 | "-" without a target, otherwise a two-character square name |
| FenFields.EnPassantFieldInjective | lib/chui_core/src/game/fen.rs:37-46 | distinct targets give distinct fields |
| FenFields.Fields | lib/chui_core/src/game/fen.rs:44-56 | the X-FEN en passant field is the FEN one, and both clocks are written in decimal with the state's values |
| FenFields.FieldsHaveNoSeparators | lib/chui_core/src/game/fen.rs:6-56 | no field contains a space, a '/' or a line break |
| OldEngineFen.TargetField | src/modules/engine/fen.rs:35-54 | a target pair prints as "-" exactly when its file is '-' or its rank is 9 |
| OldEngineFen.EnPassantField | src/modules/engine/fen.rs:35-43 | the FEN field is "-" exactly when the target's file is '-' or its rank 9 |
| OldEngineFen.XEnPassantField | src/modules/engine/fen.rs:45-54 | the X-FEN field is "-" exactly when the true target's file is '-' or its rank 9 |
| OldEngineFen.Fields | src/modules/engine/fen.rs:4-64 | the fields of the oldest engine use its own en passant builders |
| OldEngineFen.TargetFieldAgrees | src/modules/engine/fen.rs:35-43 | a pair naming a real square prints as the newer builder prints that square |
| OldEngineFen.TargetFieldInjective | src/modules/engine/fen.rs:35-43 | distinct real targets give distinct fields |
| Game.Sides | lib/chui_core/src/modules/game.rs:196-206 | the players come back as (white, black) whatever order they were given in, or `IncompatibleSides` exactly when their colours agree |
| Game.InitialState | lib/chui_core/src/modules/game.rs:208-228 | a new game has White to move, the full-move counter at 1, the other counters at 0, nothing captured, no move played or pending and no result |
| Game.DefaultSidesCompatible | lib/chui_core/src/modules/game.rs:166-173 | `Default` never reaches its `expect`: its players have different colours |
| Game.Toggled | lib/chui_core/src/modules/game.rs:451-457 | toggling changes the side to move |
| Game.ToggleTwice | lib/chui_core/src/modules/game.rs:451-457 | toggling twice gives the turn back |
| Game.Processed | lib/chui_core/src/modules/game.rs:441-448 | processing fails with `InvalidMove` exactly when there is no current move |
| Game.AfterBoardOutcome | lib/chui_core/src/modules/game.rs:415-434 | a refused move leaves the game as it was; an accepted one flips the side to move, adds the captured piece if any, and changes nothing else |
| Game.CapturedStoodOnTarget | lib/chui_core/src/modules/game.rs:422-427 | a piece the board reports captured is the one that stood on the target square |
| Game.Viewer | lib/chui_core/src/modules/game.rs:395-406 | the board is drawn for `display_for` when it is set, and otherwise for the side to move |
| Game.CellsTextAt | lib/chui_core/src/modules/game.rs:349-357 | the `k`-th cell of a rank line is a space and the symbol of the piece on the `k`-th column |
| Game.RankLineLength | lib/chui_core/src/modules/game.rs:347-359 | every rank line is 28 characters long, so the trim in front of its closing number removes nothing |
| Game.RanksTextLines | lib/chui_core/src/modules/game.rs:347-359 | line `k` of the rank lines is the line of the `k`-th rank in row order |
| Game.BoardOrientation | lib/chui_core/src/modules/game.rs:315-359 | seen by White the board shows rank 8 down to rank 1 with files a to h; seen by Black rank 1 up to rank 8 with files h to a |
| Game.Game.constructor | lib/chui_core/src/modules/game.rs:208-228 | a game for sorted players holds a standard board and the initial state |
| Game.Game.ToggleToMove | lib/chui_core/src/modules/game.rs:451-457 | the side to move flips and nothing else changes |
| Game.Game.SetCurrentMove | lib/chui_core/src/modules/game.rs:460-462 | only the current move changes |
| Game.Game.ProcessMove | lib/chui_core/src/modules/game.rs:441-448 | no current move is an `InvalidMove`; otherwise a copy of the current move recoloured for the side to move, the game unchanged |
| Game.Game.ApplyMove | lib/chui_core/src/modules/game.rs:415-434 | no current move is an `InvalidMove` with nothing changed; otherwise the board's answer is applied to the game, and the result is `Ok` whether the board accepted the move or not |
| Game.Game.Submit | lib/chui_core/src/modules/game.rs:421 | the board's `apply_move` on the processed move |
| Game.Game.Absorb | lib/chui_core/src/modules/game.rs:423-428 | the game after the board has answered |
| Game.Game.ToString | lib/chui_core/src/modules/game.rs:314-382 | the headers of the viewer, "Position:", the framed board and the side to move |
| Game.Game.Framed | lib/chui_core/src/modules/game.rs:337-373 | the framed board built line by line and trimmed |
| Game.Game.AppendRanks | lib/chui_core/src/modules/game.rs:347-359 | the row loop appends the rank lines in row order |
| Game.Game.AppendRank | lib/chui_core/src/modules/game.rs:348-358 | one pass appends one rank line |
| Game.Game.AppendCells | lib/chui_core/src/modules/game.rs:349-357 | the column loop appends a space and each cell's symbol |
| Game.AppendSpaced | lib/chui_core/src/modules/game.rs:341-365 | the files loop appends a space and each letter |
| Game.Game.WhiteToString | lib/chui_core/src/modules/game.rs:385-387 | the position drawn for White |
| Game.Game.BlackToString | lib/chui_core/src/modules/game.rs:390-392 | the position drawn for Black |
| Game.Game.ToMoveToString | lib/chui_core/src/modules/game.rs:395-406 | the position drawn for the viewer |
| Game.New | lib/chui_core/src/modules/game.rs:191-229 | `IncompatibleSides` exactly when the colours agree; otherwise a fresh game for the sorted players in the initial state |
| Geometry.Shift | lib/chui_core/src/modules/board.rs:481-567 | the square `df` files and `dr` ranks away exists exactly when both stay within 0..7, and is that square |
| Geometry.Step | lib/chui_core/src/modules/board.rs:481-686 | `x + d` going up and `x.wrapping_sub(-d)` going down: a step below 0 wraps to 256 + (x + d) |
| Geometry.StepThenNew | lib/chui_core/src/modules/board.rs:481-686 | `Coord::new` after the wrapping index steps accepts exactly the on-board shifts and gives the shifted square: a step below 0 wraps past 7 and is rejected |
| Geometry.RayFromShape | lib/chui_core/src/modules/board.rs:689-911 | a ray takes at most the move range of squares, starts next to the piece, crosses only empty squares and ends on a square not held by the mover's colour |
| Geometry.RayFromStops | lib/chui_core/src/modules/board.rs:689-911 | a ray stops early only at the board's edge or in front of the mover's own piece: with budget left, the next square is off the board or holds the mover's colour |
| Geometry.RayFromAlong | lib/chui_core/src/modules/board.rs:689-911 | the `i`-th square of a ray is `i` steps from its start in the ray's direction |
| Geometry.RayAlong | lib/chui_core/src/modules/board.rs:689-911 | the `k`-th square of a piece's ray is `k + 1` steps from the piece, and `k` is below the piece's move range |
| Geometry.RayOfOneStep | lib/chui_core/src/modules/board.rs:689-911 | for a piece that moves one square, a ray is that neighbouring square unless it is off the board or held by its own colour |
| Geometry.InRays | lib/chui_core/src/modules/board.rs:441-478 | a square is among several concatenated rays exactly when it is on one of them |
| Geometry.DirectionTo | lib/chui_core/src/modules/board.rs:366-378 | the direction that leads from a square to a neighbouring one is one of the eight, with those file and rank offsets |
| Geometry.OneStepRays | lib/chui_core/src/modules/board.rs:366-378 | the eight one-square rays of a king are exactly its neighbouring squares not held by its own colour |
| Geometry.JumpsFrom | lib/chui_core/src/modules/board.rs:481-567 | the listed jumps that land on the board on a square not held by the knight's colour, and only those |
| Geometry.KnightTargets | lib/chui_core/src/modules/board.rs:481-567 | a square is a knight target exactly when it is an L-jump away and not held by the knight's own colour |
| Geometry.KnightJumpOffsets | lib/chui_core/src/modules/board.rs:481-567 | the eight offsets of the source are exactly the L-jumps |
| Geometry.PawnTargetsReach | lib/chui_core/src/modules/board.rs:571-682 | a pawn reaches the empty square ahead, two squares ahead from its start rank over two empty squares, and a forward diagonal square held by the other colour or equal to the en passant square |
| Geometry.PawnCaptureHas | lib/chui_core/src/modules/board.rs:597-624 | a diagonal capture lists its square exactly when it holds the other colour or is the en passant square |
| Geometry.StandardRowOfPieces | lib/chui_core/src/modules/board.rs:933-975 | a rank index above 7 is `InvalidRank`; otherwise eight pieces R N B Q K B N R of the colour, each tagged with its own square |
| Geometry.BackRankSymmetric | lib/chui_core/src/modules/board.rs:933-970 | the back row is symmetric except for the queen and king files |
| Geometry.EmptySquares | lib/chui_core/src/modules/board.rs:192-194 | the empty board holds no piece on any square |
| Geometry.StandardLayout | lib/chui_core/src/modules/board.rs:92-189 | the standard setup has the white back row on rank 1, white pawns on 2, empty ranks 3-6, black pawns on 7, the black back row on 8, each piece tagged with its own square |
| Geometry.PiecesFrom | lib/chui_core/src/modules/board.rs:282-288 | the kept pieces of a run of cells, in order: a piece is listed exactly when a cell from the index on holds it and it passes the filter |
| ModulesBoard.PiecesCanMove | lib/chui_core/src/modules/board.rs:219-228 | the pieces kept by the candidate loop of `apply_move` are, in order, those whose move list holds the target square |
| ModulesBoard.Board.constructor | lib/chui_core/src/modules/board.rs:66-85 | a new board holds the variant's initial cells, all four castling flags set and no en passant square or piece |
| ModulesBoard.Board.GetPiece | lib/chui_core/src/modules/board.rs:277-279 | the cell at the square's file and rank |
| ModulesBoard.Board.Contents | lib/chui_core/src/modules/board.rs:272-274 | the 64 cells read out rank by rank are the board's cells |
| ModulesBoard.Board.DirectionCoords | lib/chui_core/src/modules/board.rs:689-911 | each direction walker's loop returns the ray of that direction: the empty squares up to the piece's range, plus a first enemy-held square |
| ModulesBoard.Board.WalkStep | lib/chui_core/src/modules/board.rs:693-711 | one pass of a walker's loop body keeps the walk on its ray, and stopping means the whole ray is collected |
| ModulesBoard.Board.QueenMoveCoords | lib/chui_core/src/modules/board.rs:441-454 | a queen's list is its eight rays, top-left first, clockwise |
| ModulesBoard.Board.RookMoveCoords | lib/chui_core/src/modules/board.rs:457-466 | a rook's list is its top, right, bottom and left rays |
| ModulesBoard.Board.BishopMoveCoords | lib/chui_core/src/modules/board.rs:469-478 | a bishop's list is its top-left, top-right, bottom-right and bottom-left rays |
| ModulesBoard.Board.ExtendRays | lib/chui_core/src/modules/board.rs:441-478 | the `extend` calls give the rays of the directions one after the other |
| ModulesBoard.Board.PutPiece | lib/chui_core/src/modules/board.rs:350-354 | the one cell is overwritten, everything else is unchanged, and the old occupant is returned |
| ModulesBoard.Board.TakePiece | lib/chui_core/src/modules/board.rs:344-347 | the one cell becomes empty and its old occupant is returned |
| ModulesBoard.Board.ReplacePiece | lib/chui_core/src/modules/board.rs:257-265 | the piece's old square is emptied, the piece is put on the target and whatever stood there is returned |
| ModulesBoard.Board.ApplyMove | lib/chui_core/src/modules/board.rs:209-254 | no piece, or not exactly one candidate of the move's kind and colour reaching the target, is an invalid move that leaves the board unchanged; one candidate is moved there |
| ModulesBoard.Board.SetCoords | lib/chui_core/src/modules/board.rs:331-341 | every piece is tagged with the square of its cell and nothing else changes |
| ModulesBoard.Board.SetEnPassantCoord | lib/chui_core/src/modules/board.rs:310-313 | both en passant squares become the given one; the cells, the array, the pawn and the castling rights are unchanged and the array still mirrors the cells |
| ModulesBoard.Board.SetEnPassantPiece | lib/chui_core/src/modules/board.rs:316-318 | the en passant piece becomes the given one; the cells, the array, both squares and the castling rights are unchanged and the array still mirrors the cells |
| ModulesBoard.Board.SetEnPassant | lib/chui_core/src/modules/board.rs:291-324 | after setting both, `get_en_passant` returns the pair given; the cells, the array and the castling rights are unchanged and the array still mirrors the cells |
| ModulesChessMove.Default | lib/chui_core/src/modules/chess_move/mod.rs:108-125 | the default move goes from a1 to a1 with no piece, move type, promotion piece, flags or input |
| ModulesChessMove.Relocated | lib/chui_core/src/modules/chess_move/mod.rs:327-360 | both squares are replaced exactly when both conversions succeed; otherwise the first error is returned and nothing changes |
| ModulesChessMove.SettersKeepConsistent | lib/chui_core/src/modules/chess_move/mod.rs:240-314 | the default move and every castling, pawn, check and mate setter keep the castling and check flags consistent |
| ModulesChessMove.CastlingSides | lib/chui_core/src/modules/chess_move/mod.rs:174-189 | on a consistent move, castling holds exactly when one side does, and never both sides |
| ModulesChessMove.CastledSide | lib/chui_core/src/modules/chess_move/mod.rs:240-302 | castling sets exactly the chosen side, gives a Castle move, and a castling move cannot become a capture |
| ModulesChessMove.MoveTextSquares | lib/chui_core/src/modules/chess_move/mod.rs:371-448 | a move that is not castling reads "<piece> <verb> from <source> to <target>" and then its check and promotion suffix |
| ModulesChessMove.MoveTextEmpty | lib/chui_core/src/modules/chess_move/mod.rs:371-448 | the move text is empty exactly when the piece or the move type is missing |
| ModulesChessMove.ToCoordFileShiftsRank | lib/chui_core/src/modules/chess_move/mod.rs:327-333 | as written, the new target lands one rank lower than the old one, and a target on the first rank gives an invalid rank error |
| ModulesChessMove.ToCoordFileAsWritten | lib/chui_core/src/modules/chess_move/mod.rs:327-333 | as written, succeeds exactly when the letter's low byte is 'a'..'h' and the target is not on the first rank; then the target takes the letter's file and the rank below, and the source takes the old target's file; on failure nothing changes |
| ModulesChessMove.ToCoordFile | lib/chui_core/src/modules/chess_move/mod.rs:327-333 | as intended, succeeds exactly when the letter's low byte is 'a'..'h', keeping the target's rank; otherwise an invalid file error and nothing changes |
| ModulesChessMove.ToCoordFileKeepsRank | lib/chui_core/src/modules/chess_move/mod.rs:327-333 | as intended, a file letter whose low byte is 'a'..'h' is accepted, the target takes that file and keeps its rank, and the source takes the old target's file; any other letter changes nothing |
| ModulesChessMove.ToRankMoves | lib/chui_core/src/modules/chess_move/mod.rs:336-342 | a rank index is accepted exactly when it is 0..7; the target keeps its file and the source moves onto the target's old rank; otherwise an invalid rank error and no change |
| ModulesChessMove.ToIndexFileMoves | lib/chui_core/src/modules/chess_move/mod.rs:345-351 | a file index is accepted exactly when it is 0..7; the old target becomes the source; otherwise an invalid file error and no change |
| ModulesChessMove.Move.constructor | lib/chui_core/src/modules/chess_move/mod.rs:135-141 | the new move is the default move |
| ModulesChessMove.Move.SetInputMove | lib/chui_core/src/modules/chess_move/mod.rs:202-204 | only the input text changes |
| ModulesChessMove.Move.SetPiece | lib/chui_core/src/modules/chess_move/mod.rs:207-209 | only the piece changes |
| ModulesChessMove.Move.SetMoveType | lib/chui_core/src/modules/chess_move/mod.rs:212-214 | only the move type changes |
| ModulesChessMove.Move.SetColor | lib/chui_core/src/modules/chess_move/mod.rs:222-238 | the new state is the recoloured move |
| ModulesChessMove.Move.SetCastlingKing | lib/chui_core/src/modules/chess_move/mod.rs:240-251 | the new state is the king-side castling move |
| ModulesChessMove.Move.SetCastlingQueen | lib/chui_core/src/modules/chess_move/mod.rs:253-264 | the new state is the queen-side castling move |
| ModulesChessMove.Move.SetPawnMove | lib/chui_core/src/modules/chess_move/mod.rs:266-274 | the new state is the pawn move |
| ModulesChessMove.Move.SetPieceMove | lib/chui_core/src/modules/chess_move/mod.rs:276-286 | the piece is set and the move type is a piece move |
| ModulesChessMove.Move.SetCapture | lib/chui_core/src/modules/chess_move/mod.rs:288-302 | state and result are those of the capture function |
| ModulesChessMove.Move.SetCheck | lib/chui_core/src/modules/chess_move/mod.rs:304-308 | check is set and mate cleared, nothing else changes |
| ModulesChessMove.Move.SetCheckMate | lib/chui_core/src/modules/chess_move/mod.rs:310-314 | mate is set and check cleared, nothing else changes |
| ModulesChessMove.Move.SetPromotion | lib/chui_core/src/modules/chess_move/mod.rs:316-318 | only the promotion flag changes |
| ModulesChessMove.Move.SetPromotionPiece | lib/chui_core/src/modules/chess_move/mod.rs:321-324 | the promotion flag and the promotion piece are set, nothing else changes |
| ModulesChessMove.Move.Relocate | lib/chui_core/src/modules/chess_move/mod.rs:327-360 | state and result are those of the relocation function |
| ModulesChessMove.Move.SetToCoordFile | lib/chui_core/src/modules/chess_move/mod.rs:327-333 | state and result are those of the corrected file setter |
| ModulesChessMove.Move.SetToCoordRank | lib/chui_core/src/modules/chess_move/mod.rs:336-342 | state and result are those of the rank setter |
| ModulesChessMove.Move.SetToIndexFile | lib/chui_core/src/modules/chess_move/mod.rs:345-351 | state and result are those of the file-index setter |
| ModulesChessMove.Move.SetToIndexRank | lib/chui_core/src/modules/chess_move/mod.rs:354-360 | state and result are those of the rank setter |
| MoveGeneration.MoveIsValidMeans | lib/chui_core/src/modules/move_generator.rs:348-392 | a move is valid exactly when the two squares differ and share a file, a rank or a diagonal, or are a knight's jump apart |
| MoveGeneration.MoveIsValidSymmetric | lib/chui_core/src/modules/move_generator.rs:348-392 | whether a move is valid does not depend on its direction |
| MoveGeneration.MoveIsValidExamples | lib/chui_core/src/modules/move_generator.rs:348-392 | the valid and invalid moves of the unit tests |
| MoveGeneration.PromotionIsValidMove | lib/chui_core/src/modules/move_generator.rs:413-443 | a promotion move goes from rank 7 to 8 or from rank 2 to 1, at most one file aside, stays on the board and is a valid move |
| MoveGeneration.PromotionStepsAccepted | lib/chui_core/src/modules/move_generator.rs:413-443 | every such step is a promotion move |
| MoveGeneration.MoveIsValidPromotionExamples | lib/chui_core/src/modules/move_generator.rs:413-443 | a7-a8, d7-c8, a2-a1, d2-c1 and g7-f8 are promotion moves; a7-b7, g7-g5 and g7-b8 are not |
| MoveGeneration.LessIsOrder | lib/chui_core/src/modules/move_generator.rs:1420 | the order `sort` uses on strings is a strict total order |
| MoveGeneration.Insert | lib/chui_core/src/modules/move_generator.rs:1420 | inserting into a sorted list keeps it sorted and adds exactly the one string |
| MoveGeneration.Sort | lib/chui_core/src/modules/move_generator.rs:1420 | sorting gives an ascending permutation of the list |
| MoveGeneration.DedupKeeps | lib/chui_core/src/modules/move_generator.rs:1421 | deduplicating keeps exactly the strings there were, and the first one first |
| MoveGeneration.DedupStrict | lib/chui_core/src/modules/move_generator.rs:1421 | deduplicating a sorted list leaves it strictly ascending |
| MoveGeneration.SortDedup | lib/chui_core/src/modules/move_generator.rs:1420-1421 | sorting then deduplicating gives a strictly ascending list without duplicates of exactly the strings there were |
| MoveGeneration.GridMembers | lib/chui_core/src/modules/move_generator.rs:459-1384 | a string is in what nested loops push exactly when one pass pushes it |
| MoveGeneration.GridLength | lib/chui_core/src/modules/move_generator.rs:459-1384 | nested loops whose passes push equally many strings push rows times columns times that many |
| MoveGeneration.AnnotatedForms | lib/chui_core/src/modules/move_generator.rs:713-736 | every move is pushed in six forms: bare, with check and with the four mate marks |
| MoveGeneration.AnnotatedDistinct | lib/chui_core/src/modules/move_generator.rs:713-736 | the six forms of one move are distinct |
| MoveGeneration.PawnSquareCount | lib/chui_core/src/modules/move_generator.rs:459-503 | a pawn move to ranks 2 to 7 is pushed in 6 forms, to ranks 1 and 8 in 96 promotion forms |
| MoveGeneration.CaptureFormsOnBoard | lib/chui_core/src/modules/move_generator.rs:519-695 | every pawn capture from a file names a neighbouring file on the board: the a-file only captures toward b, the h-file only toward g |
| MoveGeneration.PawnCapturesOnBoard | lib/chui_core/src/modules/move_generator.rs:519-695 | no pawn capture leaves the board |
| MoveGeneration.PieceMovesLength | lib/chui_core/src/modules/move_generator.rs:713-1089 | a piece generator pushes six strings per square, 384 in all |
| MoveGeneration.PieceMoveListed | lib/chui_core/src/modules/move_generator.rs:713-1089 | a piece generator pushes every form of the piece's move to every square |
| MoveGeneration.PromotionPairRepeats | lib/chui_core/src/modules/move_generator.rs:1140-1254 | the bare move of a promotion pair is pushed once per promotion piece and notation, so it repeats |
| MoveGeneration.SquareToSquareMovesRepeat | lib/chui_core/src/modules/move_generator.rs:1140-1254 | the square-to-square moves hold duplicates, which is why the list is sorted and deduplicated |
| MoveGeneration.GeneratedListValid | lib/chui_core/src/modules/move_generator.rs:1402-1428 | the generated list is strictly ascending without duplicates and holds exactly the strings the generators push |
| MoveGeneration.PawnPromotionListed | lib/chui_core/src/modules/move_generator.rs:464-486 | every promotion with any notation and piece, plain or with check or mate, is pushed for every file on ranks 1 and 8 |
| MoveGeneration.PawnStepListed | lib/chui_core/src/modules/move_generator.rs:488-500 | every move to a square of ranks 2 to 7, plain or with check or mate, is pushed |
| MoveGeneration.PawnCaptureListed | lib/chui_core/src/modules/move_generator.rs:519-695 | every pawn capture form is pushed: the promoting ones to ranks 1 and 8, the others elsewhere |
| MoveGeneration.SquareMoveListed | lib/chui_core/src/modules/move_generator.rs:1140-1254 | what is pushed for a pair of squares is among the square-to-square moves |
| MoveGeneration.SquareCaptureListed | lib/chui_core/src/modules/move_generator.rs:1275-1384 | what is pushed for a pair of squares is among the square-to-square captures |
| MoveGeneration.Generated | lib/chui_core/src/modules/move_generator.rs:1402-1428 | whatever a generator pushes ends up in the generated list |
| MoveGeneration.CheckListGenerated | lib/chui_core/src/modules/move_generator.rs:1450-1590 | g8=N++, bxa1Q, Qxd4+, 0-0-0#, g7-g8Q and f7xg8# are in the generated list |
| MoveGeneration.MoveGenerator.constructor | lib/chui_core/src/modules/move_generator.rs:278-298 | the new generator has an empty move list |
| MoveGeneration.MoveGenerator.ValidateMoves | lib/chui_core/src/modules/move_generator.rs:318-327 | the answer is yes exactly when the list has no duplicates; otherwise the reason names the first string seen before |
| MoveGeneration.MoveGenerator.PushAnnotated | lib/chui_core/src/modules/move_generator.rs:719-733 | the list grows by the six forms of the move |
| MoveGeneration.MoveGenerator.PushPromotionRow | lib/chui_core/src/modules/move_generator.rs:466-484 | the list grows by one piece's promotion forms of a pawn move |
| MoveGeneration.MoveGenerator.PushPromotions | lib/chui_core/src/modules/move_generator.rs:465-485 | the list grows by all promotion forms of a pawn move |
| MoveGeneration.MoveGenerator.PushPawnFile | lib/chui_core/src/modules/move_generator.rs:461-501 | the list grows by the pawn moves to every square of one file |
| MoveGeneration.MoveGenerator.GeneratePawnMoves | lib/chui_core/src/modules/move_generator.rs:459-503 | the list grows by the pawn moves |
| MoveGeneration.MoveGenerator.PushCaptureForms | lib/chui_core/src/modules/move_generator.rs:527-691 | the list grows by the capture forms from one file to one rank |
| MoveGeneration.MoveGenerator.PushCheckSides | lib/chui_core/src/modules/move_generator.rs:529-580 | the list grows by the left and right captures with their check forms, skipping the side off the board |
| MoveGeneration.MoveGenerator.PushSides | lib/chui_core/src/modules/move_generator.rs:584-613 | the list grows by the left and right captures, skipping the side off the board |
| MoveGeneration.MoveGenerator.PushCapturePromotionRow | lib/chui_core/src/modules/move_generator.rs:526-614 | the list grows by one piece's promoting captures from one file to one rank |
| MoveGeneration.MoveGenerator.PushCapturePromotions | lib/chui_core/src/modules/move_generator.rs:525-615 | the list grows by all promoting captures from one file to one rank |
| MoveGeneration.MoveGenerator.PushPawnCaptureFile | lib/chui_core/src/modules/move_generator.rs:521-693 | the list grows by the pawn captures from one file to every rank |
| MoveGeneration.MoveGenerator.GeneratePawnCaptures | lib/chui_core/src/modules/move_generator.rs:519-695 | the list grows by the pawn captures |
| MoveGeneration.MoveGenerator.PushPieceFile | lib/chui_core/src/modules/move_generator.rs:715-734 | the list grows by a piece's moves to every square of one file |
| MoveGeneration.MoveGenerator.PushPieceSquares | lib/chui_core/src/modules/move_generator.rs:714-735 | the list grows by a piece's moves to every square |
| MoveGeneration.MoveGenerator.GenerateKingMoves | lib/chui_core/src/modules/move_generator.rs:713-736 | the list grows by the king moves |
| MoveGeneration.MoveGenerator.GenerateKingCaptures | lib/chui_core/src/modules/move_generator.rs:754-781 | the list grows by the king captures |
| MoveGeneration.MoveGenerator.GenerateQueenMoves | lib/chui_core/src/modules/move_generator.rs:799-818 | the list grows by the queen moves |
| MoveGeneration.MoveGenerator.GenerateQueenCaptures | lib/chui_core/src/modules/move_generator.rs:836-858 | the list grows by the queen captures |
| MoveGeneration.MoveGenerator.GenerateRookMoves | lib/chui_core/src/modules/move_generator.rs:876-895 | the list grows by the rook moves |
| MoveGeneration.MoveGenerator.GenerateRookCaptures | lib/chui_core/src/modules/move_generator.rs:913-935 | the list grows by the rook captures |
| MoveGeneration.MoveGenerator.GenerateBishopMoves | lib/chui_core/src/modules/move_generator.rs:953-972 | the list grows by the bishop moves |
| MoveGeneration.MoveGenerator.GenerateBishopCaptures | lib/chui_core/src/modules/move_generator.rs:990-1012 | the list grows by the bishop captures |
| MoveGeneration.MoveGenerator.GenerateKnightMoves | lib/chui_core/src/modules/move_generator.rs:1030-1049 | the list grows by the knight moves |
| MoveGeneration.MoveGenerator.GenerateKnightCaptures | lib/chui_core/src/modules/move_generator.rs:1067-1089 | the list grows by the knight captures |
| MoveGeneration.MoveGenerator.GenerateCastleMoves | lib/chui_core/src/modules/move_generator.rs:1106-1119 | the list grows by the castling moves |
| MoveGeneration.MoveGenerator.PushPromotedMoveForms | lib/chui_core/src/modules/move_generator.rs:1157-1223 | the list grows by one promotion pass of a square-to-square move |
| MoveGeneration.MoveGenerator.PushPromotedCaptureForms | lib/chui_core/src/modules/move_generator.rs:1292-1353 | the list grows by one promotion pass of a square-to-square capture |
| MoveGeneration.MoveGenerator.PushPromotedMoveRow | lib/chui_core/src/modules/move_generator.rs:1156-1224 | the list grows by one piece's promotion passes of a square-to-square move |
| MoveGeneration.MoveGenerator.PushPromotedMoves | lib/chui_core/src/modules/move_generator.rs:1155-1225 | the list grows by all promotion passes of a square-to-square move |
| MoveGeneration.MoveGenerator.PushPromotedCaptureRow | lib/chui_core/src/modules/move_generator.rs:1291-1354 | the list grows by one piece's promotion passes of a square-to-square capture |
| MoveGeneration.MoveGenerator.PushPromotedCaptures | lib/chui_core/src/modules/move_generator.rs:1290-1355 | the list grows by all promotion passes of a square-to-square capture |
| MoveGeneration.MoveGenerator.PushPairMoves | lib/chui_core/src/modules/move_generator.rs:1145-1249 | the list grows by what one pair of squares contributes to the square-to-square moves |
| MoveGeneration.MoveGenerator.PushPairCaptures | lib/chui_core/src/modules/move_generator.rs:1280-1380 | the list grows by what one pair of squares contributes to the square-to-square captures |
| MoveGeneration.MoveGenerator.PushSquareMoveFile | lib/chui_core/src/modules/move_generator.rs:1144-1250 | the list grows by the moves from one square to every square of one file |
| MoveGeneration.MoveGenerator.PushSquareMoves | lib/chui_core/src/modules/move_generator.rs:1143-1251 | the list grows by every move from one square |
| MoveGeneration.MoveGenerator.PushSquareCaptureFile | lib/chui_core/src/modules/move_generator.rs:1279-1381 | the list grows by the captures from one square to every square of one file |
| MoveGeneration.MoveGenerator.PushSquareCaptures | lib/chui_core/src/modules/move_generator.rs:1278-1382 | the list grows by every capture from one square |
| MoveGeneration.MoveGenerator.PushSquareToSquareFile | lib/chui_core/src/modules/move_generator.rs:1142-1252 | the list grows by the moves from every square of one file |
| MoveGeneration.MoveGenerator.GenerateSquareToSquareMoves | lib/chui_core/src/modules/move_generator.rs:1140-1254 | the list grows by the square-to-square moves |
| MoveGeneration.MoveGenerator.PushSquareToSquareCaptureFile | lib/chui_core/src/modules/move_generator.rs:1277-1383 | the list grows by the captures from every square of one file |
| MoveGeneration.MoveGenerator.GenerateSquareToSquareCaptures | lib/chui_core/src/modules/move_generator.rs:1275-1384 | the list grows by the square-to-square captures |
| MoveGeneration.MoveGenerator.GenerateAll | lib/chui_core/src/modules/move_generator.rs:1405-1419 | the list grows by every generator's strings, in the order they are called |
| MoveGeneration.MoveGenerator.GeneratePawnLists | lib/chui_core/src/modules/move_generator.rs:1405-1406 | the list grows by the pawn moves and captures |
| MoveGeneration.MoveGenerator.GeneratePieceLists | lib/chui_core/src/modules/move_generator.rs:1407-1416 | the list grows by the moves and captures of the five pieces |
| MoveGeneration.MoveGenerator.GenerateSquareLists | lib/chui_core/src/modules/move_generator.rs:1418-1419 | the list grows by the square-to-square moves and captures |
| MoveGeneration.MoveGenerator.GenerateMoveList | lib/chui_core/src/modules/move_generator.rs:1402-1428 | the new generator's list is the sorted and deduplicated list of all generated strings, strictly ascending and without duplicates |
| OldChessMove.InvalidMove | src/modules/chess_move.rs:235-249 | an invalid move has no piece, the unparsed move type, and keeps the input and the reason |
| OldChessMove.CheckPart | src/modules/chess_move.rs:118-138 | the character loop with its round counter returns the error of the specification function for that part |
| OldChessMove.PartIsSquare | src/modules/chess_move.rs:110-138 | a part of two bytes passes the character checks exactly when it is a file letter followed by a rank digit |
| OldChessMove.ParseSquareToSquareMove | src/modules/chess_move.rs:97-180 | the method's result is the square-to-square specification |
| OldChessMove.PieceCapture | src/modules/chess_move.rs:186-192 | a capture is always invalid, with no piece, and the reason says whether the text split on 'x' into two tokens |
| OldChessMove.ParseMove | src/modules/chess_move.rs:197-232 | the method's result is the parse specification |
| OldChessMove.MakeMove | src/modules/engine.rs:127-129 | the engine parses the text with its own side to move |
| OldChessMove.SquareToSquareValid | src/modules/chess_move.rs:97-180 | a square-to-square move is valid exactly when the text is two square names around one '-', and then it moves a white pawn; an invalid one has no piece |
| OldChessMove.SquaresRoundTrip | src/modules/chess_move.rs:97-232 | two square names joined by '-' parse back to the same squares, the rank digits read as numbers |
| OldChessMove.CapturesRefused | src/modules/chess_move.rs:186-232 | text with an 'x' and no '-' is always refused |
| OldChessMove.ParseOutcome | src/modules/chess_move.rs:197-249 | every refusal has no piece and the unparsed type; every acceptance keeps the trimmed input and the simple move type |
| OldCommand.Parts | src/modules/command.rs:194-315 | a context holds one part per kind, in the order of the kinds, each with that kind's aliases |
| OldCommand.BuildCommands | src/modules/command.rs:194-315 | the table has the Main and SwitchParser contexts and no other |
| OldCommand.Command.constructor | src/modules/command.rs:84-88 | the new table is the built table |
| OldCommand.Command.ProcessCommand | src/modules/command.rs:91-110 | a context without parts gives nothing; otherwise the result is the first-match lookup in that context |
| OldCommand.Command.SetCommands | src/modules/command.rs:114-116 | the whole table is replaced by the built table |
| OldCommand.AliasOwner | src/modules/command.rs:194-315 | every alias of a kind's part stands for that kind |
| OldCommand.PartsOwned | src/modules/command.rs:194-315 | every alias of every part of a context stands for that part's kind |
| OldCommand.ContextLookup | src/modules/command.rs:91-110 | an alias selects a kind exactly when it is one of that kind's aliases and the kind is in the context |
| OldCommand.ContextsDistinct | src/modules/command.rs:194-315 | within each context no alias belongs to two parts |
| OldCommand.MainAliasesExactly | src/modules/command.rs:199-239 | Main answers exactly MOVE, sw, dw, db, h, help, q and quit |
| OldCommand.SwitchParserHelpBack | src/modules/command.rs:299-311 | SwitchParser answers h and help with help, b and back with back |
| OldCommand.SwitchParserDigit | src/modules/command.rs:244-298 | in SwitchParser the digit n selects the n-th parser |
| OldParser.InvalidInputError | src/modules/parser.rs:90-97 | always an invalid input error with one fixed reason |
| OldParser.AcceptsBlank | src/modules/parser.rs:48-58 | unlike the current trait, a blank input is accepted as the empty move |
| OldParser.AgreesWithCurrentOffBlank | src/modules/parser.rs:48-58 | on an input that is not blank the old and current clean-up accept the same inputs with the same result, and refuse with their own reasons |
| OldParser.New | src/modules/parser.rs:174-208 | the factory returns the parser of the requested notation |
| OldParser.NewIsBijective | src/modules/parser.rs:174-208 | every parser is returned by the factory, and for one notation only |
| OlderBoardRules.KeptMembers | lib/chui_core/src/modules/board/mod.rs:190-197 | the candidate loop keeps, in order, exactly the pieces its test accepts, and no more pieces than it was given |
| OlderBoardRules.CandidatesMembers | lib/chui_core/src/modules/board/mod.rs:180-197 | the candidates of `apply_move` are exactly the board's pieces of the move's kind and colour whose move list holds the target |
| OlderBoardRules.KingTargets | lib/chui_core/src/modules/board/mod.rs:344-357 | this generation's king reaches exactly its neighbouring squares not held by its own colour: no castling and no attack test |
| OlderBoardRules.StandardBackRowHemmed | lib/chui_core/src/modules/board/mod.rs:971-1048 | on the standard setup every back-row piece other than a knight has no target |
| OlderBoardRules.SlidersHemmed | lib/chui_core/src/modules/board/mod.rs:344-398 | a king, queen, rook or bishop whose rays are all blocked has no target |
| OlderBoardRules.StandardKnightTargets | lib/chui_core/src/modules/board/mod.rs:981-1198 | each knight of the standard setup reaches the two squares of the third (sixth) rank beside it, the file to the right first |
| OlderBoardRules.KnightJumps | lib/chui_core/src/modules/board/mod.rs:400-485 | a back-row knight among full first and second ranks keeps only its two forward jumps |
| OlderBoardRules.KnightTargetsList | lib/chui_core/src/modules/board/mod.rs:400-485 | the eight jump blocks, in the source's order, give the knight targets of the board rules |
| OlderBoardRules.StandardPawnTargets | lib/chui_core/src/modules/board/mod.rs:1051-1288 | each pawn of the standard setup reaches one and then two squares ahead |
| OlderBoard.Board.constructor | lib/chui_core/src/modules/board/mod.rs:41-50 | a new board holds the standard setup, each piece tagged with its square, and no en passant target |
| OlderBoard.Board.GetPiece | lib/chui_core/src/modules/board/mod.rs:246-248 | the cell at the square's rank and file |
| OlderBoard.Board.GetPieces | lib/chui_core/src/modules/board/mod.rs:255-273 | the pieces of the given kind and colour, rank by rank and file by file |
| OlderBoard.Board.RankPieces | lib/chui_core/src/modules/board/mod.rs:259-268 | the inner loop adds the matching pieces of one rank, in file order |
| OlderBoard.Board.SetEnPassantCoord | lib/chui_core/src/modules/board/mod.rs:290-293 | only the en passant square changes |
| OlderBoard.Board.UnsetEnPassantCoord | lib/chui_core/src/modules/board/mod.rs:295-298 | only the en passant square is cleared |
| OlderBoard.Board.SetEnPassantPiece | lib/chui_core/src/modules/board/mod.rs:300-303 | only the en passant piece changes |
| OlderBoard.Board.UnsetEnPassantPiece | lib/chui_core/src/modules/board/mod.rs:305-308 | only the en passant piece is cleared |
| OlderBoard.Board.SetEnPassant | lib/chui_core/src/modules/board/mod.rs:276-314 | after setting both, the getters return the square and the piece given |
| OlderBoard.Board.UnsetEnPassant | lib/chui_core/src/modules/board/mod.rs:276-319 | after clearing both, the getters return nothing |
| OlderBoard.Board.SetCoords | lib/chui_core/src/modules/board/mod.rs:326-340 | every piece is tagged with the square of its cell, and the result is `Ok` |
| OlderBoard.Board.DirectionCoords | lib/chui_core/src/modules/board/mod.rs:607-850 | each direction walker returns that direction's ray |
| OlderBoard.Board.WalkStep | lib/chui_core/src/modules/board/mod.rs:611-632 | one pass of a walker's loop body keeps the walk on its ray, and stopping means the whole ray is collected |
| OlderBoard.Board.ExtendRays | lib/chui_core/src/modules/board/mod.rs:344-398 | the `extend` calls give the rays of the directions one after the other |
| OlderBoard.Board.KingMoveCoords | lib/chui_core/src/modules/board/mod.rs:344-357 | a king's list is its eight one-square rays, top-left first, clockwise |
| OlderBoard.Board.QueenMoveCoords | lib/chui_core/src/modules/board/mod.rs:360-373 | a queen's list is its eight rays, top-left first, clockwise |
| OlderBoard.Board.RookMoveCoords | lib/chui_core/src/modules/board/mod.rs:376-385 | a rook's list is its top, right, bottom and left rays |
| OlderBoard.Board.BishopMoveCoords | lib/chui_core/src/modules/board/mod.rs:388-397 | a bishop's list is its four diagonal rays |
| OlderBoard.Board.KnightMoveCoords | lib/chui_core/src/modules/board/mod.rs:400-485 | a knight's list is its on-board jumps onto empty or enemy squares |
| OlderBoard.Board.JumpCoords | lib/chui_core/src/modules/board/mod.rs:404-412 | one jump block adds its square when it is on the board and not held by the knight's colour |
| OlderBoard.Board.CaptureCoords | lib/chui_core/src/modules/board/mod.rs:489-604 | a forward diagonal is added when it holds the other colour, and again when it is the en passant square |
| OlderBoard.Board.PushCoords | lib/chui_core/src/modules/board/mod.rs:494-510 | one square ahead when it is empty, two from the starting rank when both are empty |
| OlderBoard.Board.PawnMoveCoords | lib/chui_core/src/modules/board/mod.rs:489-604 | a pawn's list is its pushes followed by its two captures, for either colour |
| OlderBoard.Board.MoveCoordsOf | lib/chui_core/src/modules/board/mod.rs:190-191 | the move list of a piece is the generator of its kind |
| OlderBoard.Board.PiecesCanMove | lib/chui_core/src/modules/board/mod.rs:188-197 | the loop keeps, in order, the pieces whose move list holds the target |
| OlderBoard.Board.ReplacePiece | lib/chui_core/src/modules/board/mod.rs:225-234 | the piece's old cell is emptied and the piece, tagged with the target square, is stored there |
| OlderBoard.Board.SetCell | lib/chui_core/src/modules/board/mod.rs:232-233 | one cell is overwritten and nothing else changes |
| OlderBoard.Board.ApplyMove | lib/chui_core/src/modules/board/mod.rs:165-221 | no move or no piece is an invalid move; exactly one candidate is relocated; none or several is an invalid move with the board unchanged |
| OldestBoardRules.StandardRowOfPieces | src/modules/board.rs:671-682 | a back row is eight pieces of one colour: rook, knight, bishop, queen, king, bishop, knight, rook |
| OldestBoardRules.NewStandardTagged | src/modules/board.rs:35-67 | the rows of `new_standard_chess`, tagged by `set_coords`, are the standard position |
| OldestBoardRules.LineSteps | src/modules/board.rs:451-603 | a walk starts at its first square and advances one step in its direction at a time |
| OldestBoardRules.LineSquares | src/modules/board.rs:451-603 | a walk collects at most its limit, every square within the loop test and, unless pieces are ignored, empty |
| OldestBoardRules.LineStops | src/modules/board.rs:451-603 | a walk shorter than its limit stops at a square that fails the loop test or is occupied |
| OldestBoardRules.LineOnBoard | src/modules/board.rs:451-603 | a walk starting on the board on the axes it does not climb never leaves the board |
| OldestBoardRules.WalkingOpen | src/modules/board.rs:463-474 | one loop pass collects the square under the counters and steps on |
| OldestBoardRules.WalkingDone | src/modules/board.rs:463-474 | a walk whose limit is spent, whose test fails or that meets a piece is complete |
| OldestBoardRules.ZipLines | src/modules/board.rs:685-772 | zipping a vertical and a horizontal walk that ignore pieces is the diagonal walk with the smaller limit that stops at the first occupied square |
| OldestBoardRules.KnightTargets | src/modules/board.rs:323-401 | a knight on the board reaches exactly the empty squares of the board a knight's jump away: no captures |
| OldestBoardRules.JumpMember | src/modules/board.rs:328-336 | one jump block holds its target exactly when it is on the board and empty |
| OldestBoardRules.BlackPawnStuck | src/modules/board.rs:425-427 | as written, a black pawn on rank index 1 never steps to the empty rank index 0, while a white pawn on rank index 6 steps to rank index 7 |
| OldestBoardRules.PawnStepIntended | src/modules/board.rs:404-439 | with the intended test a pawn of either colour steps one square forward exactly when that square is on the board and empty |
| OldestBoardRules.TargetsOnBoard | src/modules/board.rs:232-439 | every target of a piece on the board is on the board, except the wrapped step of a black pawn on rank index 0 |
| OldestBoardRules.RookOnBoard | src/modules/board.rs:279-298 | a rook's targets stay on the board |
| OldestBoardRules.BishopOnBoard | src/modules/board.rs:301-320 | a bishop's targets stay on the board |
| OldestBoardRules.EightWalksOnBoard | src/modules/board.rs:232-276 | the eight walks from a square of the board stay on the board |
| OldestBoardRules.StepOnBoard | src/modules/board.rs:451-603 | a walk of one step holds the neighbour exactly when it is on the board and empty |
| OldestBoardRules.KingTargets | src/modules/board.rs:232-250 | for a move that is not a king's, a king reaches exactly its empty neighbouring squares: nothing is captured |
| OldestBoardRules.KingSideways | src/modules/board.rs:497-582 | when the move being applied is a king's, the sideways walks widen to two squares, so a king reaches two files away along an empty rank |
| OldestBoardRules.StandardAt | src/modules/board.rs:168-174 | `get_piece` on the standard position gives the standard cell |
| OldestBoardRules.StandardKnights | src/modules/board.rs:323-401 | from the standard position the knights on b1 and g1 reach c3, a3 and h3, f3, in the order of the blocks |
| OldestBoardRules.StandardPawns | src/modules/board.rs:404-439 | from the standard position a pawn reaches one and then two squares ahead, for either colour |
| OldestBoardRules.StandardRooksHemmed | src/modules/board.rs:279-298 | from the standard position the corner rooks have no move |
| OldestBoardRules.PiecesMembers | src/modules/board.rs:181-199 | `get_pieces` collects exactly the pieces of the given kind and colour |
| OldestBoardRules.CanMoveMembers | src/modules/board.rs:108-119 | the loop keeps exactly the pieces whose move coordinates hold the target |
| OldestBoardRules.CandidatesMembers | src/modules/board.rs:83-144 | a candidate of `apply_move` is a piece of the board of the move's kind and colour that reaches the target |
| OldestBoardRules.RelocatedPlaced | src/modules/board.rs:147-155 | relocating keeps every piece tagged with its own indices |
| OldestBoardRules.CandidateOnBoard | src/modules/board.rs:83-144 | a candidate sits on the board and its target is on the board |
| OldestBoard.Board.constructor | src/modules/board.rs:35-49 | a new board is the standard position, each piece tagged with its indices |
| OldestBoard.Board.GetPiece | src/modules/board.rs:168-174 | nothing when either index is 8 or more, otherwise the stored cell |
| OldestBoard.Board.SetCoords | src/modules/board.rs:214-225 | every piece is tagged with the indices of its cell, and the result is `Ok` |
| OldestBoard.Board.GetPieces | src/modules/board.rs:181-199 | the pieces of the given kind and colour, rank by rank and file by file |
| OldestBoard.Board.Walk | src/modules/board.rs:451-603 | the `while` loop of a walker returns the walk of the rules |
| OldestBoard.Board.GetTopCoords | src/modules/board.rs:451-477 | the walk up the file from the next rank |
| OldestBoard.Board.GetBottomCoords | src/modules/board.rs:526-557 | the walk down the file from the rank below |
| OldestBoard.Board.GetRightCoords | src/modules/board.rs:485-518 | a king's move sets the limit to 2, then the walk along the rank to the right; the new limit is returned |
| OldestBoard.Board.GetLeftCoords | src/modules/board.rs:565-603 | a king's move sets the limit to 2, then the walk along the rank to the left |
| OldestBoard.Board.ZipCoords | src/modules/board.rs:685-772 | the zip loop pairs the walks' ranks and files and stops at the shorter walk or before the first occupied square |
| OldestBoard.Board.GetTopLeftCoords | src/modules/board.rs:606-618 | the diagonal up and to the left |
| OldestBoard.Board.GetTopRightCoords | src/modules/board.rs:621-633 | the diagonal up and to the right |
| OldestBoard.Board.GetBottomRightCoords | src/modules/board.rs:636-648 | the diagonal down and to the right |
| OldestBoard.Board.GetBottomLeftCoords | src/modules/board.rs:651-663 | the diagonal down and to the left |
| OldestBoard.Board.GetKingMoveCoords | src/modules/board.rs:232-250 | the eight walks, each with a fresh limit of 1 |
| OldestBoard.Board.GetQueenMoveCoords | src/modules/board.rs:253-276 | the eight walks sharing one limit that starts at 8 |
| OldestBoard.Board.GetRookMoveCoords | src/modules/board.rs:279-298 | top, right, bottom and left, sharing the limit |
| OldestBoard.Board.GetBishopMoveCoords | src/modules/board.rs:301-320 | the four diagonals, sharing the limit |
| OldestBoard.Board.GetKnightMoveCoords | src/modules/board.rs:323-401 | the eight jump blocks, in order |
| OldestBoard.Board.JumpCoords | src/modules/board.rs:328-336 | one block: the bounds test on the signed indices, then the square when it is empty |
| OldestBoard.Board.GetPawnMoveCoords | src/modules/board.rs:404-439 | the pawn's steps as written, including the `rank_idx - 1 > 0` test |
| OldestBoard.Board.MoveCoordsOf | src/modules/board.rs:108-119 | the move coordinates of a piece are the generator of its kind |
| OldestBoard.Board.PiecesCanMove | src/modules/board.rs:106-119 | the loop keeps, in order, the pieces whose move coordinates hold the target |
| OldestBoard.Board.ReplacePiece | src/modules/board.rs:147-155 | the piece takes the target indices, its old cell is emptied and the target cell receives it |
| OldestBoard.Board.ApplyMove | src/modules/board.rs:83-144 | no move or no piece is an invalid move; exactly one candidate is relocated; none or several is an invalid move with the board unchanged |
| ParserTrait.InvalidInputError | lib/chui_core/src/traits/parser.rs:158-160 | always an invalid input error carrying the given reason |
| ParserTrait.TrimPadded | lib/chui_core/src/traits/parser.rs:79-80 | trimming a token padded with whitespace on both sides gives the token |
| ParserTrait.AcceptsPaddedToken | lib/chui_core/src/traits/parser.rs:79-91 | every token without whitespace, whatever whitespace surrounds it, is accepted as itself |
| ParserTrait.TrimSplit | lib/chui_core/src/traits/parser.rs:79-80 | trimming cuts the input into leading whitespace, the trimmed text and trailing whitespace |
| ParserTrait.RefusesBlank | lib/chui_core/src/traits/parser.rs:82-84 | an input that is all whitespace is refused as empty |
| ParserTrait.AcceptedIsPaddedToken | lib/chui_core/src/traits/parser.rs:79-91 | an accepted move is a token, and the input is that token with whitespace around it |
| ParserTrait.RefusesInnerWhitespace | lib/chui_core/src/traits/parser.rs:86-88 | whitespace between two other characters makes the move invalid |
| ParserTrait.TrimAndCheckWhitespaceIdempotent | lib/chui_core/src/traits/parser.rs:79-91 | a cleaned move is accepted again as it is |
| ParserTrait.MatchFileToIndex | lib/chui_core/src/traits/parser.rs:94-106 | a file letter is mapped exactly when it is in a..h, to its distance from 'a' |
| ParserTrait.MatchRankToIndex | lib/chui_core/src/traits/parser.rs:109-121 | a rank digit is mapped exactly when it is in 1..8, to its distance from '1' |
| ParserTrait.MatchIndexToFile | lib/chui_core/src/traits/parser.rs:124-136 | an index is mapped exactly when it is below 8, to the file letter a coordinate prints with |
| ParserTrait.MatchIndexToRank | lib/chui_core/src/traits/parser.rs:139-151 | an index is mapped exactly when it is below 8, to the digit that is that far from '1' |
| ParserTrait.FileIndexRoundTrip | lib/chui_core/src/traits/parser.rs:94-136 | the two file tables are inverse to each other, in both directions |
| ParserTrait.RankIndexRoundTrip | lib/chui_core/src/traits/parser.rs:109-151 | the two rank tables are inverse to each other, in both directions |
| ParserTrait.SquareNameIndices | lib/chui_core/src/traits/parser.rs:94-121 | the two characters of a square's name map back to its file and rank |
| Piece.SpriteIndexTable | lib/chui_core/src/modules/piece.rs:58-73 | sprite indices are 2..7 for White and 8..13 for Black, and distinct kinds or colours never share an index |
| Piece.MoveMax | lib/chui_core/src/modules/piece.rs:76-82 | a pawn travels up to 2 squares, a knight or king 1, a bishop, rook or queen 7 |
| Piece.OnInitialSquareIndices | lib/chui_core/src/modules/piece.rs:86-101 | a square is initial for a kind and colour exactly when it is on the colour's starting rank and one of the kind's starting files |
| Piece.New | lib/chui_core/src/modules/piece.rs:141-153 | the new piece keeps kind, colour and coordinate, and counts as moved exactly when it is off its initial squares |
| Piece.NewAt | lib/chui_core/src/modules/piece.rs:155-309 | the named constructors succeed exactly when the letter's low byte is 'a'..'h' and the rank 1..8, and then give `New` on that square |
| Piece.SetKind | lib/chui_core/src/modules/piece.rs:370-373 | only the kind changes |
| Piece.SetColor | lib/chui_core/src/modules/piece.rs:375-378 | only the colour changes |
| Piece.SetCoord | lib/chui_core/src/modules/piece.rs:380-383 | only the coordinate changes; the initial-square flag is kept |
| Piece.SetHasMoved | lib/chui_core/src/modules/piece.rs:385-388 | the piece reports the given moved state; kind, colour and coordinate are kept |
| Piece.Repr | lib/chui_core/src/modules/piece.rs:428-449 | the letter is upper case for White and lower case for Black, and is the kind's letter in that case |
| Piece.TryFromChar | lib/chui_core/src/modules/piece.rs:486-515 | a character outside the twelve letters and twelve glyphs is `InvalidPiece`; one inside gives a piece of the kind and colour it names |
| Piece.TryFromStr | lib/chui_core/src/modules/piece.rs:458-484 | a string that is not one character is `InvalidPiece`; a single character parses as `TryFrom<char>` does |
| Piece.ParsedPieceUnmoved | lib/chui_core/src/modules/piece.rs:486-509 | a parsed piece is unmoved and stands on the square its table entry names (e1, d1, a1, c1, b1, a2 and the black mirrors) |
| Piece.ReprRoundTrip | lib/chui_core/src/modules/piece.rs:428-515 | parsing either symbol `repr` gives for a piece recovers a piece of the same kind and colour |
| Piece.ReprParses | lib/chui_core/src/modules/piece.rs:428-515 | the letter and the glyph of a piece are both in the parse table, under its kind and colour |
| Piece.InvalidPieceNames | lib/chui_core/src/modules/piece.rs:625-641 | "l", "j" and "T" are rejected with `InvalidPiece` |
| PieceMod.New | lib/chui_core/src/modules/piece/mod.rs:90-116 | the piece keeps kind, colour and coordinate |
| PieceMod.NewSpriteIndex | lib/chui_core/src/modules/piece/mod.rs:91-104 | the cached sprite is the kind-and-colour table entry: 2..7 for White, 8..13 for Black |
| PieceMod.SetKind | lib/chui_core/src/modules/piece/mod.rs:143-146 | only the kind changes; the sprite index is kept |
| PieceMod.SetColor | lib/chui_core/src/modules/piece/mod.rs:148-151 | only the colour changes; the sprite index is kept |
| PieceMod.SetCoord | lib/chui_core/src/modules/piece/mod.rs:153-156 | only the coordinate changes |
| PieceMod.SetColorKeepsStaleSprite | lib/chui_core/src/modules/piece/mod.rs:148-151 | recolouring a new white piece leaves a sprite that is not the black piece's |
| PieceMod.Text | lib/chui_core/src/modules/piece/mod.rs:159-162 | "Colour Kind", the same text as the current piece gives |
| PieceMod.FileRankFromCoords | lib/chui_core/src/modules/piece/mod.rs:181-184 | a letter 'a'..'h' and a rank 1..8 that parse back to the coordinate |
| PieceMod.Repr | lib/chui_core/src/modules/piece/mod.rs:206-227 | the same letter and glyph as the current piece's `repr` |
| PieceMod.TryFromChar | lib/chui_core/src/modules/piece/mod.rs:311-384 | a character other than the twelve letters is `InvalidPiece`; a letter gives its piece on a1 |
| PieceMod.TryFromStr | lib/chui_core/src/modules/piece/mod.rs:236-309 | succeeds exactly for a one-char string holding a letter or a glyph, and places the piece on a1 |
| PieceMod.GlyphParses | lib/chui_core/src/modules/piece/mod.rs:206-309 | a piece's glyph is not a letter and names that piece in the string table |
| PieceMod.GlyphOnlyAsString | lib/chui_core/src/modules/piece/mod.rs:236-384 | a glyph parses as a string but is `InvalidPiece` as a char |
| PieceMod.LetterRoundTrip | lib/chui_core/src/modules/piece/mod.rs:206-384 | a piece's letter parses back, as a char and as a string, to its kind and colour on a1 |
| PieceMod.InvalidPieceNames | lib/chui_core/src/modules/piece/mod.rs:498-514 | "l", "j" and "T" are rejected with `InvalidPiece` |
| Player.AgeSegment | lib/chui_core/src/player.rs:57-78 | the line holds an " (Age n)" segment exactly when the player has an age: its opening parentheses are the name's, the age's and the rating's |
| Player.DisplayNameAgeRating | lib/chui_core/src/player.rs:84-96 | "White: Dr. John Smith III (Age 47) (1500 Elo)" |
| Player.DisplayNameAge | lib/chui_core/src/player.rs:99-106 | "Black: John Smith IV (Age 12) (no Elo rating)" |
| Player.DisplayNameRating | lib/chui_core/src/player.rs:109-121 | "Black: Billy Bob Joe Bob Jr. (2639 Elo)" |
| Player.DisplayName | lib/chui_core/src/player.rs:124-131 | "Black: Smith (no Elo rating)" |
| Player.DisplayAgeRating | lib/chui_core/src/player.rs:134-141 | "White: (no name) (Age 47) (1500 Elo)" |
| Player.DisplayAge | lib/chui_core/src/player.rs:144-151 | "Black: (no name) (Age 12) (no Elo rating)" |
| Player.DisplayRating | lib/chui_core/src/player.rs:154-161 | "Black: (no name) (2639 Elo)" |
| Player.DisplayNothing | lib/chui_core/src/player.rs:164-171 | "Black: (no name) (no Elo rating)" |
| OldPlayer.New | src/modules/player.rs:67-112 | the player keeps every input, and its full name is the prefix, last name, ", first name" and suffix assembled in that order |
| OldPlayer.DisplayShape | src/modules/player.rs:116-127 | the line starts "Colour: full name", ends with ')', and ends in a digit before it exactly when the player has a rating |
| OldPlayer.FullNameEveryPart | src/modules/player.rs:75-98 | prefix "Dr.", last "Smith", first "John", suffix "III" give "Dr. Smith, John III" |
| OldPlayer.DisplayEveryPart | src/modules/player.rs:133-148 | "White: Dr. Smith, John III (1500)" |
| OldPlayer.DisplayNoPrefixNoRating | src/modules/player.rs:151-166 | "Black: Smith, John IV (no rating)" |
| OldPlayer.DisplayLastNameOnly | src/modules/player.rs:169-184 | "Black: Smith (2639)" |
| PositionTrait.KingTargetsAsWrittenReach | lib/chui_core/src/traits/position.rs:59-143 | as written: a king reaches exactly its one-step squares not held by its own colour, plus c1/c8 under the kingside flag with d and c empty, plus g1/g8 under the queenside flag with f and g empty (the attack filter of the default trait removes nothing) |
| PositionTrait.KingTargetsReach | lib/chui_core/src/traits/position.rs:59-143 | as intended: the kingside flag gives g1/g8 over f and g, the queenside flag c1/c8 over d and c |
| PositionTrait.KingsideRightGivesC | lib/chui_core/src/traits/position.rs:80-92 | with only the kingside right and all four squares empty, the written code offers c1 (c8) where the corrected one offers g1 (g8) |
| PositionTrait.PlacedReadsBack | lib/chui_core/src/traits/position.rs:16-37 | after a put the square holds the piece (if any) retagged with that square, and every other square is as before |
| PositionTrait.PlacedSameIsIdentity | lib/chui_core/src/traits/position.rs:29-37 | on a board whose pieces carry their own squares, putting back what a square holds changes nothing |
| PositionTrait.PositionTextParts | lib/chui_core/src/traits/position.rs:625-677 | the text is the head (title, frame and file letters), the rank lines in row order, and the foot |
| PositionTrait.PositionTextCell | lib/chui_core/src/traits/position.rs:625-677 | the character for line `k`, column `l` is the symbol of the square: ranks 8→1 and files a→h for White, the reverse for Black; an empty square is '·' |
| PositionTrait.PositionTextEnds | lib/chui_core/src/traits/position.rs:670-676 | the text opens with "Position:" on its own line and ends with a line break |
| Util.Dot | lib/chui_core/src/util.rs:19 | the position of the first '.', or the length: no '.' before it, and a '.' at it when it is inside the string |
| Util.NumSep | lib/chui_core/src/util.rs:16-64 | the byte loop returns exactly the specification: `None` for a malformed number, else the digits with the separator (',' by default) before each group of three integer digits |
| Util.StripGrouped | lib/chui_core/src/util.rs:16-64 | deleting the separators from the output gives the input back, when the separator is not in the input |
| Util.FractionCopied | lib/chui_core/src/util.rs:40-55 | no separator goes in at or after the '.': the fraction is copied unchanged |
| Util.SeparatorCount | lib/chui_core/src/util.rs:27-55 | a well-formed number gets (integer digits − 1) / 3 separators, none in front of the first digit |
| Util.SepCountIntegerPart | lib/chui_core/src/util.rs:46-54 | after `n` bytes of the integer part, the separators so far are the full count minus those still to come |
| Util.SepCountFront | lib/chui_core/src/util.rs:49 | no separator before the first digit of the integer part |
| Util.GroupedLength | lib/chui_core/src/util.rs:46-61 | the output after `n` bytes is `n` plus the separators inserted so far |
| Util.Example5678 | lib/chui_core/src/util.rs:168 | "5678" gives "5,678" |
| Util.ExampleNegative | lib/chui_core/src/util.rs:174 | "-1234.56" gives "-1,234.56" |
| Util.ExampleEmptyAndMinus | lib/chui_core/src/util.rs:183-184 | "" and "-" are returned unchanged |
| Util.ExampleRejected | lib/chui_core/src/util.rs:187-190 | "0-", "0..1" and "01a" are rejected |

## Left out

- The graphical front ends, console front ends and benchmarks (`lib/chui_ui`, `crates/chui_ui`, `src/modules/ui`, `bin/chui-console`, the `commands.rs` files, `lib/chui_core/benches`) are outside the rules core and are not part of this model.
- Console input is not modelled: `Game::get_input` and the trainers' `get_input` read and trim a line from standard input. The model is handed the trimmed lines instead.
- Console output is not modelled: the trainers' `print_*` functions and `print_help`, both `display_help` functions of the command files, and the `println!` calls inside `apply_move` and the ray walkers produce no result the model could state.
- Clock readings are not modelled: the trainers' `SystemTime`/`Duration` timings and their floating-point average durations depend on the clock.
- Random draws are parameters: the `rng` draws of the trainers' `generate_problem`, `get_lhs` and `get_rhs` are supplied by the caller, and only the acceptance conditions are proved.
- `util::gen_coords` is not modelled, because it only draws random coordinates.
- The `*_copy` functions of `lib/chui_core/src/util.rs` are not modelled: each one returns `Ok` of a bitwise copy of its argument.
- The `train` loops of the bin trainer (`bin/chui-trainer/src/coord.rs`, `color.rs`) are not modelled. They implement a trait whose only definition, `trait_defs.rs`, is a signature, and they are made of console I/O and timing.
- ChuiTrainer.CoordinateTrainer.Run: the loop reads commands until the first quit command. For a menu choice it does not run the sub-trainer's session (`train`), and it does not model the help text; it records only the command.
- CoordinateTrainerCrate.CoordinateTrainer.Run: the loop of `crates/coordinate-trainer/src/lib.rs` reads commands until the first quit command and records each one. It does not run the coordinate, colour or grid session that a menu choice starts, because those sessions read the console and the clock; the colour session's rounds are modelled on their own by `CoordinateTrainerColor.Trained`. The help text it prints is not modelled.
- The notation parsers `parse`, `name`, `eg` and `generate_move_from_board_coordinates` are not modelled. The parsers that the old `new` factory returns are stubs and are kept as names only. `Game` holds its parser as an opaque trait object and is given parsed moves, so `switch_parser`, `set_parser` and `Game::parse` are left out.
- Bitboard stubs are not modelled: `BitPosition`, `BitBoard` and `BitSetPosition` keep no pieces. `CoreBoard.Board` therefore keeps only the position variant it was built for.
- King recursion in `lib/chui_core/src/modules/board.rs` (`get_king_move_coords` ↔ `get_pieces_attacking_coord`) has no decreasing measure. The model bounds it with an explicit depth and proves what happens at every depth.
- `get_pieces_attacking_coord` of `EnumPosition` and `ArrayBitPosition` returns an empty list, and the `next` of every position's `Iterator` returns `None`. These have no member of their own. The trait's default attacker search, which also finds nobody, is part of `PositionTrait`'s king targets.
- ANSI colouring (`repr_colored`, the `colored` crate in `Display`) is not modelled. Only the plain letters of `repr` are.
- `display_board_colors_by_index` of `src/modules/engine.rs` prints a table. The model states the colour id it prints for each square, not the printing.
- The `Display` impls of `EasyPosition` and `Easy1DPosition` are not modelled separately. They are the trait's `to_string`, which is modelled once on `EnumPosition`.
- The commented-out conversions of `lib/chui_core/src/modules/coord/mod.rs` are not modelled, because they are not compiled.
- EasyPositionStore.EasyPosition.GetPiecesAttackingCoord and Easy1DPositionStore.Easy1DPosition.GetPiecesAttackingCoord take each piece's move list as a `targets` parameter. The source calls `get_move_coords(board, Some(piece))` on each piece there; that generator works on the board passed in, is modelled on a board's cells by `BoardRules` and `Geometry`, and is handed to these two stores as `targets` instead of being called from them.
- The `move_generator` field of the oldest `Engine` (`src/modules/engine.rs:87`, filled at line 233) is not a field of `OldEngine.Engine`. It holds the move list that `MoveGeneration.GeneratedList` models on its own, and no modelled engine function reads it.
- `src/modules/piece.rs` is a data file. Its `get_move_coords` dispatch is not modelled.
- Panics of `unwrap`/`expect` are not modelled as outcomes. Where the source's own data keep one from firing, as for the `expect` of `Game::default`, that is proved (`Game.DefaultSidesCompatible`). A panic on an out-of-bounds index, or on an `unwrap` that the member's own input decides, is excluded by a `requires` instead, which states the inputs on which the source does not panic. `CoordMod.ToCharCoord` requires file and rank up to 9, where `char::from_digit(..).unwrap()` panics. `CoordMod.ToAlphanumericCoord` requires a file up to 7, for the index into `STR_FILES`. The trainers' renderers need their draws within 1..8, for the indices `STR_FILES[n - 1]`, `STR_RANKS[n - 1]` and `ALPHA_FILES[n - 1]`: these are `ChuiTrainerColor.AlgebraicCoordinate` and the members that require `InRange`, `ChuiTrainerCoord.FileLetter`, `OperandText` and the members that require `Shown`, `Renderable` or `ValidDraws`, and `CoordinateTrainerColor.Round` and `Trained`. `ChuiTrainerCoord.AnswerOf` and the members that require `Solvable` exclude the `usize` subtraction below 0. Every caller in the source hands these members values in range.
- `usize` and `u8` overflow is modelled only where the source can reach it. This covers the black pawn step below rank 1 of `src/modules/board.rs`, the `wrapping_sub` conversions of `Coord`, and the `char as u8` truncation, which every (char, u8) and (char, char) conversion and their callers keep (`Coordinate.TryFromCharU8`). It also covers the `to_coord.get_file() - 1` of `set_en_passant` (`lib/chui_core/src/chess_move.rs:707`). On the a-file this underflows the `u8`: a debug build panics there, and a release build wraps to 255, which the conversion then refuses. `ChessMove.Beside` and `ChessMove.EnPassant` model the release build: on the a-file there is no square on that side, and only the b-file pawn is looked at. Elsewhere the indices stay far below the type's bounds.
- `Coord::try_from((u8, u8))` is called in `lib/chui_core/src/chess_move.rs:707-720`, `lib/chui_core/src/modules/chess_move/mod.rs:338`, `lib/chui_core/src/traits/position.rs:654` and `lib/chui_core/src/modules/game.rs:352`, and only the test `try_from_u8_u8` of `lib/chui_core/src/coordinate.rs` exercises it, but `coordinate.rs` defines no such conversion. The model takes it to be `Coord::new`: it succeeds exactly when both values are at most 7. The members that rely on this are:
  - `ChessMove.Beside` and `ChessMove.EnPassant`;
  - `ModulesChessMove.ToRank` with `ToRankMoves` and `ModulesChessMove.Move.SetToCoordRank`;
  - `PositionTrait.PositionText`;
  - `Game.CellsText`, `Game.RankLine` and `Game.RanksText`.
- Game.Game.Submit: `lib/chui_core/src/modules/game.rs:415-434` hands its current move, the `Move` of `lib/chui_core/src/chess_move.rs` whose target square is an `Option`, to the `apply_move` of `lib/chui_core/src/modules/board.rs:209-263`. That `apply_move` takes the `Move` of `lib/chui_core/src/modules/chess_move/mod.rs`, whose target is always a `Coord`. The source has no conversion between the two types. The model supplies one: a move without a target is refused with `InvalidMove` before the board is asked, and otherwise the moving piece and the target go to the board. The refusal is not in `modules/game.rs`, and `Game.Game.ApplyMove` inherits it.
- `HashMap` and `HashSet` are Dafny maps and sets. The iteration order of a `HashMap` does not matter: a key is looked up in it and never iterated over.
- The `u64` masks are sets of bit positions. The `^` of `set_piece_from_bitmask` is proved for the single-bit masks that every caller passes.
- OlderBoardRules: the pawn generator of `lib/chui_core/src/modules/board/mod.rs` has one branch per colour. The model writes them as one function of the colour's direction. The knight is the `KNIGHT_JUMPS` table.
- `get_board_fen` of `lib/chui_core/src/fen.rs` returns a fixed placeholder string, and the model keeps that string.

## Findings

| source | as written | input that shows it | evidently intended | confidence | as-written member | corrected member |
|---|---|---|---|---|---|---|
| lib/chui_core/src/coordinate.rs:106-123 | `set_rank` reports `InvalidFile` when the value is the `NonMaxU8` niche 255 | `set_rank(255)` | every rejected rank is `InvalidRank` | not executed; follows from the code | Coordinate.SetRankNicheReportsFile | Coordinate.SetRankChecked |
| lib/chui_core/src/coordinate.rs:163-169 | `TryFrom<(char, u8)>` casts the file with `as u8`, which keeps only the low byte of the char | `('š', 1)` (U+0161) reads as a1 | exactly 'a'..'h' × 1..8 succeed | not executed; follows from the code | Coordinate.TryFromCharU8AcceptsNonAscii | Coordinate.TryFromCharU8Checked |
| lib/chui_core/src/modules/board.rs:366-438 | king targets ask the enemy king for its targets, which asks the first king again, with nothing to stop it | the standard setup: the e1 king never gets an answer at any depth | the attack test of a king's squares does not recurse into the enemy king's castling | not executed; high | BoardKing.StandardKingsExhausted | BoardKing.IntendedStandardKingE1 |
| lib/chui_core/src/modules/board.rs:366-438 | the kingside flag adds c1 after testing d1/c1, and the queenside flag adds g1 after testing f1/g1 | a lone white king on e1 with only the kingside right gets c1 | kingside castling goes to g1 and queenside to c1 | not executed; high | BoardKing.KingsideFlagGivesQueensideSquare | BoardKing.IntendedKingTargets |
| lib/chui_core/src/modules/board.rs:366-438 | castling squares are added wherever the king stands | a lone white king on e4 with all rights gets ten targets, c1 and g1 among them | only a king on its home square castles | not executed; high | BoardKing.LoneKingE4AsWritten | BoardKing.IntendedLoneKingE4 |
| lib/chui_core/src/traits/position.rs:80-140 | the same swap of the castling squares in the trait's default king generator | a king with the kingside right only, and all four squares empty, gets c1 and not g1 | kingside gives g1 and queenside c1 | not executed; high | PositionTrait.KingsideRightGivesC | PositionTrait.KingTargetsReach |
| src/modules/board.rs:425 | a black pawn steps down only when `rank_idx - 1 > 0` | a black pawn on a2 with a1 empty has no move | a black pawn steps to any empty square below it | not executed; high | OldestBoardRules.BlackPawnStuck | OldestBoardRules.PawnStepIntended |
| lib/chui_core/src/chess_move.rs:327-406 | the move text writes " to " whenever there is a source square, even with no target | a move with a piece, a type and a source square but no target ends in " to " | " to " only in front of a target square | not executed; high | ChessMove.DanglingToAsWritten | ChessMove.DanglingTo |
| lib/chui_core/src/modules/chess_move/mod.rs:327-333 | `set_to_coord_file` passes the 0-based rank to the (char, u8) conversion, which takes a 1-based rank | a move to e4 with file 'd' becomes a move to d3; a move to rank 1 is refused | the target keeps its rank | not executed; high | ModulesChessMove.ToCoordFileShiftsRank | ModulesChessMove.ToCoordFileKeepsRank |
