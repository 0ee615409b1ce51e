# Marvin, modelled in Dafny

A Dafny model of the deterministic core of the Marvin chess engine and of the
scripts that generate training data for its NNUE evaluation, with proofs of
what that code promises. One Dafny module models one source file.

Engine state and rules:

- `Types`: the move word (MOVE/FROM/TO/PROMOTION/TYPE), squares, pieces and colours.
- `CInt`: the C integer operations the source relies on (truncating division, int16_t wrap-around, MIN/MAX/CLAMP).
- `Utils` (`UtilsBits`, `BitScanReverse`, `BitCount`, `Utils`): bit scans, pop_bit, the SWAR pop_count, little-endian reads, skip_whitespace.
- `KeyXor`, `Key`: Zobrist key generation and its incremental updates, as XOR algebra over a table of random keys given as a parameter.
- `Fen`: fen_setup_board field by field and fen_build_string.
- `Board`: the castling permission masks of board.c.
- `Position`, `PositionObject`: pos_make_move/pos_unmake_move with the history stack, the null move, castling availability, material and repetition. `Position` holds the specification functions on values. `PositionObject.Position` is the class over arrays that the C code updates in place.
- `MoveStrings`: pos_move2str and pos_str2move.
- `Bitboard`: slider rays, occupancy combinations, the pawn, king and knight tables, pawn pushes and attacks, attacks_to.
- `Movegen`: the pseudo-legal generators and gen_legal_moves over a move-list class.

Search support:

- `Hash`: the transposition table (MOVEDATE packing, bucket choice, store, lookup, aging) and the NNUE score cache.
- `History`: the history, counter-move and follow-up tables, and killers.
- `MoveSelect`: the move selector's phase machine, add_moves and select_move.
- `Eval`: the tapered evaluation, king distance, game phase, material draws and the incremental piece features.
- `Search`: check_tt_cutoff, mate-score adjustment, the PV table, material_gain and the aspiration window.
- `Validation`: the validators.
- `Xboard`: the time-control counter, three-fold repetition and game-over detection.

NNUE:

- `Nnue`: the layers, the feature index, and the active and changed features.
- `Accumulator`: the int16_t accumulator, with full and incremental updates, over an evaluation stack class.
- `Network`: the forward pass and nnue_evaluate.

Training data:

- `SfenFormat`: the bit-packed Huffman board block as a stream of bits, with its decoder.
- `SfenBuffer`: the byte-buffer writer and reader of src/sfen.c. The encoders of src/selfplay.c are byte-for-byte the same and are modelled once here.
- `SfenGame`: move packing, play_game adjudication, generate and rescore of src/sfen.c.
- `SelfPlay`: src/selfplay.c's game loop and record writer.
- `GenSfen`: scripts/gensfen.py's encoder, writers and play_game.
- `WorkQueue`: the request_work counter protocol of both Python drivers.

Search itself, the engine used by the generators, and the pos_get_game_result
oracle are inputs. A play_game model is given the per-ply facts the engine
reports (move, score, check, game over) as a sequence.

The training record is 40 bytes (SFEN_BIN_SIZE, src/sfen.c:48); the model follows the code.

## Model

| member | source | states |
|---|---|---|
| Types.Color | src/types.h:88 | COLOR(p) is WHITE or BLACK, and BLACK exactly for the black pieces |
| Types.Value | src/types.h:91 | VALUE(p) is even and COLOR(p) + VALUE(p) == p (the two parts recombine to the piece) |
| Types.FlipColor | src/types.h:94 | FLIP_COLOR changes the colour |
| Types.FlipColorInvolution | src/types.h:94 | FLIP_COLOR is an involution |
| Types.SquareOf | src/types.h:140 | FILENR and RANKNR of SQUARE(f, r) give back f and r |
| Types.RankNr | src/types.h:149 | RANKNR of a square is in 0..7 |
| Types.FileNr | src/types.h:152 | FILENR of a square is in 0..7 |
| Types.SquareRoundTrip | src/types.h:140-152 | SQUARE(FILENR(s), RANKNR(s)) == s for every square |
| Types.Mirror | src/types.h:146 | MIRROR keeps the file and flips the rank |
| Types.MirrorInvolution | src/types.h:146 | MIRROR is an involution |
| Types.MoveOf | src/types.h:192-200 | FROM, TO, PROMOTION and TYPE recover f, t, p and l from MOVE(f, t, p, l), which fits 22 bits, for f, t < 64, p < 16, l < 64 |
| Types.PackedFields | src/types.h:192-200 | the four fields of the packed sum are read back by the masks and shifts |
| Types.MoveRoundTrip | src/types.h:192-200 | re-packing the fields of a 22-bit move gives the move |
| Types.TacticalOfFlags | src/types.h:201-208 | ISTACTICAL holds iff the capture, promotion or en-passant flag is set; ISNORMAL iff the type is NORMAL |
| Types.NullMoveFields | src/types.h:196 | NULLMOVE is MOVE(0, 0, NO_PIECE, NULL_MOVE): a null move, not tactical, from and to square 0 |
| Types.ToCastle | src/types.h:215-220 | TO_CASTLE gives the king's landing square g1/g8 or c1/c8 for castling and TO(move) otherwise |
| CInt.Min | src/utils.h:26 | MIN is one of its arguments and at most both |
| CInt.Max | src/utils.h:27 | MAX is one of its arguments and at least both |
| CInt.Clamp | src/utils.h:28 | CLAMP lies in [lo, hi], is x when x is inside, lo below and hi above |
| CInt.CDiv | src/eval.c:87-90 | C's `/` truncates toward zero: |q|*d <= |a| < (|q|+1)*d with q of a's sign |
| CInt.CDivNeg | src/eval.c:87-90 | truncating division commutes with negation |
| CInt.Int16 | src/nnue.c:229-259 | an int16_t conversion lies in [-2^15, 2^15) and leaves values in range unchanged |
| CInt.Int16Spec | src/nnue.c:229-259 | an int16_t conversion only removes a multiple of 2^16 |
| CInt.Int16Add | src/nnue.c:255-257 | wrapping after every addition equals wrapping once at the end |
| UtilsBits.DeBruijnLookup | src/utils.c:88-105 | for the single-bit word 2^r, the De Bruijn multiply, shift by 58 and index64 lookup give back r |
| UtilsBits.LowestBitExists | src/utils.c:98-105 | a non-zero word has a lowest set bit: set, with every lower bit clear |
| UtilsBits.IsolateLowest | src/utils.c:104 | v & -v is exactly the lowest set bit of v |
| UtilsBits.ClearLowest | src/utils.c:152 | v & ~(1 << r) clears bit r and keeps every other bit of v |
| BitScanReverse.Msb32 | src/utils.c:130-142 | the binary search over a non-zero 32-bit half returns r < 32 with l >> r == 1 |
| BitScanReverse.BitscanReverse | src/utils.c:120-143 | bitscan_reverse of a non-zero word returns the index of its highest set bit (v >> r == 1) |
| BitCount.CountBits | src/utils.c:66-73 | the number of set bits of v in a range is at most the range's width |
| Utils.PopCount | src/utils.c:66-73 | pop_count's result is a byte, in [0, 256) |
| Utils.PopCountByteCounts | src/utils.c:68-70 | after the three SWAR steps, byte k of the word holds the number of set bits of byte k of v |
| Utils.BitscanForwardLowest | src/utils.c:98-105 | bitscan_forward of a non-zero word is the index of its lowest set bit |
| Utils.PopBit | src/utils.c:146-155 | pop_bit returns the lowest set bit's index and leaves v with exactly that bit cleared |
| Utils.LittleEndian | src/utils.c:231-278 | the n little-endian bytes of x, n of them |
| Utils.ReadUint16Le | src/utils.c:231-244 | read_uint16_le is the value below 2^16 whose little-endian bytes are buffer[0..2] |
| Utils.ReadUint32Le | src/utils.c:261-278 | read_uint32_le is the value below 2^32 whose little-endian bytes are buffer[0..4] |
| Utils.SkipWhitespace | src/utils.c:353-359 | skip_whitespace stops at the first character from the start that is not white space (or the end), having passed only white space |
| KeyXor.XorTwice | src/key.c:520-524 | XOR-ing the same value twice restores the key (the group law every key update rests on) |
| KeyXor.XorAssoc | src/key.c:467-495 | XOR is associative, so the order in which key_generate adds terms does not matter |
| Key.UpdateEpSquare | src/key.c:526-535 | key_update_ep_square XORs out the old square's value and XORs in the new one's, NO_SQUARE contributing nothing |
| Key.UpdateSide | src/key.c:537-542 | key_update_side XORs both colour values, whichever colour is passed |
| Key.UpdatePieceInvolution | src/key.c:520-524 | key_update_piece applied twice with the same piece and square is the identity |
| Key.UpdatePieceCommutes | src/key.c:520-524 | piece updates commute with each other |
| Key.UpdateEpSquareAlgebra | src/key.c:526-535 | key_update_ep_square(k, a, a) == k, and a→b followed by b→c equals a→c |
| Key.UpdateSideAlgebra | src/key.c:537-542 | key_update_side gives the same key for either colour, so applying it twice is the identity |
| Key.UpdateCastlingAlgebra | src/key.c:544-549 | key_update_castling(k, a, a) == k, and a→b followed by b→c equals a→c |
| Key.KeyGenerate | src/key.c:467-495 | the loop of key_generate computes the XOR of the piece terms of occupied squares, the ep term, the castling term and the side term |
| Key.PiecesKeySet | src/key.c:474-481 | changing one square changes the pieces' key by exactly that square's old and new terms |
| Key.KeyAddPiece | src/key.c:467-524 | key_generate after placing a piece on an empty square equals key_update_piece of the previous key |
| Key.KeyRemovePiece | src/key.c:467-524 | key_generate after emptying a square equals key_update_piece of the previous key with the removed piece |
| Key.KeyNewEpSquare | src/key.c:467-535 | key_generate after changing the en-passant square equals key_update_ep_square of the previous key |
| Key.KeyNewCastling | src/key.c:467-549 | key_generate after changing the castling flags equals key_update_castling of the previous key |
| Key.KeyNewSide | src/key.c:467-542 | key_generate after flipping the side to move equals key_update_side of the previous key |
| Fen.CharToPiece | src/fen.c:123-153 | char2piece gives a piece exactly for the twelve piece letters and NO_PIECE otherwise |
| Fen.PieceChar | src/fen.c:360 | piece2char gives a piece letter that char2piece maps back to the piece |
| Fen.ScanRank | src/fen.c:169-183 | the inner placement loop, when it gets through, stops on '/' or ' ' with a 64-square board |
| Fen.RankCharsAlphabet | src/fen.c:353-368 | a rank fen_build_string writes holds only digits 1..8 and piece letters |
| Fen.RankRoundTrip | src/fen.c:168-185 | the inner parser loop reads back the characters fen_build_string writes for a rank onto the same squares and stops on the separator |
| Fen.RanksRoundTrip | src/fen.c:168-185 | the outer loop reads back the remaining ranks onto the board and leaves the pointer after the field's space |
| Fen.PlacementRoundTrip | src/fen.c:349-373 | the placement field fen_build_string writes is read back by fen_setup_board onto the empty board as the same piece array |
| Fen.SetFlagBits | src/fen.c:229-242 | castle |= flag sets that flag and leaves the other three unchanged |
| Fen.RookScanSpec | src/fen.c:47-93 | outer_rook finds the rook of the flag's colour nearest the flag's corner unless a king of that colour comes first, and NO_SQUARE only when no rook is reachable that way |
| Fen.LowestSquareOf | src/fen.c:95-121 | LSB of the piece's squares from sq on is the first square holding the piece, or NO_SQUARE |
| Fen.FileRight | src/fen.c:95-121 | a Chess960 file letter keeps the castling flags within 0..15 |
| Fen.CastlingField | src/fen.c:212-273 | an accepted castling field leaves castle within 0..15 |
| Fen.CastlingCharsShape | src/fen.c:219-267 | an accepted castling field consists of flag or file letters, possibly ended by one '-', and any other character is rejected |
| Fen.CastlingRoundTrip | src/fen.c:383-400 | the castling letters fen_build_string writes (or '-') are read back as the same four flags |
| Fen.SideFieldSpec | src/fen.c:196-210 | the side field is accepted only as 'w' or 'b' followed by a space, 'w' meaning WHITE; any other character is rejected |
| Fen.EpDash | src/fen.c:277-279 | '-' in the en-passant field gives NO_SQUARE |
| Fen.EpRoundTrip | src/fen.c:402-408 | the en-passant field fen_build_string writes is read back as the same square or NO_SQUARE |
| Fen.DigitsRoundTrip | src/fen.c:412 | the digits sprintf("%d") writes denote the value |
| Fen.ScanDigits | src/fen.c:301-306 | sscanf("%d") reads back the digits of a non-negative value and the loop stops after them |
| Fen.CountersAbsent | src/fen.c:297-328 | without the two counters (an EPD string) the clock is 0 and the move number 1 |
| Fen.CountersRoundTrip | src/fen.c:297-328 | read from the clock's first digit, the counters fen_build_string writes come back unchanged |
| Fen.CountersAsWrittenDropsDigit | src/fen.c:300-301 | as written, the clock is read from the digits after its first digit |
| Fen.CountersAsWrittenOneDigit | src/fen.c:300-301 | as written, a one-digit clock is skipped and sscanf reads the move number as the clock |
| Fen.CountersAsWritten | src/fen.c:297-328 | the counters as fen.c reads them, the first clock character skipped; an accepted clock is never negative |
| Fen.HalfmoveLosesFirstDigit | src/fen.c:300-301 | as written, the counters "12 40" read back as clock 2 and move 40 |
| Fen.HalfmoveOneDigitReadsMoveNumber | src/fen.c:300-301 | as written, the counters "5 40" read back as clock 40 |
| Fen.SetupFrom | src/fen.c:155-334 | an accepted FEN gives 64 squares, castle within 0..15, an en-passant square within 0..NO_SQUARE and a non-negative clock |
| Fen.AfterEp | src/fen.c:286-331 | an accepted en-passant square lies within 0..NO_SQUARE and the clock is non-negative; the outcome is undefined exactly when the range check lets a square below the board through and the counters then read, so that key_generate runs with it; a counter field sscanf rejects returns false first |
| Fen.SetupRoundTrip | src/fen.c:155-418 | fen_setup_board, with the two corrections, reads fen_build_string's output back into the same pieces, side, castling flags, ep square, clock and move number, with the key key_generate gives |
| Fen.EpBelowBoard | src/fen.c:281-291 | the en-passant field "a0" names square -8: the check as written lets it through to an out-of-range ep_values read, the corrected check rejects it |
| Fen.EpBelowBoardBadCounters | src/fen.c:289-302 | "a0" followed by the counters "1x 1" is rejected as written and corrected alike: sscanf cannot read the halfmove field once its first character is skipped, so fen_setup_board returns false before key_generate |
| Fen.ParsePlacement | src/fen.c:166-185 | the placement loops over pos->pieces give the board and pointer of the placement specification |
| Fen.OuterRook | src/fen.c:47-93 | the imperative scan returns the square the outer_rook specification gives |
| Fen.ParseCastling | src/fen.c:219-267 | the castling loop accepts exactly what the castling specification accepts, with the same flags and pointer |
| Fen.ParseSide | src/fen.c:196-210 | the active-colour code accepts exactly what the side specification accepts, with the same colour and pointer |
| Fen.ParseCastlingField | src/fen.c:212-273 | the castling field code accepts exactly what its specification accepts |
| Fen.ParseEp | src/fen.c:275-288 | the en-passant code accepts exactly what its specification accepts, with the same square and pointer |
| Fen.ReadInt | src/fen.c:301-306 | sscanf("%d") and the digit-skipping loop read the integer field of the specification |
| Fen.ParseCounters | src/fen.c:297-328 | the counter code accepts exactly what the corrected counter specification accepts, with the same clock and move number |
| Fen.SetupAsWritten | src/fen.c:155-334 | fen_setup_board as written accepts only positions with 64 squares, castle within 0..15, an ep square within 0..NO_SQUARE and a non-negative clock; an out-of-range ep square its check lets through is never accepted: it ends in undefined behaviour when the counters read, and in false when they do not |
| Fen.SetupBoard | src/fen.c:155-334 | fen_setup_board (corrected) returns true exactly when the specification accepts the string, and then leaves the position it describes |
| Fen.BuildRank | src/fen.c:353-368 | the builder's inner loop writes a rank's characters: a digit per run of empties and a letter per piece |
| Fen.FenBuildString | src/fen.c:336-418 | fen_build_string writes the placement ranks separated by '/', then side, castling, ep and counters as the FEN specification gives them |
| Fen.BuildFields | src/fen.c:375-417 | the side, castling, en-passant and counter fields, separated by spaces |
| Fen.BuildCastling | src/fen.c:383-399 | one letter per set flag in the order K, Q, k, q, and '-' when castle is 0 |
| Board.PermissionMaskFlags | src/board.c:30-44 | the mask of a square keeps exactly the castling flags that do not depend on that square |
| Board.AndFlagsBits | src/board.c:193-194 | a flag is set in a & b exactly when it is set in both |
| Board.FlagsDetermine | src/types.h:165-170 | two castling values with the same four flags are the same value |
| Board.MaskCastle | src/board.c:193-194 | the castling rights after a move stay within 0..15 |
| Board.MaskCastleSpec | src/board.c:193-194 | a move keeps a flag exactly when the flag was set and neither the from nor the to square is one the flag depends on: flags are only ever removed |
| Board.MaskAgreesWithPosition | src/board.c:193-194 | on a standard board with the flags at home, board_make_move's mask rule gives the same castling flags as update_castling_availability of position.c |
| Board.SameLoss | src/position.c:47-92 | for a flag that is set, the squares the mask tests and the moves position.c tests pick out the same moves |
| Board.NullMoveKeepsFifty | src/board.c:357-386 | after board_make_null_move the fifty-move counter is unchanged, one lower than after pos_make_null_move; every other field, key and pushed record included, is the same |
| Board.NullMoveRoundTrip | src/board.c:388-412 | board_unmake_null_move after board_make_null_move gives back the position |
| Position.AddPieceConsistent | src/position.c:94-100 | putting a piece on an empty square keeps the three bitboards in step with the piece array |
| Position.RemovePieceConsistent | src/position.c:102-108 | taking the piece that is on a square off it keeps the bitboards in step with the piece array |
| Position.PlacementDetermined | src/position.c:94-108 | the piece array determines the bitboards: two consistent boards with the same pieces are equal |
| Position.UpdateMaterialSigned | src/position.c:35-45 | update_material changes the white-positive balance by plus or minus the piece's value, and removing undoes adding |
| Position.ClearFlagBits | src/position.c:53-90 | castle &= ~flag turns that flag off and leaves the other three as they were |
| Position.CastlingAvailabilitySpec | src/position.c:47-92 | update_castling_availability only ever clears flags: a flag survives exactly when it was set and the move is not a king move of its side, a rook leaving its castling square, or a move onto the opponent rook's castling square |
| Position.ValidFitsMake | src/position.c:382-393 | a valid position and a pseudo-legal move meet every table lookup pos_make_move makes |
| Position.MakeStartSteps | src/position.c:395-418 | the record push, the new en-passant square (behind a double pawn push, else NO_SQUARE) and the castling update, each with its key update |
| Position.MakeStartGood | src/position.c:395-418 | after the record, ep-square and castling updates the key still equals key_generate's |
| Position.FlagsOfKind | src/types.h:174-206 | the move kinds a pseudo-legal move can have exclude each other under the flag tests pos_make_move makes |
| Position.MakePiecesSplit | src/position.c:420-462 | the piece moves are a removal phase followed by a landing phase |
| Position.MakeQuietGood | src/position.c:420-451 | a quiet move or non-capturing promotion keeps the board consistent and the key equal to key_generate's, the mover or its promotion piece landing on the target |
| Position.MakeCaptureGood | src/position.c:420-451 | a capture removes the victim before the mover lands, keeping the board consistent and the key right |
| Position.EnPassantSquares | src/position.c:429-433 | the pawn an en-passant capture removes is the enemy pawn behind the empty target square |
| Position.EnPassantMoved | src/position.c:420-451 | after an en-passant capture the from square and the victim's square are empty and the pawn is on the target |
| Position.MakeEnPassantGood | src/position.c:429-451 | an en-passant capture keeps the board consistent and the key right |
| Position.MakeCastleGood | src/position.c:436-462 | castling lifts king and rook before either lands, so Chess960 castlings whose squares overlap keep the board consistent and the key right |
| Position.MakePiecesGood | src/position.c:420-462 | every kind of move keeps the board consistent, the key equal to key_generate's, and the piece array equal to the moved array |
| Position.MakePiecesMaterial | src/position.c:424-451 | the material balance after the piece moves is the old one minus the victim and with a promoted pawn exchanged |
| Position.MakeMoveValid | src/position.c:372-495 | pos_make_move, up to its legality test, leaves a valid position with the moved pieces, the record on top of the history and the other side to move |
| Position.MakeMoveCounters | src/position.c:464-478 | the fifty-move counter resets on a capture or pawn move and otherwise counts up, the fullmove number goes up after black, the history height grows by one |
| Position.UnmakeMoveSteps | src/position.c:500-579 | pos_unmake_move is the record's restore, the piece moves back and the counter and side restore |
| Position.UnmakeQuietChain | src/position.c:529-550 | removing the landed piece and putting the mover back gives the board before a quiet move |
| Position.UnmakeCaptureChain | src/position.c:529-555 | and for a capture the victim is put back on the target |
| Position.UnmakeEnPassantChain | src/position.c:529-558 | and for en passant the victim pawn is put back behind the target |
| Position.UnmakeCastleChain | src/position.c:539-566 | for castling, lifting king and rook and putting both back gives the board before, overlapping squares included |
| Position.PawnOfSide | src/types.h:60-91 | a pawn of side stm is the piece PAWN + stm, as pos_unmake_move recreates it |
| Position.RestoreQuiet | src/position.c:527-559 | pos_unmake_move's piece moves take the board and material of a quiet move or promotion back |
| Position.RestoreCapture | src/position.c:527-559 | the same for a capture, promoting or not |
| Position.RestoreEnPassant | src/position.c:527-559 | the same for an en-passant capture |
| Position.RestoreCastle | src/position.c:539-566 | the same for castling |
| Position.UnmakePiecesRestores | src/position.c:527-566 | for every move kind, the piece moves of pos_unmake_move restore the board and material pos_make_move changed |
| Position.MakeUnmakeRoundTrip | src/position.c:372-579 | pos_unmake_move after pos_make_move gives back the whole position: board, key, ep square, castling flags, counters, material, side and history |
| Position.LowestSquare | src/bitboard.h:52 | LSB gives the lowest set square from i on, or NO_SQUARE when none is set |
| Position.ConsistentBoards | src/position.c:94-108 | bitboards kept in step with the array hold only board squares |
| Position.KingFound | src/position.c:363-370 | a king on the piece array is found by LSB on its bitboard |
| Position.KingSurvives | src/position.c:420-462 | the mover's king is still somewhere on the board after the piece moves |
| Position.KingLands | src/position.c:442-451 | a king that moves, castling or not, stands on TO_CASTLE afterwards |
| Position.KingStays | src/position.c:420-462 | a king that does not move is neither captured nor covered |
| Position.MakeMoveKeepsKing | src/position.c:485-492 | after the piece moves the mover's king is found, so pos_in_check can be asked |
| Position.MakeMoveChecked | src/position.c:485-492 | the legality test answers whether the mover's king is attacked, and a move found illegal is taken back to the exact position before |
| Position.HasNonPawnSpec | src/position.c:670-677 | pos_has_non_pawn holds exactly when the side has a knight, bishop, rook or queen on the board |
| Position.MakeNullMoveSteps | src/position.c:581-609 | the null-move record push, NO_SQUARE as ep square and the side passing |
| Position.MakeNullMoveValid | src/position.c:581-618 | a null move keeps the position valid, leaves the board and castling alone, clears the ep square, counts up the fifty-move counter and passes the move |
| Position.NullMoveRoundTrip | src/position.c:581-642 | pos_unmake_null_move after pos_make_null_move gives back the position |
| Position.UnmakeNullPushed | src/position.c:620-642 | popping a null-move record restores the castling flags, ep square, fifty counter, key, fullmove number and side |
| PositionObject.Position.constructor | src/position.c:143-170 | a cleared position: empty board, consistent bitboards, no history |
| PositionObject.Position.AddPiece | src/position.c:94-100 | add_piece on the object's arrays has the effect of the value-level add |
| PositionObject.Position.RemovePiece | src/position.c:102-108 | remove_piece likewise |
| PositionObject.Position.PushHistory | src/position.c:110-121 | the record goes on top of the history and ply and height grow by one |
| PositionObject.Position.PopHistory | src/position.c:123-133 | returns the top record and shrinks ply, and height while it is positive |
| PositionObject.Position.UpdateMaterial | src/position.c:35-45 | the material field takes the signed change |
| PositionObject.Position.UpdateCastlingAvailability | src/position.c:47-92 | the castle field takes the value the flag-clearing rule gives |
| PositionObject.Position.IsRepetition | src/position.c:644-668 | the loop answers whether a record of the same side, back to the last irreversible move, has the current key |
| PositionObject.Position.TakePiece | src/position.c:421-422 | remove_piece with its key update |
| PositionObject.Position.PutPiece | src/position.c:449-450 | add_piece with its key update |
| PositionObject.Position.MakeStart | src/position.c:395-418 | record, ep square and castling flags with their keys |
| PositionObject.Position.SetEpSquare | src/position.c:409-414 | the new ep square with its key update |
| PositionObject.Position.SetCastling | src/position.c:416-418 | the castling update with its key update |
| PositionObject.Position.MakePieces | src/position.c:420-462 | the piece moves on the arrays are the value-level piece moves |
| PositionObject.Position.RemoveStage | src/position.c:420-440 | the mover, the victim and a castling rook leave the board |
| PositionObject.Position.PlaceStage | src/position.c:442-462 | the mover or its promotion and a castling rook land |
| PositionObject.Position.MakeFinish | src/position.c:464-478 | fifty-move counter, fullmove number, side to move with its key |
| PositionObject.Position.InCheck | src/position.c:363-370 | pos_in_check: whether the side's king square is attacked by the other side |
| PositionObject.Position.MakeMove | src/position.c:372-498 | returns true exactly when the move leaves the mover's king safe; then the position is the made move, which pos_unmake_move takes back; otherwise the position is unchanged |
| PositionObject.Position.ApplyMove | src/position.c:372-478 | the moves before the legality test give the value-level made move |
| PositionObject.Position.UnmakeMove | src/position.c:500-579 | pos_unmake_move on the object gives the value-level unmade position |
| PositionObject.Position.RestoreRecord | src/position.c:512-518 | pop the record and restore castle, ep square, fifty counter and key |
| PositionObject.Position.UnmakeFinish | src/position.c:569-575 | fullmove number back after white, the mover to move again |
| PositionObject.Position.UnmakePieces | src/position.c:526-566 | the piece moves back |
| PositionObject.Position.UnmakeLift | src/position.c:526-547 | the piece on the target and a castling rook leave; the piece that goes back is a pawn after a promotion |
| PositionObject.Position.UnmakeReturn | src/position.c:549-566 | the mover goes back, a victim returns with its material, a castling rook returns |
| PositionObject.Position.MakeNullMove | src/position.c:581-618 | the object's null move is the value-level null move |
| PositionObject.Position.PassSide | src/position.c:604-609 | fifty up, fullmove after black, the side flips with its key |
| PositionObject.Position.UnmakeNullMove | src/position.c:620-642 | the object's null-move undo is the value-level one |
| PositionObject.Position.TakeVictim | src/position.c:424-434 | the captured piece or en-passant pawn leaves with its material |
| PositionObject.Position.LandMover | src/position.c:442-451 | the mover or its promotion lands, with the material exchanged for a promotion |
| MoveStrings.SquareName | src/position.c:242-245 | a square is written as a file letter a..h and a rank digit 1..8 |
| MoveStrings.Move2Str | src/position.c:198-268 | a move that is neither the null move, NOMOVE nor an O-O castling is written as four characters, or five with a promotion letter, beginning with its from square |
| MoveStrings.ParseMove | src/position.c:282-339 | pos_str2move gives up (NOMOVE) exactly when the string is shorter than three characters |
| MoveStrings.Str2Move | src/position.c:270-361 | the result is NOMOVE when the string is too short, and otherwise the first generated move whose from and to squares (and promotion, for a promotion) match the parsed ones, or NOMOVE when none does |
| MoveStrings.ThreeCharsMatchNothing | src/position.c:282-308 | a three-character string passes the length test, whose comment asks for four, but its to square is read from the terminator and matches no move |
| MoveStrings.SquareNameParses | src/position.c:307-308 | SQUARE(str[0]-'a', str[1]-'1') reads back the square pos_move2str writes |
| MoveStrings.Move2StrReadsBack | src/position.c:198-361 | pos_str2move reads the string pos_move2str writes for a move back into the move's from square, to square and promotion, in standard chess and in Chess960 |
| MoveStrings.CastlingReadsBack | src/position.c:231-303 | with the Xboard protocol in Chess960, "O-O" and "O-O-O" read back to the king's square and the castling rook's square |
| MoveStrings.CoordinatesReadBack | src/position.c:225-339 | a coordinate string reads back, a standard-chess castling's king move being turned back into king-captures-rook |
| Bitboard.Shl | src/bitboard.c:747-760 | shifting a bitboard up by n moves each square n up and drops the ones that leave the board |
| Bitboard.Shr | src/bitboard.c:747-760 | shifting down by n likewise |
| Bitboard.FileMask | src/bitboard.c:762-775 | the file mask holds exactly the squares of that file |
| Bitboard.RankMask | src/bitboard.c:747-760 | the rank mask holds exactly the squares of that rank |
| Bitboard.PawnPushesWhite | src/bitboard.c:747-760 | bb_pawn_pushes for white: a target is empty and has a pawn one below it, or is on rank 4 with a pawn two below and the square between empty |
| Bitboard.PawnPushesBlack | src/bitboard.c:747-760 | and for black, mirrored, rank 5 |
| Bitboard.PawnAttacksWhite | src/bitboard.c:762-775 | bb_pawn_attacks for white: a target has a pawn diagonally below it on an adjacent file, with no wrap across the board edge |
| Bitboard.PawnAttacksBlack | src/bitboard.c:762-775 | and for black, diagonally above |
| Bitboard.RayLength | src/bitboard.c:259-279 | a ray from a square runs at most seven steps |
| Bitboard.SlideOnRay | src/bitboard.c:264-276 | every square the slide loop adds lies on the ray |
| Bitboard.SlideReaches | src/bitboard.c:264-276 | a square on the ray is added exactly when every square before it is empty |
| Bitboard.RayInjective | src/bitboard.c:264-276 | the squares of a ray are distinct |
| Bitboard.RayPrefix | src/bitboard.c:264-276 | a ray that reaches step j passes all the steps before it |
| Bitboard.SliderMovesSpec | src/bitboard.c:259-279 | get_slider_moves gives exactly the squares along the direction up to and including the first occupied one |
| Bitboard.UnblockedReached | src/bitboard.c:259-279 | an unblocked square on the ray is among the slider's moves |
| Bitboard.SlideFromAdds | src/bitboard.c:264-276 | the loop adds the slide from the current step to the moves so far |
| Bitboard.GetSliderMoves | src/bitboard.c:259-279 | the imperative loop returns the slider's moves of the specification |
| Bitboard.OccupancySpec | src/bitboard.c:282-300 | a square is in the occupancy exactly when one of the selected blocker squares is it |
| Bitboard.OccupancyZero | src/bitboard.c:282-300 | index 0 selects no blockers |
| Bitboard.GetOccupancyCombination | src/bitboard.c:282-300 | the loop builds the occupancy the index bits select |
| Bitboard.PawnAttacksFromSpec | src/bitboard.c:408-489 | a pawn off the first and last ranks attacks the two squares diagonally forward, none off the board |
| Bitboard.PawnAttacksConverse | src/bitboard.c:408-489 | the attacks-to table is the converse of the attacks-from table |
| Bitboard.PawnMovesSpec | src/bitboard.c:543-575 | bb_pawn_moves: one square forward if empty, two from the home rank if both are empty |
| Bitboard.PawnMovesConverse | src/bitboard.c:577-601 | bb_pawn_moves_to gives exactly the from squares bb_pawn_moves reaches the target from |
| Bitboard.PrecalcPawnMoves | src/bitboard.c:408-489 | precalc_pawn_moves fills every square's entries with the move, attacks-from and attacks-to sets |
| Bitboard.PawnEntry | src/bitboard.c:413-487 | one square's three entries |
| Bitboard.JumpsSpec | src/bitboard.c:491-533 | a target is in a jump table entry exactly when one of the offsets leads to it on the board |
| Bitboard.KingTargetsSpec | src/bitboard.c:491-511 | the king table holds the up to eight neighbouring squares |
| Bitboard.KingOffsetIndex | src/bitboard.c:491-511 | every neighbour offset is among the king's eight |
| Bitboard.KnightTargetsSpec | src/bitboard.c:513-533 | the knight table holds the squares a knight's jump away |
| Bitboard.KnightOffsetIndex | src/bitboard.c:513-533 | every knight jump is among the eight offsets |
| Bitboard.SteppersSymmetric | src/bitboard.c:491-533 | king and knight tables are symmetric: t is a target of sq exactly when sq is a target of t |
| Bitboard.PrecalcJumps | src/bitboard.c:491-533 | the loops fill each square's entry with its jump targets |
| Bitboard.RayReverse | src/bitboard.c:259-279 | walking back i steps from step j of a ray lands on step j - i |
| Bitboard.SliderSymmetric | src/bitboard.c:259-279 | a slider reaching t from sq reaches sq from t in the opposite direction |
| Bitboard.SliderStep | src/bitboard.c:259-279 | a slider move is some step 1..7 of the ray with the squares before it empty |
| Bitboard.ReversedUnblocked | src/bitboard.c:259-279 | the squares between are the same walked backwards |
| Bitboard.RookSymmetric | src/bitboard.c:640-652 | rook moves are symmetric for the same occupancy |
| Bitboard.BishopSymmetric | src/bitboard.c:626-638 | bishop moves are symmetric for the same occupancy |
| Bitboard.SlidersSymmetric | src/bitboard.c:626-659 | rook, bishop and queen moves all reach t from sq exactly when they reach sq from t |
| Bitboard.AttacksToSpec | src/bitboard.c:668-686 | bb_attacks_to gives exactly the squares holding a piece of the side that attacks the target |
| Bitboard.AttackerAttacks | src/bitboard.c:688-695 | a square with an attacker is attacked |
| Bitboard.AttackedHasAttacker | src/bitboard.c:688-695 | an attacked square has an attacker |
| Bitboard.AttackersOnBoard | src/bitboard.c:668-686 | the attackers lie on the board |
| Hash.MoveDate | src/hash.c:39-40 | MOVEDATE packs a 22-bit move and a 10-bit date into 32 bits from which GETMOVE and GETDATE read both back |
| Hash.MoveDateSplit | src/hash.c:39-40 | every 32-bit move field is the packing of its own move and date |
| Hash.LargestPowerOf2 | src/hash.c:48-61 | largest_power_of_2 returns the largest power of two not above the number of items that fit, or 0 when none fits |
| Hash.BucketIndex | src/hash.c:178 | key & (tt_size - 1) picks a bucket of the table |
| Hash.ItemScore | src/hash.c:216-217 | an item's replacement score, depth times 256 plus 255 minus its age, stays below INT_MAX |
| Hash.WorstIsFirstMinimum | src/hash.c:211-223 | the replacement scan picks the first item of lowest score |
| Hash.StoredScore | src/hash.c:165-175 | a mate or tablebase score is stored only as TT_EXACT, adjusted by sply to count from the current position; other scores are stored as they are |
| Hash.StoreSlot | src/hash.c:177-225 | the slot written lies in the key's bucket |
| Hash.ChooseSlotMeaning | src/hash.c:185-224 | the slot written is the first one holding the key or empty, with no earlier slot holding either; failing both, the first of the lowest-scored items |
| Hash.FirstStopSkips | src/hash.c:187-209 | the scan stops at the first item that holds the key or is empty |
| Hash.FirstMatchSkips | src/hash.c:257-266 | the lookup finds the first item holding the key |
| Hash.FirstStopNone | src/hash.c:187-224 | a scan that never stops saw no item holding the key and no empty item |
| Hash.FirstStopBefore | src/hash.c:187-209 | every item before the stop neither holds the key nor is empty |
| Hash.MateBoundNotStored | src/hash.c:165-175 | a mate score that is only a bound leaves the table unchanged |
| Hash.DeeperCurrentItemKept | src/hash.c:195-205 | an item of the same key from the same search and of greater depth is kept, and the table is unchanged |
| Hash.StoreThenLookup | src/hash.c:129-269 | a store that writes changes one item of the key's bucket and nothing else, and hash_tt_lookup then finds the stored move, score, depth and type |
| Hash.TranspositionTable.constructor | src/hash.c:96-122 | hash_tt_create_table leaves the date at 0, every item cleared, and as many buckets as largest_power_of_2 gives: a power of two, or none when no bucket fits |
| Hash.TranspositionTable.Age | src/hash.c:124-127 | hash_tt_age_table moves the 8-bit date on by one, wrapping at 256, and leaves the items alone |
| Hash.TranspositionTable.Store | src/hash.c:129-233 | for a score strictly inside ±INFINITE_SCORE, as hash.c:142 asserts, the table after hash_tt_store is the store specification applied to the table before |
| Hash.TranspositionTable.ScanBucket | src/hash.c:185-224 | the bucket loop returns the slot the replacement specification chooses |
| Hash.TranspositionTable.Lookup | src/hash.c:235-269 | hash_tt_lookup finds an item exactly when the bucket has one with the key, and returns the first such item with the date masked off its move |
| Hash.NnueCache.Store | src/hash.c:318-340 | hash_nnue_store overwrites the key's slot with the key and score, and does nothing without a table |
| Hash.NnueCache.Lookup | src/hash.c:342-369 | hash_nnue_lookup answers with the slot's score exactly when the slot holds the key |
| Hash.CacheStoreThenLookup | src/hash.c:318-369 | after storing a score for a key, looking the key up gives that score |
| Hash.CacheStoreOther | src/hash.c:318-369 | storing under one key does not change the answer for a key of another slot |
| History.MoveKey | src/history.c:87-88 | a move's table index, piece and TO_CASTLE square, lies within the table |
| History.CounterMove | src/history.c:72-75 | the counter move is the previous move when there is one and it is not a null move, else NOMOVE |
| History.FollowMove | src/history.c:77-81 | the follow-up move is the move two plies back when neither of the last two is a null move, else NOMOVE |
| History.ContIndex | src/history.c:102-104 | an index into a continuation table lies within it |
| History.Bonus | src/history.c:91 | the best move, the last of the list, gets +depth² and every other move -depth² |
| History.BonusRange | src/history.c:69-91 | with the depth limited to 20 the bonus lies within ±400 |
| History.HistoryScore | src/history.c:94-96 | the history_table update never exceeds MAX_HISTORY_SCORE |
| History.AccumScore | src/history.c:102-105 | the counter_history and follow_history update never exceeds MAX_HISTORY_SCORE |
| History.HistoryScoreBounded | src/history.c:94-96 | from an entry within its bound, the product score*abs(delta) does not overflow int and the new entry stays within the bound, so the MIN never cuts |
| History.AccumScoreNonNeg | src/history.c:102-105 | from a non-negative entry, the continuation update moves the entry up for a bonus and down for a penalty without overflow and within the bound |
| History.ContinuationProducts | src/history.c:102-105 | the bounds on the product the continuation update divides |
| History.AccumScoreMoves | src/history.c:102-105 | for any entry within the bound, a bonus never lowers it, a penalty never raises it, it stays within the bound and the product does not overflow |
| History.RepeatedBonusLowersHistory | src/history.c:94-115 | history_table takes the update with = where the continuation tables take it with +=, so a move that is best twice at depth 20 falls from 12800 to 2800 in history_table while it rises to 15600 in a continuation table |
| History.StepBounded | src/history.c:85-117 | one loop iteration keeps all three tables within their bounds |
| History.PassedBounded | src/history.c:85-117 | the whole loop keeps the tables within their bounds |
| History.PassedFrame | src/history.c:85-117 | a history entry no move of the list indexes is left unchanged |
| History.StepCounterDirection | src/history.c:98-106 | the counter-history entry of the best move never goes down and that of any other move never goes up |
| History.HistoryTables.constructor | src/history.c:38-45 | cleared tables: all scores 0, killers and counter moves NOMOVE |
| History.HistoryTables.ClearedBounded | src/history.c:38-45 | cleared tables are within the bounds |
| History.HistoryTables.UpdateTables | src/history.c:47-118 | history_update_tables leaves the tables the loop specification gives, with the depth limited to 20 and the last move of the list as best |
| History.HistoryTables.UpdateMove | src/history.c:86-116 | one pass of the loop changes the three tables exactly as the specification step for that move does, and nothing else |
| History.HistoryTables.GetScores | src/history.c:120-207 | history_get_scores returns the three parts whose sum history_get_score gives; the counter and follow-up parts are 0 without such a move |
| History.HistoryTables.KillerAdd | src/history.c:218-230 | after killer_add_move, killer_get_move gives the move and the killers of other plies are unchanged |
| History.HistoryTables.KillerClear | src/history.c:209-216 | every killer is NOMOVE |
| History.HistoryTables.CounterClear | src/history.c:232-242 | every counter move is NOMOVE |
| History.HistoryTables.CounterGet | src/history.c:262-282 | NOMOVE at the root, or when the previous move is NOMOVE or a null move |
| History.HistoryTables.CounterAdd | src/history.c:244-282 | after a null move nothing changes; otherwise counter_get_move then gives the move, and only the entry of the previous move's piece and square changes |
| SfenFormat.Bits | src/sfen.c:90-100 | the n bits encode_bits writes are the value's n low bits, least significant first |
| SfenFormat.ValueOfBits | src/sfen.c:90-112 | read_bits of n bits written from v gives v back whenever v < 2^n (LSB-first order) |
| SfenFormat.BitsOfValue | src/sfen.c:102-112 | writing the bits of a value read from n bits gives the same n bits |
| SfenFormat.BitsLow | src/sfen.c:90-100 | only the n low bits are written: v and v + k*2^n write the same bits |
| SfenFormat.CodeValue | src/sfen.c:60-71 | each Huffman code in the piece table reads back as its own value |
| SfenFormat.TableRow | src/sfen.c:60-71 | rows PAWN..QUEEN of the table carry the four-bit code 2k-1 |
| SfenFormat.HuffmanPrefixFree | src/sfen.c:60-71 | no code of the table is a prefix of another one |
| SfenFormat.PieceBits | src/sfen.c:114-129 | encode_piece writes one 0 bit for an empty square, otherwise the piece type's code then the colour bit |
| SfenFormat.FindCodeSpec | src/sfen.c:139-150 | the table lookup of read_piece: code 0 of length 1 is row 0, an odd four-bit code below 11 is row (code+1)/2, nothing else matches |
| SfenFormat.PieceRoundTrip | src/sfen.c:114-159 | read_piece where encode_piece wrote a non-king piece or an empty square gives that piece and moves past its code |
| SfenFormat.StreamLength | src/sfen.c:161-212 | the stream encode_position writes is 103 bits plus 4 per non-king piece plus 6 with an en-passant square, so it fits the 256-bit block with at most 36 such pieces |
| SfenFormat.RankLength | src/sfen.c:176-184 | each non-king square of a rank costs one bit and a piece four more |
| SfenFormat.KingsCounted | src/sfen.c:176-184 | with the kings on their own two squares, exactly two squares of the board block are skipped |
| SfenFormat.ReadBitsRoundTrip | src/sfen.c:90-112 | reading n bits where n bits of v were written gives v and the rest of the stream |
| SfenFormat.ReadPieceRoundTrip | src/sfen.c:114-159 | reading a piece where one was encoded gives the piece and the rest of the stream |
| SfenFormat.RankRoundTrip | src/sfen.c:247-258 | reading rank r back from file f restores its squares and leaves what follows |
| SfenFormat.SquaresRoundTrip | src/sfen.c:246-259 | reading the board block back from any rank restores every square and leaves what follows |
| SfenFormat.CastleBits | src/sfen.c:186-190 | the four castling bits are the flags as a four-bit number |
| SfenFormat.CountersRoundTrip | src/sfen.c:282-292 | the fifty-move counter survives split 6 + 1 bits and the move number split 8 + 8 bits |
| SfenFormat.TailRoundTrip | src/sfen.c:261-292 | reading the tail back gives the castling flags, en-passant square and both counters |
| SfenFormat.StreamRoundTrip | src/sfen.c:161-293 | position_from_sfen(encode_position(pos)) restores side to move, both king squares, every other square, castling flags, en-passant square, the 7-bit fifty counter and the 16-bit move number, whatever follows the stream |
| SfenBuffer.OrBytesBits | src/sfen.c:73-80 | the bytes after a write, read as bits, are the old bits ORed with the written window: bits are only ever set |
| SfenBuffer.OrBytesAppend | src/sfen.c:90-100 | writing w1 and then w2 right after it is writing w1 + w2 (the cursor-chained writes compose) |
| SfenBuffer.WriteMore | src/sfen.c:161-212 | with w written from bit 0, writing more at cursor |w| leaves the block holding w + more |
| SfenBuffer.ClearedBlockHolds | src/sfen.c:363 | bits written from bit 0 into a zeroed block read back as those bits followed by clear bits |
| SfenBuffer.EncodeBit | src/sfen.c:73-80 | encode_bit ORs bit cursor into byte cursor/8 (only when the value is 1) and returns cursor+1 wrapped as a uint8_t |
| SfenBuffer.EncodeBits | src/sfen.c:90-100 | encode_bits ORs the nbits low bits of the value LSB-first from the cursor and advances the cursor by nbits |
| SfenBuffer.EncodePiece | src/sfen.c:114-129 | encode_piece ORs exactly the Huffman code and colour bit of the piece into the block and advances past them |
| SfenBuffer.EncodeColoured | src/sfen.c:122-126 | for a piece, the bits ORed into the block are its table row's code followed by its colour bit, and the cursor moves past both |
| SfenBuffer.EncodeHeader | src/sfen.c:168-173 | the side-to-move bit and both six-bit king squares are written from bit 0 |
| SfenBuffer.EncodeSquares | src/sfen.c:175-184 | the rank/file loop writes the whole board block, kings skipped, right after the header |
| SfenBuffer.EncodeTail | src/sfen.c:186-211 | the castling bits, en-passant field and counters are written right after the board block |
| SfenBuffer.EncodePosition | src/sfen.c:161-212 | encode_position leaves the block ORed with exactly the stream of SfenFormat.EncodeStream from bit 0 |
| SfenBuffer.EncodedBlockDecodes | src/sfen.c:161-293 | a zeroed block written by encode_position holds the stream then clear bits, and position_from_sfen decodes it to the same position |
| SfenBuffer.ReadBit | src/sfen.c:82-88 | read_bit returns bit cursor%8 of byte cursor/8 and advances by one; None past the block |
| SfenBuffer.ReadBits | src/sfen.c:102-112 | read_bits assembles nbits bits LSB-first from the cursor into their value and advances by nbits |
| SfenBuffer.ReadBitsMeets | src/sfen.c:102-112 | what read_bits returns on the bytes is what the stream decoder reads at that cursor |
| SfenBuffer.FindRow | src/sfen.c:139-150 | the table scan finds the first row whose code and length match, or the table size |
| SfenBuffer.ReadPiece | src/sfen.c:131-159 | read_piece on the bytes is the stream decoder's DecodePiece at the cursor |
| SfenBuffer.ReadRank | src/sfen.c:248-258 | the file loop reads a piece for every square still empty, as the stream decoder does |
| SfenBuffer.ReadSquares | src/sfen.c:246-259 | the rank loop from rank 8 down is the stream decoder's board block |
| SfenBuffer.ReadCastle | src/sfen.c:261-273 | the four castling bits, bit k setting flag 2^k, read as a four-bit value |
| SfenBuffer.ReadEp | src/sfen.c:276-280 | the en-passant flag and, when set, the six-bit square; NO_SQUARE otherwise |
| SfenBuffer.ReadCounters | src/sfen.c:282-292 | the fifty counter's low six bits, the move number's two bytes and the fifty counter's high bit, assembled as the stream decoder does |
| SfenBuffer.ReadTail | src/sfen.c:261-292 | everything after the board block, as the stream decoder reads it |
| SfenBuffer.PositionFromSfen | src/sfen.c:223-293 | position_from_sfen on the 32-byte block is the stream decoder on the block's bits |
| SfenGame.EncodeMove | src/sfen.c:295-313 | encode_move's result is a 16-bit value |
| SfenGame.EncodeMoveFields | src/sfen.c:295-313 | reading encode_move's fields gives the destination (bits 0-5), the origin (6-11), the promoted type as VALUE/2-1 (12-13) and flag 1 exactly for a promotion, 2 for en passant and 3 for castling |
| SfenGame.NextDraws | src/sfen.c:411-422 | draw_count is untouched up to MIN_DRAW_PLY; past it, it is non-zero exactly when the score is within DRAW_SCORE |
| SfenGame.Run | src/sfen.c:374-426 | the game loop stops at a position whose result is decided, or adjudicates a white result of -1, 0 or 1 |
| SfenGame.RunStores | src/sfen.c:393-422 | a quiet ply below the eval limit is stored first, and the loop stops after it at the ply limit or when the draw count is reached, with result 0 |
| SfenGame.RunRecordsQuiet | src/sfen.c:378-391 | every stored record is the entry of an undecided, quiet ply (not tactical, not in check, giving no check) whose score is below EVAL_LIMIT |
| SfenGame.RunBounded | src/sfen.c:397-409 | stored records have strictly increasing plies, none before the starting ply, and are bounded by the remaining ply budget |
| SfenGame.GameFitsBatch | src/sfen.c:349-409 | a game that starts undecided after RANDOM_PLIES never stores more than MAX_GAME_PLY records, so the batch array does not overflow |
| SfenGame.GameOverResult | src/sfen.c:428-439 | a game that ends on the board is won by the side that gave mate (the side not to move) and drawn otherwise |
| SfenGame.WhiteResult | src/sfen.c:428-439 | white's result is always -1, 0 or 1 |
| SfenGame.ResultRecords | src/sfen.c:440-447 | each written record has stm_result multiplied by white's result, and exactly min(npos, pos_left) are written |
| SfenGame.PlayGameRecords | src/sfen.c:349-452 | play_game writes at most pos_left records, each with stm_result = (stm==WHITE?1:-1) * white's result |
| SfenGame.WriteBatch | src/sfen.c:440-448 | the batch's stm_results are scaled in place and the first min(npos, pos_left) records are written |
| SfenGame.PlayGame | src/sfen.c:349-452 | the method walking the game over a MAX_GAME_PLY batch array writes exactly the records of the game specification, at most pos_left of them |
| SfenGame.PlayGamePrefix | src/sfen.c:440-448 | with pos_left positions left, play_game writes the first pos_left of the game's records |
| SfenGame.Generate | src/sfen.c:454-495 | generate writes exactly the first npositions records of the games played in turn (all of them when there are fewer), and none when npositions <= 0 |
| SfenGame.GenerateDone | src/sfen.c:479-486 | when the loop stops, the records written are the first min(npositions, total) records of all games |
| SfenGame.RescoreCountExact | src/sfen.c:528-547 | rescore's checks pass exactly when the size is a multiple of 40, the offset is below the entry count and offset + count fits in the file |
| SfenGame.Rescored | src/sfen.c:591-597 | a search score strictly inside ±EVAL_LIMIT replaces the stored score; any other score leaves the record unchanged |
| SfenGame.RescoredProper | src/sfen.c:591-597 | rescoring keeps a record's result, move and position, so a proper record stays proper |
| SfenGame.ScoreBatch | src/sfen.c:584-598 | every entry of the batch is rescored with its own search score |
| SfenGame.RescoreEntries | src/sfen.c:567-612 | the batch loop writes exactly the first npositions rescored entries, or fails with a read error after the full batches the input holds |
| SfenGame.Rescore | src/sfen.c:497-626 | rescore rejects sizes, offsets and counts its checks refuse, and otherwise writes the requested entries after the offset, each rescored |
| SelfPlay.FillPositionData | src/selfplay.c:238-253 | fill_position_data copies the board, kings, ep, castle, counters and ply of the position with the searched move and score, and sets stm_result to +1 for white to move, -1 for black |
| SelfPlay.FillRecordsEntry | src/selfplay.c:238-253 | the data one ply leaves, once written, is the record src/sfen.c stores for that ply, also after stm_result is scaled |
| SelfPlay.WriteSfenData | src/selfplay.c:205-218 | write_sfen_data produces the record of the data with padding 0xFF, its 32-byte block holding the position's stream followed by zero bits |
| SelfPlay.BlockBits | src/selfplay.c:131-182 | the 256 bits of a record's block start with the position's stream |
| SelfPlay.BlockDecodes | src/selfplay.c:131-182 | the block sfen_encode_position writes for a well-formed position decodes back to that position |
| SelfPlay.StorePlies | src/selfplay.c:313-373 | the game loop keeps the data of exactly the plies the game specification stores, and sets white's result as that specification does |
| SelfPlay.SetResults | src/selfplay.c:374-376 | stm_result *= white_result on each of the npos stored entries and on nothing else |
| SelfPlay.WritePositionData | src/selfplay.c:220-236 | writes the first npos scaled entries as the records of ResultRecords, each with the block of its position |
| SelfPlay.PlayGame | src/selfplay.c:289-385 | selfplay's play_game writes exactly the records of src/sfen.c's play_game specification, at most pos_left of them |
| SelfPlay.PlayGames | src/selfplay.c:387-430 | play_games writes exactly the first npositions records of the games played in turn, none when npositions <= 0 |
| GenSfen.U16 | scripts/gensfen.py:38 | np.uint16 keeps the value below 2^16 and leaves smaller values unchanged |
| GenSfen.CellOf | scripts/gensfen.py:52-63 | a python-chess piece maps to the engine's cell: empty to NO_PIECE, kings to kings, colour and type preserved |
| GenSfen.EpOf | scripts/gensfen.py:108-112 | `not board.ep_square` also holds for square 0, so the square written is NO_SQUARE or a non-zero en-passant square |
| GenSfen.CastleOf | scripts/gensfen.py:97-105 | the four castling rights become the four engine flags, a value below 16 |
| GenSfen.SfenOf | scripts/gensfen.py:76-130 | the engine position the script's board stands for: cells, side, kings, ep, castling and counters |
| GenSfen.EncodeBit | scripts/gensfen.py:37-41 | encode_bit sets bit pos only for a non-zero value and returns pos + 1 |
| GenSfen.EncodeBits | scripts/gensfen.py:45-49 | encode_bits ORs the nbits low bits of value LSB-first from pos and returns pos + nbits |
| GenSfen.PyCode | scripts/gensfen.py:52-63 | the script's Huffman table and colour bit write the same bits as the engine's encode_piece |
| GenSfen.EncodePieceAt | scripts/gensfen.py:52-63 | encode_piece_at ORs exactly the engine's piece code for the square into the block |
| GenSfen.LowBitsOfU16 | scripts/gensfen.py:118-128 | a uint16 conversion never changes the (at most 16) low bits that are written |
| GenSfen.EncodePosition | scripts/gensfen.py:76-130 | the script's encode_position returns a cleared 32-byte block ORed with the engine's stream for the same position |
| GenSfen.EncodeBoard | scripts/gensfen.py:88-95 | the rank loop writes the engine's board block |
| GenSfen.EncodeFiles | scripts/gensfen.py:89-95 | the file loop writes one rank of the engine's board block, kings skipped |
| GenSfen.EncodeTail | scripts/gensfen.py:97-128 | castling rights, en passant and counters are written as the engine's tail |
| GenSfen.EncodeEp | scripts/gensfen.py:107-112 | the en-passant flag and, when there is a square, its six bits |
| GenSfen.EncodeCounters | scripts/gensfen.py:118-128 | halfmove low six bits, fullmove low and high byte, halfmove bit 6, as the engine writes them |
| GenSfen.PyBlockDecodes | scripts/gensfen.py:76-130 | the script's block holds the engine's stream then zero bits, and src/sfen.c's decoder reads it back as the same position |
| GenSfen.RookSquare | scripts/gensfen.py:142-149 | the castling destination is rewritten to the rook square: file h (kingside) or a (queenside) on the mover's back rank (7/0/63/56) |
| GenSfen.PyEncodeMove | scripts/gensfen.py:137-161 | encode_move's result fits 16 bits |
| GenSfen.PyMoveFields | scripts/gensfen.py:137-161 | the fields read back: the rook square for castling (else the destination), the origin, promotion-2 in bits 12-13 with flag 1, flag 2 for en passant and 3 for castling |
| GenSfen.PyMoveAgrees | scripts/gensfen.py:137-161 | the script packs a move into the same 16 bits as the engine's encode_move packs the engine's form of it |
| GenSfen.PovResult | scripts/gensfen.py:172-174 | the written result is negated exactly when black is to move |
| GenSfen.BinRecordFields | scripts/gensfen.py:170-184 | a binary record holds the position, the side to move's score, the engine's move encoding, the ply, the side-to-move result and 0xFF padding |
| GenSfen.WriteSfenBin | scripts/gensfen.py:170-184 | write_sfen_bin emits the cleared block with the engine's stream and the record of the binary format |
| GenSfen.NatStringParses | scripts/gensfen.py:195-197 | str(n) of a natural number reads back as n |
| GenSfen.IntStringParses | scripts/gensfen.py:195-197 | str(x) of an integer reads back as x |
| GenSfen.PlainRecordLines | scripts/gensfen.py:187-198 | a plain record is exactly six lines, and its score and result lines read back as the score and the side-to-move result |
| GenSfen.PlyOf | scripts/gensfen.py:287-290 | the stored ply is even with white to move and odd with black to move |
| GenSfen.WhiteScore | scripts/gensfen.py:280 | white's score is the relative score, negated with black to move |
| GenSfen.NextResign | scripts/gensfen.py:301-304 | resign_count grows on a score at least RESIGN_SCORE from zero and is reset otherwise |
| GenSfen.NextDrawsPy | scripts/gensfen.py:313-317 | draw_count is untouched up to MIN_DRAW_PLY, then counts consecutive scores within DRAW_SCORE and is reset otherwise |
| GenSfen.ResignResultAsWritten | scripts/gensfen.py:305-309 | as written, the resign result is 1 exactly when the side to move's score is positive |
| GenSfen.ResignAsWrittenFavoursMover | scripts/gensfen.py:305-309 | with black to move at +12000, the resign branch as written gives white the win though white's score is negative |
| GenSfen.ResignResultIsWhites | scripts/gensfen.py:278-284 | the corrected resign result has the sign of white's score, as the eval-limit branch does, and is the negation of the as-written one when black is to move |
| GenSfen.ResignValue | scripts/gensfen.py:305-310 | the resign branch's result_val is -1 or 1, following the side to move's sign as written or white's sign when corrected |
| GenSfen.PyRun | scripts/gensfen.py:264-323 | the loop stores nothing once the game is over, adjudicates -1, 0 or 1, and resigns only after a score at least RESIGN_SCORE from zero |
| GenSfen.ResultValue | scripts/gensfen.py:327-335 | a game over on the board gives 1 for a white win, -1 for a black win and 0 otherwise; an adjudicated value is kept |
| GenSfen.PyRunStoresQuiet | scripts/gensfen.py:264-293 | every stored position is of a ply where the game was not over, the engine gave a score within the eval limit and the move was quiet |
| GenSfen.ResignRulesDiffer | scripts/gensfen.py:300-310 | the two resign rules store the same positions and stop the same way, and differ in result exactly when the game is resigned with black to move (and a non-zero score) |
| GenSfen.WriteCount | scripts/gensfen.py:338-345 | the write loop writes all stored positions, or stops once pos_left reaches zero |
| GenSfen.WritePositions | scripts/gensfen.py:337-348 | each stored position is written with the game's result_val and pos_left counts down by the records written |
| GenSfen.PlayGame | scripts/gensfen.py:231-348 | play_game as written (mover's-sign resign rule) writes the records of PyPlayGame and returns the new pos_left |
| GenSfen.PyPlayGameQuota | scripts/gensfen.py:337-348 | a game writes at most pos_left records, returns pos_left minus what it wrote, and leaves stored positions unwritten only when none are left |
| GenSfen.PyPlayGameResults | scripts/gensfen.py:170-345 | every binary record of a game carries the game's result_val from its own side to move's point of view, and is a stored quiet scored ply |
| GenSfen.PyResignFavoursWinner | scripts/gensfen.py:300-310 | with white's sign, a resigned game gives +1 to the records of the side the last score favours and -1 to the other side's |
| GenSfen.PyResignAsWrittenFlipped | scripts/gensfen.py:305-309 | as written, a game resigned with black to move gives every record the opposite result to the corrected rule's |
| GenSfen.PyBatchBound | scripts/gensfen.py:386-388 | the games of one work batch never write more records than the batch asked for |
| GenSfen.GenerateBatch | scripts/gensfen.py:386-388 | `while pos_left > 0: pos_left = play_game(...)` writes at most the batch's records, and exactly that many unless the games run out |
| WorkQueue.BatchOf | tools/generate_training_data.py:54-59 | the allocation is 0 exactly when nothing remains, never exceeds BATCH_SIZE or what remains, and is BATCH_SIZE whenever that much remains |
| WorkQueue.Counters.constructor | scripts/gensfen.py:351-362 | the shared counters start with the whole quota remaining and nothing finished |
| WorkQueue.Counters.RequestWork | scripts/gensfen.py:351-362 | request_work adds the reported count to finished_work, hands out min(BATCH_SIZE, remaining) and lowers remaining by it, never below zero |
| WorkQueue.Batches | tools/generate_training_data.py:51-62 | the successive allocations of a quota are each between 1 and BATCH_SIZE and add up to the quota |
| WorkQueue.ProcessFunc | tools/generate_training_data.py:65-81 | the worker loop takes batches until request_work returns 0; then remaining is 0 and finished_work has grown by exactly the batches reported |
| WorkQueue.ProcessFuncTotals | tools/generate_training_data.py:55-60 | a quota is handed out in ceil(quota / BATCH_SIZE) batches of 1..BATCH_SIZE whose sum is the quota |
| WorkQueue.BatchCount | tools/generate_training_data.py:54-60 | the number of batches is ceil(n / BATCH_SIZE) |
| MoveSelect.MvvLvaRow | src/moveselect.c:44-61 | each row of mvvlva_table is 100 times the victim's kind plus 160 minus 10 times the attacker's kind, the same for both colours |
| MoveSelect.MvvLvaOrder | src/moveselect.c:44-61 | a more valuable victim always scores higher; for the same victim, a less valuable attacker scores higher |
| MoveSelect.MvvLva | src/moveselect.c:63-71 | a capture scores by its victim and attacker, an en-passant capture as pawn takes pawn (160), any other move 0 |
| MoveSelect.AddedMoves | src/moveselect.c:73-116 | add_moves puts into the good region exactly the moves of the list that are not the tt, killer or counter move and not losing captures, and into the bad region exactly the losing ones |
| MoveSelect.OfNext | src/moveselect.c:81-115 | one iteration of add_moves skips the move, appends it to the bad region or appends it to the good region |
| MoveSelect.BestIndex | src/moveselect.c:132-145 | the scan finds the first index of highest score in the range |
| MoveSelect.Swap | src/moveselect.c:147-152 | the swap exchanges the two entries and leaves the others |
| MoveSelect.SwapPermutes | src/moveselect.c:147-152 | the swap keeps the same entries |
| MoveSelect.SwapBestFirst | src/moveselect.c:132-154 | after the swap the entry at start has the highest score of the range |
| MoveSelect.MoveSelector.constructor | src/moveselect.c:255-276 | select_init_node starts at the tt phase with empty regions and drops the tt move when it is NOMOVE, not pseudo-legal, or quiet in a tactical-only node not in check |
| MoveSelect.MoveSelector.SelectMove | src/moveselect.c:118-155 | select_move returns NOMOVE when the region is used up, and otherwise swaps the best remaining entry to the front and returns it, keeping the same entries |
| MoveSelect.MoveSelector.FindBest | src/moveselect.c:132-145 | the loop finds the index the best-index specification gives |
| MoveSelect.MoveSelector.AddMoves | src/moveselect.c:73-116 | the regions after add_moves are the old ones with the good and bad moves of the list added |
| MoveSelect.MoveSelector.GetMove | src/moveselect.c:157-253 | the phase only moves forward; a move is found exactly when it is not NOMOVE; the tt move comes first; a killer or counter move is returned only when it differs from the moves before it and is pseudo-legal; after the last phase nothing more is returned |
| MoveSelect.MoveSelector.EarlyPhases | src/moveselect.c:165-213 | the tt, good tactical, killer and counter phases, with the same guarantees |
| MoveSelect.MoveSelector.LatePhases | src/moveselect.c:214-246 | the quiet and bad-tactical phases move the phase forward and end in the last phase |
| MoveSelect.MoveSelector.Generate | src/moveselect.c:175-183 | generating and adding a list keeps the regions within the move array |
| MoveSelect.MoveSelector.Select | src/moveselect.c:248-252 | select_move and the index step, NOMOVE past the region |
| MoveSelect.MoveSelector.IsBadCapturePhase | src/moveselect.c:286-289 | true exactly in the bad-tactical phase |
| Eval.TaperedEnds | src/eval.c:87-90 | the tapered score is the middle-game score at phase 0 and the end-game score at phase 256 |
| Eval.TaperedBetween | src/eval.c:87-90 | for a phase in 0..256 the tapered score lies between the two scores |
| Eval.KingDistance | src/eval.c:96-111 | king_distance is the larger of the file and rank distances |
| Eval.KingDistanceMetric | src/eval.c:96-111 | the distance is symmetric, 0 only from a square to itself, and at most 7 |
| Eval.GamePhase | src/eval.c:1186-1208 | eval_game_phase lies in 0..256 |
| Eval.GamePhaseNoPieces | src/eval.c:1186-1208 | with only kings and pawns the phase is 256, the end game |
| Eval.NoneCounted | src/eval.c:1151-1154 | a piece not on the board counts 0 |
| Eval.CountedOnColor | src/eval.c:1169-1176 | a piece is on the board exactly when it is on a light or a dark square |
| Eval.MaterialDraw | src/eval.c:1135-1149 | a position with a pawn, rook or queen is never a material draw |
| Eval.MaterialDrawCases | src/eval.c:1150-1180 | without pawns, rooks and queens, a draw is king against king, a lone knight, or bishops of one side all on one square colour |
| Eval.BishopPairNotDraw | src/eval.c:1168-1172 | white bishops on both square colours against a bare king are not a draw |
| Eval.Contribution | src/eval.c:1081-1121 | a king adds no material, a pawn PAWN_BASE_VALUE in both phases, and the square table is read at the square for white and at the mirrored square for black |
| Eval.Update | src/eval.c:1066-1127 | eval_update_piece_features leaves the other side's sums alone |
| Eval.UpdateRoundTrip | src/eval.c:1066-1127 | removing a piece after adding it on the same square gives back the sums |
| Eval.UpdatesCommute | src/eval.c:1066-1127 | two updates give the same sums in either order |
| Eval.FeaturesAddPiece | src/eval.c:991-1127 | the sums eval_init_piece_features computes for a board with one more piece are the old sums updated by that piece |
| Eval.FeaturesRemovePiece | src/eval.c:991-1127 | and with one piece fewer, the sums updated by its removal |
| Eval.Times | src/eval.c:1076 | delta times a value is the value when adding and its negation when removing |
| Eval.FeatureSums.constructor | src/eval.c:1002-1008 | all sums start at 0 |
| Eval.FeatureSums.UpdatePieceFeatures | src/eval.c:1066-1127 | the object's sums become the update specification of the old sums |
| Eval.FeatureSums.InitPieceFeatures | src/eval.c:991-1064 | the loop over the occupied squares leaves the sums of the whole board |
| Search.CheckTTCutoffMeaning | src/search.c:102-118 | a table entry cuts off only when it is at least as deep as the search; an exact entry always does, an upper bound only when its score is at most alpha, a lower bound only when it is at least beta; a score inside the window cuts off only from an exact entry |
| Search.AdjustMateScore | src/search.c:120-128 | mate and tablebase scores are moved back by sply toward zero, other scores are kept |
| Search.AdjustUndoesStore | src/search.c:120-128 | adjust_mate_score undoes the adjustment hash_tt_store makes to a stored score |
| Search.PvTable.UpdatePv | src/search.c:249-259 | the principal variation at sply becomes the move followed by the variation of the next ply, and every other ply's line is unchanged |
| Search.BlackPromotionReadsNextKind | src/search.c:312-315 | as written, material_gain adds the side to move to a promotion piece that already carries its colour, so a black promotion is valued as the next piece kind, a queen as a king |
| Search.MaterialGain | src/search.c:298-318 | a quiet move gains 0, a capture the captured piece's value and an en-passant capture a pawn's |
| Search.PromotionGainSameForBothSides | src/search.c:312-315 | with the promoted piece read with its own colour, a quiet promotion gains the promoted piece less a pawn for either side |
| Search.FirstWindow | src/search.c:1022-1033 | the first window is infinite up to depth 5 and otherwise strictly around the previous score |
| Search.MaterialGainAsWritten | src/search.c:298-318 | material_gain as written equals the intended gain except for a promotion, where the promoted piece is read from see_material at Promotion(move) + stm; for white it is the intended gain |
| Search.StepAsWritten | src/search.c:1048-1061 | one turn of the loop as written ends exactly when the score is strictly inside the clamped window, otherwise moves one side's index on by one, and reads past the table only when that side's index already stands on the last entry |
| Search.RunAsWritten | src/search.c:1048-1061 | while the loop as written keeps searching, the two indices have grown by one per score |
| Search.AspirationOverrunsAsWritten | src/search.c:1048-1061 | as written, eight fail lows in one iteration take awindex past the end of aspiration_window |
| Search.Step | src/search.c:1048-1061 | one widening step, with the last entry taken as a truly infinite bound, never reads past the table and moves one side's index on by one |
| Search.StepAgreesInTable | src/search.c:1036-1066 | where the source stays inside the table the corrected step widens as it does; every window stays within the table; a score that ends the loop is strictly inside the window |
| Search.AspirationWindow | src/search.c:1011-1068 | the loop ends after at most fifteen searches with the last score strictly inside the window it was searched with |
| Validation.ValidMoveSpec | src/validation.c:151-177 | valid_move accepts a move exactly when its promotion field is a piece or NO_PIECE (from, to and type fields always fit) |
| Validation.MoveOfValid | src/validation.c:151-177 | every move MOVE builds with a piece or NO_PIECE as promotion is valid |
| Validation.DerivedPiece | src/validation.c:44-73 | the piece derived for a square is the first piece in piece order whose bitboard holds it, or NO_PIECE |
| Validation.SideUnion | src/validation.c:82-92 | the colour bitboard is the union of the bitboards of that colour's pieces |
| Validation.ValidPosition | src/validation.c:31-134 | valid_position returns true exactly when the piece array, colour and occupancy bitboards, ep square, side, castling flags and counters pass its checks |
| Validation.ConsistentAccepted | src/validation.c:31-134 | a position whose bitboards are kept in step with its piece array, with fields in range, passes valid_position |
| Validation.AcceptedMeans | src/validation.c:44-106 | passing valid_position means every piece is on its own bitboard, a square of a piece bitboard holds that piece or one earlier in piece order, the colour bitboards are disjoint unions, and bb_all is their union |
| Validation.AcceptsSharedSquare | src/validation.c:44-106 | valid_position accepts a white pawn and a white knight both on A1 when the piece array says pawn: the checks do not make the bitboards disjoint |
| Xboard.CRem | src/xboard.c:91 | C's % takes the sign of the dividend |
| Xboard.MovesToGoEndsPeriod | src/xboard.c:83-108 | after the first move, the moves to go run from the current fullmove to the end of the time-control period: between 1 and mps |
| Xboard.MovesToGoUnchanged | src/xboard.c:87-96 | with infinite or fixed time, no period, or on the first move, the count is left as it was |
| Xboard.TimeControl.constructor | src/xboard.c:64-70 | the statics start with infinite time, no fixed time and no moves per time control |
| Xboard.TimeControl.UpdateMovesToTimeControl | src/xboard.c:83-108 | update_moves_to_time_control sets the count the specification gives |
| Xboard.RepsWitness | src/xboard.c:142-150 | the loop counts a repetition exactly when a visited record has the key, and two exactly when two distinct visited records do |
| Xboard.ThreeFoldSpec | src/xboard.c:131-155 | is_three_fold_repetition holds exactly when two records of the same side, back to the last irreversible move, have the current key |
| Xboard.ThreeFoldRepeats | src/xboard.c:131-155 | a three-fold repetition is also a repetition as pos_is_repetition sees it |
| Xboard.IsThreeFoldRepetition | src/xboard.c:131-155 | the loop computes the three-fold specification on the position's history |
| Xboard.GameOverCases | src/xboard.c:166-184 | checkmate exactly without legal moves in check, stalemate exactly without legal moves out of check, a draw by rule with legal moves and the fifty-move rule, three-fold repetition or a material draw, and no result otherwise |
| Xboard.IsGameOver | src/xboard.c:166-184 | is_game_over gives the result of the specification for the legal moves, check, counters, repetitions and material of the position |
| Nnue.RowFits | src/nnue.c:99-120 | a row of a row-major weight matrix lies inside the matrix, so every weight layer_propagate reads is in bounds |
| Nnue.DotLinear | src/nnue.c:99-120 | the weighted sum of a neuron is linear in its input vector |
| Nnue.LayerPropagate | src/nnue.c:99-120 | each of the first noutputs outputs becomes its bias plus the dot product of the input with its weight row; the rest of the output buffer is unchanged |
| Nnue.Activation | src/nnue.c:122-131 | the activation lies in [0, 127], is the value divided by 64 inside the linear range, 0 below 64 and 127 from 127*64 up |
| Nnue.ActivationMonotone | src/nnue.c:122-131 | the activation never decreases as its input grows |
| Nnue.LayerActivate | src/nnue.c:122-131 | each of the first ndims outputs is the activation of the matching input; the rest of the output buffer is unchanged |
| Nnue.TransformSquare | src/nnue.c:133-140 | white's perspective keeps the square; black's mirrors both file and rank (63 - sq) |
| Nnue.TransformInvolution | src/nnue.c:133-140 | transforming a square twice for the same side gives the square back |
| Nnue.PieceIndex | src/nnue.c:467-477 | the piece index of a non-king piece is 64 times its block plus one |
| Nnue.PieceBlock | src/nnue.c:467-477 | the block of a non-king piece is one of the ten non-king piece slots |
| Nnue.SwapColor | src/nnue.c:467-477 | swapping colour keeps a non-king piece a non-king piece |
| Nnue.SwapColorSpec | src/nnue.c:467-477 | swapping colour keeps the piece kind, changes its colour and undoes itself |
| Nnue.NnueInit | src/nnue.c:467-477 | piece2index is filled for both perspectives and every non-king piece, so that black sees white's pieces as its own; the king entries are untouched |
| Nnue.FeatureIndex | src/nnue.c:142-146 | a feature index lies in the input range and inside the block of its king square |
| Nnue.FeatureDigits | src/nnue.c:142-146 | square, piece block and king square are the digits of a feature index and are recovered from it |
| Nnue.FeatureIndexInjective | src/nnue.c:142-146 | two pieces on squares with the same king square give the same feature only when they are the same piece on the same square with the same king |
| Nnue.FeaturePerspective | src/nnue.c:142-146 | black's feature of a piece is white's feature of the colour-swapped piece on the mirrored square |
| Nnue.CellFeature | src/nnue.c:148-176 | a square contributes one feature exactly when it holds a non-king piece, and that feature is in range |
| Nnue.NonKing | src/nnue.c:148-176 | a square holds a piece that is not a king exactly when its cell value is below KING |
| Nnue.ActiveStep | src/nnue.c:148-176 | the active list of the first n+1 squares is that of the first n followed by square n's feature |
| Nnue.Lowest | src/nnue.c:148-176 | the scan for a piece stops at the lowest square from sq holding it, or past the board when there is none |
| Nnue.LowestSame | src/nnue.c:148-176 | two boards that agree on where a piece stands from sq on find the same lowest square |
| Nnue.FindActiveFeatures | src/nnue.c:148-176 | the active features are one per non-king piece in ascending square order, relative to the perspective's own king, and all in range |
| Nnue.CollectFeatures | src/nnue.c:148-176 | the loop over piece kinds and their squares collects the same features as the ascending square scan |
| Nnue.DirtyPieces | src/nnue.c:554-622 | a move dirties one to three pieces: two for castling and en passant, one more for a capture and for a promotion; a normal move records the mover; the first entry is always the moving piece (the king when castling); for castling this is the corrected record, with the king landing on TO_CASTLE and the rook leaving TO(move) (the code as written is Nnue.DirtyPiecesAsWritten, see Findings) |
| Nnue.DirtyPiecesAsWritten | src/nnue.c:554-622 | the record as written: one to three entries with the mover first; for castling, the king is recorded landing on TO(move), the square of its own rook, and the rook leaving a square other than TO(move) |
| Nnue.DirtyAgreesOffCastling | src/nnue.c:554-622 | apart from castling, the dirty list as written equals the corrected one |
| Nnue.CastleAsWrittenMisplacesRook | src/nnue.c:573-592 | as written, white's short castle records the rook moving from square 8 to G1 instead of H1 to F1, and the long castle records it moving from square -2 instead of A1 to D1 |
| Nnue.DirtyPiecesShaped | src/nnue.c:554-622 | on a board where the move fits, every dirty entry is a real piece with squares on the board or NO_SQUARE |
| Nnue.FindChangedFeatures | src/nnue.c:178-227 | the added and removed features are those of the dirty pieces reaching and leaving their squares, kings excluded |
| Nnue.WSumSnoc | src/nnue.c:229-259 | the weight sum over a feature list plus one feature is the old sum plus that feature's weight |
| Nnue.ActiveInDims | src/nnue.c:148-176 | every active feature is a valid input index |
| Nnue.ActiveSum | src/nnue.c:229-259 | summing weights over the active list equals summing over the squares of the board |
| Nnue.SetCellBelow | src/nnue.c:261-304 | changing a square at or above n does not change the sum over the first n squares |
| Nnue.SetCellAbove | src/nnue.c:261-304 | changing a square below n changes the sum over the first n squares by the new cell's weight less the old one's |
| Nnue.SetCell | src/nnue.c:261-304 | changing one square changes the board's weight sum by exactly the new cell's contribution less the old one's |
| Nnue.CellSumOfFeature | src/nnue.c:148-176 | a square's contribution to the sum is the weight of its feature |
| Nnue.ChangedSnoc | src/nnue.c:178-227 | adding one dirty entry adds exactly that entry's left and reached contributions to the removed and added sums |
| Nnue.ChangedInDims | src/nnue.c:178-227 | every added and removed feature is a valid input index |
| Nnue.CastleDescribes | src/nnue.c:573-592 | the king and rook entries of a castle account for the whole change in the board's weight sum |
| Nnue.CastleFeatures | src/nnue.c:573-592 | for every castle, the dirty list accounts for the change between the board before and after the move |
| Nnue.EnPassantDescribes | src/nnue.c:593-602 | the mover and the captured pawn entries account for the whole change of an en passant board |
| Nnue.EnPassantFeatures | src/nnue.c:593-602 | for every en passant capture, the dirty list accounts for the change of the board |
| Nnue.PlainDescribes | src/nnue.c:603-620 | mover, captured piece and promoted piece entries account for the whole change of a plain move |
| Nnue.PlainFeatures | src/nnue.c:603-620 | for every move that is neither castling nor en passant, the dirty list accounts for the change of the board |
| Nnue.DirtyFeatures | src/nnue.c:554-622 | for every move, the removed and added features of the dirty list turn the board's weight sum before the move into the sum after it |
| Accumulator.Sums | src/nnue.c:229-259 | there is one weight sum per accumulator lane |
| Accumulator.Biased | src/nnue.c:229-259 | bias plus sum, truncated to int16_t, per lane |
| Accumulator.Shifted | src/nnue.c:261-304 | the previous lane less the removed and plus the added weights, each step truncated to int16_t |
| Accumulator.WSumStep | src/nnue.c:229-259 | the weight sum over k+1 features is the sum over k plus the next feature's weight |
| Accumulator.ApplyRow | src/nnue.c:229-304 | adding or subtracting one feature's weight row changes every lane by that weight, truncated to int16_t |
| Accumulator.ApplyStep | src/nnue.c:261-304 | truncating after each feature gives the same lane as truncating once after the whole sum |
| Accumulator.ApplyFeatures | src/nnue.c:229-304 | applying a list of features changes every lane by their total weight, truncated to int16_t |
| Accumulator.CopyHalf | src/nnue.c:229-259 | the biases are copied into the accumulator half |
| Accumulator.AccumulateFull | src/nnue.c:229-259 | the half becomes the biases plus the weights of the features |
| Accumulator.PerformFullUpdate | src/nnue.c:229-259 | perform_full_update leaves the half equal to the full accumulator of the board's active features |
| Accumulator.PerformIncrementalUpdate | src/nnue.c:261-304 | perform_incremental_update leaves the half equal to the previous half less the removed and plus the added features |
| Accumulator.AccumulateIncremental | src/nnue.c:261-304 | the half becomes the previous half shifted by the removed and added features |
| Accumulator.BoardAccumulator | src/nnue.c:229-259 | the full accumulator of a board is a 128-lane int16_t vector |
| Accumulator.KingStays | src/nnue.c:306-334 | when the dirty list does not move a side's king, the king of that side stays on its square |
| Accumulator.IncrementalIsFull | src/nnue.c:229-304 | updating the full accumulator of the board before a move incrementally by the dirty list gives the full accumulator of the board after it |
| Accumulator.TradeSums | src/nnue.c:261-304 | when the sums before and after differ by the removed and added weights, shifting the biased lanes gives the new biased lanes |
| Accumulator.WrapTrade | src/nnue.c:261-304 | int16_t wrap-around does not disturb the incremental update |
| Accumulator.PossibleAfterMove | src/nnue.c:306-334 | after a move, the incremental update is possible for a side exactly when the parent accumulator is valid and neither castling nor a move of that side's king happened |
| Accumulator.Invalidated | src/nnue.c:479-486 | invalidating an entry keeps its halves and dirty list |
| Accumulator.EvalStack.constructor | src/nnue.c:479-486 | a new stack has one invalid entry per ply, starting at ply 0 |
| Accumulator.EvalStack.ResetState | src/nnue.c:479-486 | every entry of the stack is invalidated and nothing else changes |
| Accumulator.EvalStack.MakeMove | src/nnue.c:554-622 | in a search worker, the entry of the current ply is invalidated and gets the move's dirty list, the corrected castling record of Nnue.DirtyPieces rather than the record as written; otherwise the stack is unchanged |
| Accumulator.EvalStack.MakeNullMove | src/nnue.c:624-637 | in a search worker, a null move copies the parent's valid accumulator to the current ply, or invalidates the ply when there is none; otherwise the stack is unchanged |
| Accumulator.EvalStack.UpdateHalf | src/nnue.c:336-361 | whichever update it takes, the refreshed half is the full accumulator of the current board |
| Accumulator.EvalStack.Refresh | src/nnue.c:336-361 | a valid entry is kept; an invalid one becomes valid with both halves equal to the full accumulators of the current board, and nothing else changes |
| Accumulator.LinkedHalf | src/nnue.c:306-334 | a valid parent linked to the current board holds the full accumulator of the board before the move |
| Accumulator.IncrementalHalf | src/nnue.c:261-304 | the incremental update from the parent's half yields the full accumulator of the board after the move |
| Accumulator.IncrementalFromLinked | src/nnue.c:261-304 | incrementally updating the accumulator of the board before a move that keeps the king gives the accumulator of the board after it |
| Network.Clamped | src/nnue.c:363-378 | clamping keeps the length of the half |
| Network.NetworkInput | src/nnue.c:363-378 | the network input has FEATURE_OUT_DIMS values |
| Network.InputPerspective | src/nnue.c:363-378 | from the other side the input is the same two halves swapped, and every input lies in [0, 127] |
| Network.ClampHalf | src/nnue.c:363-378 | one half, clamped to [0, 127], is written at its offset and nothing else changes |
| Network.FillInput | src/nnue.c:363-378 | the input buffer becomes the side to move's clamped half followed by the other side's |
| Network.Layer | src/nnue.c:99-120 | a layer has one value per output neuron |
| Network.Activated | src/nnue.c:122-131 | activation keeps the number of values |
| Network.HiddenLayer | src/nnue.c:381-399 | one hidden layer gives the activations of its neurons' weighted sums |
| Network.NetworkPropagate | src/nnue.c:381-399 | the output neuron is the network applied to the input through both hidden layers |
| Network.Score | src/nnue.c:544-552 | the score is the network output divided by 16 toward zero, and fits int16_t |
| Network.BoardScore | src/nnue.c:544-552 | the score of a board computed from scratch fits int16_t |
| Network.NnueEvaluate | src/nnue.c:544-552 | the returned score is the network on the refreshed accumulator; when the accumulator had to be refreshed, it equals the score of the board computed from scratch |
| Movegen.Ascending | src/movegen.c:113-116 | the squares a POPBIT loop visits are exactly the squares of the bitboard from i up |
| Movegen.AscendingCount | src/movegen.c:113-116 | a POPBIT loop visits each square once, as many as the bitboard has |
| Movegen.AscendingLength | src/movegen.c:113-116 | over a whole bitboard, the loop runs once per set bit |
| Movegen.AscendingAgree | src/movegen.c:113-116 | the visited squares depend only on the bits from i up |
| Movegen.AscendingSkip | src/movegen.c:113-116 | empty squares below the lowest set bit change nothing |
| Movegen.PopLowest | src/movegen.c:113-116 | POPBIT yields the lowest set square first and the loop then visits the rest of the bitboard in order |
| Movegen.MoveList.constructor | src/chess.h:231-237 | a new move list is empty |
| Movegen.MoveList.Clear | src/movegen.c:233-241 | setting the size to zero empties the list |
| Movegen.MoveList.Add | src/movegen.c:27 | ADD_MOVE appends the move after the moves already in the list |
| Movegen.MovesTo | src/movegen.c:108-117 | one move per target, in the targets' order, each from the same square with the same promotion and flags |
| Movegen.MovesFrom | src/movegen.c:58-62 | one move per source, in the sources' order, each onto the same square with the same promotion and flags |
| Movegen.MovesToCons | src/movegen.c:108-117 | the moves onto a first target come before those onto the rest |
| Movegen.MovesFromCons | src/movegen.c:58-62 | the move from a first source comes before those from the rest |
| Movegen.Shift | src/movegen.c:113-116 | appending a move and dropping it from what is left keeps the list's final contents |
| Movegen.AscendingEmpty | src/movegen.c:113-116 | an empty bitboard adds no move |
| Movegen.AtMostTwo | src/movegen.c:50-56 | a subset of the two squares beside the pawn holds at most two squares |
| Movegen.AddMoves | src/movegen.c:108-117 | add_moves appends one move per target square, lowest first, from the given square with no promotion and the given flags |
| Movegen.TargetStep | src/movegen.c:113-116 | one turn of add_moves' loop adds the move onto the lowest target and leaves the moves onto the other targets still to come |
| Movegen.AddMovesSpec | src/movegen.c:108-117 | add_moves adds exactly as many moves as targets, and a move is added exactly when it goes from the square onto a target with no promotion and the flags |
| Movegen.PromotionPieces | src/movegen.c:99-104 | the promotion pieces are the queen alone or four pieces, all of the mover's colour and neither pawn nor king |
| Movegen.PromotionsOnto | src/movegen.c:99-104 | one promotion move onto the target per promotion piece, in order |
| Movegen.PromotionsTo | src/movegen.c:91-106 | four promotion moves per target with underpromotions and one without |
| Movegen.PromotionsToBlock | src/movegen.c:91-106 | the k-th promotion piece onto the i-th target stands at offset 4i+k, or i without underpromotions |
| Movegen.PromotionsToCons | src/movegen.c:97-105 | the promotions onto a target are queen, rook, bishop, knight in that order, before those onto the later targets |
| Movegen.AddPromotionMoves | src/movegen.c:91-106 | add_promotion_moves appends the promotions onto every target, lowest target first, queen first and then the underpromotions when asked for |
| Movegen.PromotionsToLowest | src/movegen.c:97-105 | the promotions onto the lowest target come first |
| Movegen.ShiftBlock | src/movegen.c:97-105 | appending a block of moves and dropping it from what is left keeps the list's final contents |
| Movegen.AddPromotionsOnto | src/movegen.c:99-104 | one turn of add_promotion_moves' loop appends the queen promotion and, when asked for, the rook, bishop and knight promotions |
| Movegen.EpCapturersBounds | src/movegen.c:42-56 | the en-passant capturers stand on board squares and there are at most two |
| Movegen.EnPassantSpec | src/movegen.c:42-56 | a square holds an en-passant capturer exactly when a pawn of the side to move stands on it, beside the pawn that moved two squares on an adjacent file |
| Movegen.EnPassantMovesShape | src/movegen.c:29-63 | without an ep square no capture is added; otherwise at most two EN_PASSANT moves onto it, each by a capturer |
| Movegen.GenEnPassantMoves | src/movegen.c:29-63 | gen_en_passant_moves appends the en-passant captures, lowest capturer first |
| Movegen.EpCapturerSquares | src/movegen.c:42-56 | the squares beside the pawn that moved two squares, on adjacent files only, masked by the pawns of the side to move, are the en-passant capturers |
| Movegen.AddCaptures | src/movegen.c:58-62 | the capture loop appends one move per capturer, lowest square first, onto the ep square |
| Movegen.CaptureStep | src/movegen.c:58-62 | one turn of the capture loop adds the lowest capturer's move and leaves the others still to come |
| Movegen.Sources | src/movegen.c:119-231 | the pieces a generator moves are squares of the board |
| Movegen.EmptySquares | src/movegen.c:486-495 | a square is in ~bb_all exactly when nothing stands on it |
| Movegen.GenFromLowest | src/movegen.c:119-231 | a generator adds the moves of its lowest piece first and then those of the others |
| Movegen.SquareMovesLength | src/movegen.c:119-231 | a piece adds one move per masked target, or one or four per target when it is a promoting pawn |
| Movegen.GenPieceMoves | src/movegen.c:119-231 | each of the eight piece generators appends the moves of its pieces, lowest square first, onto the masked targets with its flags |
| Movegen.AddSquareMoves | src/movegen.c:119-231 | the loop body appends add_moves' or add_promotion_moves' moves for one piece |
| Movegen.GenFromMember | src/movegen.c:119-231 | a move is added exactly when it is among the moves of one of the generator's pieces |
| Movegen.PromotionsToMember | src/movegen.c:91-106 | a move is among the promotions exactly when it goes from the pawn onto a target and names one of the promotion pieces |
| Movegen.SquareMoveShape | src/movegen.c:119-231 | a move a generator adds for the piece on one square starts on that square, lands on one of its masked targets, carries the flags and promotes exactly in the promotion generators |
| Movegen.GenMoveShape | src/movegen.c:119-231 | every generated move starts on a piece of the generator, lands on one of that piece's masked targets, carries the generator's flags and promotes exactly in the promotion generators |
| Movegen.OpponentOnBoard | src/movegen.c:508-517 | the opponent's pieces are squares of the board |
| Movegen.CastlingMoves | src/movegen.c:65-89 | one castling move per allowed side |
| Movegen.CastlingMovesSpec | src/movegen.c:65-89 | a castling move goes from the king onto its own rook of an allowed side, flagged as that castling, without promotion |
| Movegen.GenQuietMoves | src/movegen.c:486-506 | gen_quiet_moves appends the piece moves onto empty squares, the pawn pushes short of promotion, then the castling moves |
| Movegen.GenPiecesMoves | src/movegen.c:486-495 | the knight, diagonal, straight and king generators append their moves in that order |
| Movegen.GenCastlingMoves | src/movegen.c:503-505 | the kingside castling move comes before the queenside one |
| Movegen.GenCaptureMoves | src/movegen.c:508-530 | gen_capture_moves appends the piece captures, then the pawn captures, capturing promotions and en-passant captures |
| Movegen.GenPawnCaptureMoves | src/movegen.c:524-529 | the pawn captures come before the capturing promotions and those before en passant |
| Movegen.GenPromotionMoves | src/movegen.c:532-539 | gen_promotion_moves appends the non-capturing promotions onto empty squares |
| Movegen.AddAll | src/movegen.c:274-283 | the evasions are appended in order |
| Movegen.GenMoves | src/movegen.c:233-249 | the list holds the check evasions when the side to move is in check, otherwise the quiet moves, the captures and the promotions with underpromotions, in that order |
| Movegen.GenMovesUnchecked | src/movegen.c:246-248 | out of check, quiet moves come before captures and captures before promotions |
| Movegen.KeepIf | src/movegen.c:251-272 | filtering keeps at most the moves it is given |
| Movegen.KeepIfSnoc | src/movegen.c:261-270 | testing one more move appends it exactly when it passes |
| Movegen.KeepIfMember | src/movegen.c:261-270 | a move is kept exactly when it was given and passes the test |
| Movegen.KeepIfOrder | src/movegen.c:261-270 | the kept moves stand in the order in which they were generated |
| Movegen.LegalMovesMember | src/movegen.c:251-272 | a move is legal exactly when it is pseudo-legal and leaves the mover's king safe |
| Movegen.GenLegalMoves | src/movegen.c:251-272 | the list holds the pseudo-legal moves that pos_make_move accepts, in generation order, and the position is the same afterwards |
| Movegen.GenMovesInto | src/movegen.c:259 | the temporary list holds the pseudo-legal moves |
| Movegen.Kept | src/movegen.c:261-270 | keeping by verdicts keeps at most the moves given |
| Movegen.VerdictsSnoc | src/movegen.c:261-270 | one more move and its verdict extend the verdicts |
| Movegen.KeptByVerdicts | src/movegen.c:261-270 | keeping the moves whose verdict was true is filtering by the test |
| Movegen.KeptSnoc | src/movegen.c:261-270 | one more true verdict appends its move |
| Movegen.LegalInDecides | src/movegen.c:261-270 | the test is pos_make_move's verdict for every move |
| Movegen.KeepLegalMoves | src/movegen.c:261-270 | the loop keeps exactly the legal moves in order and leaves the position as it found it |
| Movegen.FilterMoves | src/movegen.c:261-270 | for any test that decides legality, the loop keeps the moves that pass it and restores the position |
| Movegen.KeepAndUnmake | src/movegen.c:267-269 | a legal move goes on the end of the list and pos_unmake_move takes it back |
| Movegen.LegalStep | src/movegen.c:262-269 | making one move appends it exactly when it was legal, and unmaking it restores the position |

## Left out

- Utils.PopCount: states only that the result is a byte. The per-byte counts after the three SWAR steps are proved (Utils.PopCountByteCounts). The final multiply by 0x0101010101010101 that sums them into the top byte is not proved, because the bit-vector multiplication did not go through the solver.
- SfenFormat.ReadPiece: an unknown 4-bit code gives None. read_piece in src/sfen.c instead keeps reading bits past the block. No encoder writes such a code.
- SfenFormat.DecodeStream: gives None when the stream runs past the 256-bit block. read_bit in src/sfen.c would read on into the score and move bytes of the record.
- SfenBuffer.PositionFromSfen: does not rebuild pos->key. The key is built from the same fields by Key.KeyGenerate, so it is not repeated here.
- SfenBuffer.EncodePosition: requires the stream to fit in 256 bits. That excludes the wrap-around of the uint8_t cursor, which no legal position reaches.
- GenSfen.EncodeBit: requires the position to lie inside the array even for a zero bit, which the script never writes.
- GenSfen.PyTurn: the engine's score is an optional integer. A mate score, for which python-chess gives no centipawn value, is not modelled: the script raises TypeError on abs(None) there and stops.
- The loop of fen_setup_board that fills the bitboards from the piece array (src/fen.c:187-194) is not modelled: Fen's result is the piece array and the other fields.
- key_generate_pawnkey and the pawnkey field: the pawn hash feeds only the pawn evaluation cache, which is not part of this model.
- Nnue.LayerPropagate: the int32_t sums are unbounded integers. An overflow, which the quantised weights keep far away, is not modelled.
- SIMD layer and accumulator code, floating point (the tuner, quantisation, time control), threads and locks, console and protocol I/O, and file I/O in the scripts are not part of this model. The Python drivers' shared counters are a sequential object (WorkQueue).
- nnue_load_net and the file parsers: the weights are parameters.
- POPBIT loops are modelled as an ascending scan over the set squares. That is the order in which pop_bit returns the lowest bit each time.
- The right shift of a negative value in layer_activate is modelled as floor division, that is an arithmetic shift. C leaves this implementation-defined.
- MAX_ACTIVE_FEATURES (30) is not enforced: a feature list is a sequence. A legal position has at most 30 non-king pieces.
- The position's sply counter and worker pointer belong to the search. The evaluation stack takes them as given.
- Accumulator.PossibleAfterMove: an empty dirty list is read as "not a king move". nnue_make_move always records at least one piece.
- Accumulator.EvalStack.Refresh and Network.NnueEvaluate: the parent accumulator must be linked to the board before the move (Linked). The search guarantees this by calling nnue_make_move on every move it makes.
- Movegen.GenMoves: the check evasions (gen_check_evasion_quiet/tactical, src/movegen.c:285-484) and pos_is_castling_allowed are inputs. Movegen.GenLegalMoves' legality test is pos_make_move's, modelled by Position.
- board.c's board_make_move, board_unmake_move, board_is_repetition and push/pop_history work on the older struct gamestate and are not modelled beyond what follows. They differ from position.c's pos_make_move family, which `Position` and `PositionObject` model, in these ways: (1) the castling-rights rule, modelled by `Board` and tied to position.c by Board.MaskAgreesWithPosition; (2) the rook squares of standard castling, not modelled; (3) add_piece/remove_piece also keep per-colour material and the psq score through eval_update_psq_score (src/board.c:47-65), and the moves keep a pawn key, none of which is modelled; (4) board_make_null_move saves the fifty-move counter but does not count it up (src/board.c:357-386, against src/position.c:604), modelled by Board.MakeNullMove and Board.NullMoveKeepsFifty. After a null move made through board.c, the fifty counter and board_is_repetition's look-back window are one shorter than Position.MakeNullMoveValid states for pos_make_null_move.
- xboard's globals other than the time control, its command handlers and write_result are I/O. pos_get_game_result is defined nowhere in these sources: the game result is an input to the play_game models.
- see_material and KNOWN_WIN are defined nowhere in these sources: they are parameters of Search.MaterialGain and Search.AdjustMateScore.
- search.c calls hash_tt_store with six arguments where hash.c declares five. The model follows hash.c.
- search, quiescence and search_root (recursion over global engine state with longjmp) are not modelled. Only the helpers listed above are.
- The magic-bitboard lookups (src/bitboard.c:310-406, 626-652) are specified by get_slider_moves (Bitboard.SliderMovesSpec) instead of by their magic constants.
- The engine the generators play against is an oracle: each ply is given as its move, its optional score and whether it checks or ends the game.
- Validation.ValidPosition: valid_square, valid_side and valid_piece are the range tests themselves, so no separate lemma restates them.
- History.HistoryTables.UpdateTables: follows the code, which replaces the history entry (`=`) where the counter and follow-up tables accumulate (`+=`). History.RepeatedBonusLowersHistory shows the effect. The model keeps the code's behaviour because the replacement may be deliberate decay.
- The other scripts, older duplicate files (chess.c, table.c, see.c, data.c) and the table-base wrappers are outside the core.
- Hash.TranspositionTable.Store: the (int16_t) cast of the stored score (src/hash.c:229) is not modelled; the score is stored as computed. With the asserted range and a search ply below 2768 the cast changes nothing.
- Hash.TranspositionTable.constructor: the retry with MIN_MAIN_HASH_SIZE after a failed allocation (src/hash.c:67-73) is left out; allocation is taken to succeed.
- Fen.IntField: the value sscanf("%d") reads is an unbounded integer; a counter above INT_MAX or below INT_MIN, which is undefined behaviour for the int fields pos->fifty and pos->fullmove, is read as its mathematical value rather than as Undefined.
- Movegen.GenLegalMoves: requires every pseudo-legal move to meet pos_make_move's board shape and table lookups (AllFit); no lemma derives this for the generated moves from Movegen.GenMoveShape and Position.ValidFitsMake, so the caller supplies it.

## Findings

| source | as written | input that shows it | evidently intended | confidence | as-written member | corrected member |
|---|---|---|---|---|---|---|
| src/fen.c:300-301 | the cursor is advanced once more before sscanf reads the halfmove clock, so its first character is skipped | the counter fields " 12 40" give clock 2 and move 40 | the clock is read from its first digit, so that fen_build_string's counters read back unchanged | not executed | Fen.HalfmoveLosesFirstDigit | Fen.CountersRoundTrip |
| src/fen.c:281-291 | the range check after parsing the ep square tests the castling value instead of the ep square | ep field "a0" gives square -8, which is accepted and then indexes ep_values[-8] in key_generate | the ep square is rejected unless it lies on the board | not executed | Fen.EpBelowBoard | Fen.SetupRoundTrip |
| src/nnue.c:573-592 | the castling rook squares are computed as to+1/to-1 (kingside) and to-2/to+1 (queenside), as if TO were the king's landing square, but src/movegen.c:65-89 encodes castling as the king moving onto its own rook | white short castling (E1 to H1) records the rook moving from square 8 to G1; long castling records it moving from square -2 | the rook moves from its start square (TO) to F1/D1 (F8/D8 for black), so the incremental accumulator matches the board | not executed | Nnue.CastleAsWrittenMisplacesRook | Nnue.DirtyFeatures |
| src/search.c:1048-1061 | each fail low or fail high advances the window index with no bound, so aspiration_window[8] is read past the end of the eight-entry table | depth 6, previous score 19000, and eight fail lows with scores 18990, 18970, 18930, 18850, 18690, 18370, 17730, -19990 | once the last window (INFINITE_SCORE) is reached the bound is infinite and no further widening is needed | not executed | Search.AspirationOverrunsAsWritten | Search.AspirationWindow |
| src/search.c:312-315 | the promotion gain reads see_material[PROMOTION(move)+pos->stm], though the promotion piece already carries the mover's colour | a black queen promotion reads see_material[BLACK_QUEEN+1], the entry of WHITE_KING | see_material[PROMOTION(move)]: a promotion gains the same for both colours | not executed | Search.BlackPromotionReadsNextKind | Search.PromotionGainSameForBothSides |
| scripts/gensfen.py:305-309 | the resign result takes the sign of the side-to-move-relative score, but result_val is read as white's result everywhere else | black to move, a quiet scored ply with relative score +12000 closing ten resign plies: result_val becomes 1 (white wins) although black is winning | the sign of white's score, as the eval-limit branch uses | not executed | GenSfen.PyResignAsWrittenFlipped | GenSfen.PyResignFavoursWinner |
