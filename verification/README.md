# Verified model of the Lc0 chess core

This project models the parts of Lc0 whose correctness is hard to see by reading them, and proves what they are for:

- **Boards and legal moves** (`Squares`, `ChessRules`, `ChessLaws`, `Boards`, `Pseudolegal`, `Plies`, `Legality`,
  `SafeMoves`, `Games`, `StartingBoard`, `LawfulMoves`, `MoveGenerator`, `ChessBoard`). The engine's overlapping
  bitboards are sets of squares. `ChessRules` and `ChessLaws` state the laws of chess on pieces, castling rooks and
  passed squares alone; everything the bitboards do is compared with them. The pin and check filter is proved exact on
  every board that a game can reach, and the games played on boards are the games of the laws.
- **Sliding-attack tables** (`AttackTables`, `AttackLookups`). Building the tables with gathered bits always gives the
  right attacks; building them with any magic numbers does whenever it reports no clash.
- **Repetitions** (`Potential`, `PositionHistory`). The shortcuts of the backward search lose no repetition, by a
  measure of the position that every capture and pawn move lowers.
- **FEN** (`FenText`, `FenParser`, `FenBoard`, `FenRoundTrip`, `FenReader`, `FenSound`, `FenAccepts`, `FenStart`). What
  printing and reading a position restores, and exactly when that is everything; what can be relied on after reading
  any text, and which fields are refused.
- **Endgame tables** (`Bits`, `CanonicalCode`, `PairGrammar`, `PairsDecoder`, `Binomials`, `FreeSquares`,
  `PlacementTables`, `MixedRadix`, `LeadingMen`, `LeadingOrder`, `TableIndex`, `TableFill`, `TableEncoder`,
  `LeadEncoder`, `TableLayout`, `CaptureSearch`). Random access into the compressed table agrees with decompressing it
  all; the index numbers the placements one to one; the search over captures repairs the values the tables leave open.
- **Caches** (`ProbeTable`, `HashKeyedCache`, `MemCache`). The linear-probing table with eviction and pins is a bounded
  first-in-first-out map; the evaluation cache is transparent exactly when requests that share a value agree.
- **Network input** (`BitPlanes`, `Canonical`, `ChooseTransform`, `MoveDecoder`). Symmetric boards are encoded alike,
  transforms are undone exactly, and the move played can be read off two consecutive encodings.

Objects that the source updates in place (the board, the history, the caches, arrays of men, tables and planes) are
classes and arrays here, updated by methods with loops; each method is proved against a function of the old state, and
the lemmas are about those functions. Pure logic is functions and lemmas.

Words used in the table: a board is *consistent* (`Boards.Consistent`) when its sides are disjoint and on the board,
its piece sets lie within the sides, it has one king a side, every en passant marker stands behind a pawn that may just
have jumped, and every castling right names a rook on the right side of the king. It is *playable* (`SafeMoves.Playable`)
when moreover the kings do not touch and the side that just moved is not in check. *Within the asserted limits*
(`SafeMoves.ChecksLimited`) means at most one checking pawn, one checking knight and two attackers in all.

## Model

| member | source | states |
|---|---|---|
| Boards.UnderAttackIsAttacked | src/chess/board.cc:699-731 | On well-formed sides and kings, the bitboard test for an attacked square is true exactly for their king's own square and for squares attacked by one of their men under the laws of chess. |
| Pseudolegal.AppliedMakesMove | src/chess/board.cc:576-697 | For every consistent board and listed move that does not take their king, the pieces on the applied bitboards are those the laws of chess give: castling in any file layout, en passant, promotion, captures. |
| LawfulMoves.ListedIffAllowed | src/chess/board.cc:429-574 | A move is pseudo-legal on bitboards if and only if the laws allow it on the men, rights and passed squares shown: slides and steps to squares the man attacks and ours do not hold, pawn steps, jumps, captures, exactly four promotions on the last rank, castling with the right held, both ways empty and no attacked square started from or passed; king's steps are further kept off attacked squares. |
| LawfulMoves.LegalIffLawful | src/chess/board.cc:429-574 | Keeping the king's steps off squares attacked before the move loses no legal move: on playable boards the listed moves that leave our king safe are the legal ones. |
| LawfulMoves.RightsAfter | src/chess/board.cc:576-679 | After a listed move a castling right is held if and only if it was held, its king did not move, and its rook neither moved nor was taken. |
| LawfulMoves.PassedAfter | src/chess/board.cc:689-695 | A marker is set if and only if a pawn of ours went two ranks and a pawn of theirs attacks the square it passed; no older marker stays. |
| LawfulMoves.PlyFollowsLaws | src/chess/position.cc:66-72 | Applying a listed move and mirroring the board shows the situation the laws give after the move, turned round. |
| LawfulMoves.GamesAreLawful | src/chess/board.cc:930-938 | A sequence of moves is a game on boards if and only if it is a game of the laws, where every move is legal by the laws alone, and both show the same situation throughout. |
| Plies.PlyKeepsConsistent | src/chess/board.cc:576-697 | Applying such a move and handing the board over keeps it consistent: sides, kings, markers (at most one, and only behind a pawn that jumped) and castling rights. |
| ChessBoards.ChessBoard.ApplyMove | src/chess/board.cc:576-697 | The field-by-field update returns true exactly for captures, pawn moves and promotions. After a listed move that does not take their king, the board shows what the laws say: the pieces moved, each right held if and only if it was and neither its king nor its rook left or was taken, a square open to en passant if and only if a pawn went two ranks past a square that a pawn of theirs attacks. |
| ChessBoards.ChessBoard.Flip | src/chess/board.cc:56-68 | The in-place mirroring gives the board seen from the other side. |
| MoveGenerator.GeneratePseudolegalMoves | src/chess/board.cc:429-574 | On every consistent board the generator lists a move if and only if the laws allow it before the king's safety is looked at (`MayMove`: pieces, castling rights and passed squares only), and a step of the king does not go to an attacked square. |
| ChessBoards.ChessBoard.GenerateKingAttackInfo | src/chess/board.cc:733-857 | Walking the eight lines in place finds exactly the pinned men, the lines of attack and whether two men give check, although a group of lines is skipped when no slider is in sight. |
| ChessBoards.ChessBoard.IsLegalMove | src/chess/board.cc:859-928 | The branches of the filter, with its copies of the board, compute the predicate `IsLegal` that the next rows are about. |
| SafeMoves.FilterIsExact | src/chess/board.cc:859-928 | On every playable board within the asserted limits the filter passes a listed move if and only if applying it leaves our king out of check by the bitboard test. |
| SafeMoves.LegalIffKingSafe | src/chess/board.cc:733-928 | Under the same conditions the filter passes a listed move if and only if, with the move made by the laws of chess, no man of theirs attacks our king. |
| Games.PlyKeepsChecksLimited | src/chess/board.cc:833-854 | What the filter asserts always holds: no listed move on a playable board can bring more than one checking pawn, one checking knight, or two attackers. |
| Games.FilterExactThroughout | src/chess/board.cc:733-938 | Along every legal game, from any playable start within the limits, every board is playable and within the limits, and the filter decides every listed move exactly. |
| StartingBoard.GamesStartHere | src/chess/board.cc:47-50 | The starting position is such a start, and a move is listed there, so the games above exist. |
| ChessBoards.ChessBoard.GenerateLegalMoves | src/chess/board.cc:930-938 | On every playable board within the limits the list holds exactly the legal moves of the laws (`Lawful`): castling past attacked squares is out, every promotion and en passant is in, and our king is safe afterwards. |
| AttackTables.BuildAttacksTable | src/chess/board.cc:262-369 | In-place building, enumerating subsets of the relevant squares: reported success means every slot an occupancy leads to holds what that occupancy allows; an injective hash always succeeds. |
| AttackTables.EveryLookUpRight | src/chess/board.cc:373-408 | From a successfully built table, every lookup for every occupancy gives what walking the lines gives, though only the relevant squares are hashed. |
| AttackTables.PextHashIsPerfect | src/chess/board.cc:316-364 | Gathering the bits of the relevant squares gives every occupancy its own slot within the square's region. |
| AttackLookups.BuildRookTable | src/chess/board.cc:262-388 | After building in 102400 slots with gathered bits, every lookup, gathering from all pieces without masking them first, gives exactly the squares a rook attacks. |
| AttackLookups.BuildBishopTable | src/chess/board.cc:262-408 | The same for bishops in 5248 slots. |
| AttackLookups.RookTableSize | src/chess/board.cc:252-254 | The regions of the 64 squares for rooks fill the 102400 slots exactly. |
| AttackLookups.BishopTableSize | src/chess/board.cc:252-254 | The regions of the 64 squares for bishops fill the 5248 slots exactly. |
| AttackLookups.MagicFits | src/chess/board.cc:344-347 | For any magic numbers whatever, multiplying modulo 2^64 and shifting stays within the square's region. |
| AttackLookups.BuildMagicRooks | src/chess/board.cc:262-388 | With any magic numbers, if building reports no clash then every later lookup for every set of pieces gives exactly a rook's attacks. |
| AttackLookups.BuildMagicBishops | src/chess/board.cc:262-408 | The same for bishops. |
| Potential.ZeroingDrops | src/chess/position.cc:66-72 | The fifty-move count restarts exactly when a move lowers the potential (eight for each man, and the ranks each pawn has left); every other listed move leaves it unchanged. |
| PositionHistories.NoRecurrenceAfterTwo | src/chess/position.cc:137-152 | Two plies never lead back to the same board, castling rights included, which is why the search starts four plies back. |
| PositionHistories.LookBackCounts | src/chess/position.cc:137-152 | In every game with counted positions, stepping back two plies at a time, stopping at a restart and adding one to the count of the first equal position found gives exactly the number of earlier occurrences and the distance to the nearest one. |
| PositionHistories.LastCounts | src/chess/position.cc:137-152 | The cut-off for counts below four, and the start four plies back, lose nothing. |
| PositionHistories.PositionHistory.Append | src/chess/position.cc:127-135 | Appending the position after a move (its board the applied one handed over, one ply more, the fifty-move count one more or restarted) keeps the history valid: every position knows how often its board occurred before and how far back. |
| PositionHistories.PositionHistory.DidRepeatSinceLastZeroingMove | src/chess/position.cc:154-161 | True if and only if some position since the last restart, the restarting one included, had occurred before. |
| FenText.GetFen | src/chess/position.cc:173-207 | The printing loops write the text `FenOf`: ranks with counted gaps from White's view, side, castling in corner or file letters, en passant square, two numbers. |
| FenReader.SetFromFen | src/chess/board.cc:948-1090 | For every text, the reading loops set the board object to what `ParseFen` specifies or return the same error: ranks, files, pawns on back ranks, missing rooks, en passant checks, numbers out of range, early ends. |
| FenSound.EveryTextSound | src/chess/board.cc:948-1090 | Whatever the text, a board that is read has its men on different squares, pawns on inner ranks, at most one marker and only over an empty square behind a pawn of theirs, and rights that name files on their own side of the king. |
| FenAccepts.BoardAccepted | src/chess/board.cc:971-994 | The first field is accepted if and only if every character may stand where it stands: at most seven slashes, only letters of men and digits from 1 to 8, never more than eight squares behind a slash, pawns on inner ranks. |
| FenAccepts.RightAccepted | src/chess/board.cc:1024-1037 | A castling letter is accepted if and only if it names a file, or is one of K, Q, k, q and the side it speaks of has a rook between that corner and its king. |
| FenAccepts.PassingAccepted | src/chess/board.cc:1055-1072 | An en passant square is accepted if and only if a character follows it, its file is from a to h, it is on the third rank of the side that just moved, nothing stands on it, and a pawn of theirs stands in front of it; then exactly that square is open to en passant. |
| FenSound.OutermostFound | src/chess/board.cc:1010-1023 | The search for a castling rook finds a file if and only if the rook of that side nearest the corner, between corner and king, stands there; an error means there is none. |
| FenSound.WhiteLetters | src/chess/board.cc:1024-1051 | With White to move, K, Q, k and q give the right to the outermost rook of the side meant, and change nothing else. |
| FenSound.BlackLetters | src/chess/board.cc:1024-1051 | The same with Black to move, when capital letters speak of the other side. |
| FenSound.StopsAfterSide | src/chess/board.cc:995-1004 | A text that stops after the side to move leaves no rights, no marker, count 0 and move 1. |
| FenSound.IntRead | src/chess/board.cc:1075-1083 | A number is read up to the first character that is not a digit, may carry a minus sign, and is refused exactly when it does not fit 32 bits. |
| FenStart.PassingIsNamed | src/chess/position.cc:194-202 | The en passant field is the name of the square passed as White sees it, or a dash when there is none. |
| FenStart.StartText | src/chess/position.cc:173-207 | The starting position is printed as the usual text, character by character, with White or Black to move. |
| FenStart.StartRead | src/chess/board.cc:948-1090 | Reading that text gives the starting position, count 0 and move 1. |
| FenBoard.BoardRead | src/chess/board.cc:971-995 | Reading the printed first field of any well-formed board gives back all its men, whatever follows. |
| FenRoundTrip.FenRead | src/chess/board.cc:948-1090 | For every consistent board of either side, with counts within 32 bits, reading the printed text succeeds and restores the men, the side to move, the marker, the held castling rights with their rook files in both letter forms, and the fifty-move count. |
| FenRoundTrip.BoardRestoredIff | src/chess/position.cc:173-207 | The board read is equal to the board printed if and only if every castling right that is not held has its rook file in the corner; the text does not carry those files. |
| FenRoundTrip.PliesRestoredIff | src/chess/position.cc:79-83 | Taking the move number as the ply count restores it only for plies 1 and 2 with White to move and 0 and 1 with Black; counting two plies a move restores it if and only if the parity fits the side. |
| CanonicalCode.PrefixFree | src/syzygy/syzygy.cc:769-776 | In every complete code no bit string starts with the codewords of two symbols. |
| CanonicalCode.CodesTile | src/syzygy/syzygy.cc:769-776 | In the order of the symbols, the codewords fill the 64-bit code space from zero on, each starting where the one before ends. |
| Bits.StreamBitAt | src/syzygy/syzygy.cc:813-829 | Bit j of byte i of a block is bit 8 i + j of the stream, the highest bit first. |
| PairGrammar.ExpandsByHalves | src/syzygy/syzygy.cc:832-844 | On the three bytes of a symbol read as one number: with the high twelve bits all set it stands for itself, otherwise for the expansion of its low twelve bits followed by that of its high twelve bits. |
| PairGrammar.CalcSymLen | src/syzygy/syzygy.cc:664-677 | The marking recursion fills in, for the symbol and all it is made of, one less than the number of leaves, for every acyclic pairing whose lengths fit in bytes. |
| PairsDecoder.SetupPairs | src/syzygy/syzygy.cc:723-781 | Setting up yields decoding data (bases, lengths) fit for every complete code and acyclic pairing, or the constant of a single-valued table. |
| PairsDecoder.DecompressPairs | src/syzygy/syzygy.cc:783-845 | For every index into the expanded table, the sampled block walk, the 64-bit buffer refilled by 32 bits, and the descent through the pairing return the first two bytes, in their order, of the pattern of exactly that leaf of the full expansion. |
| PairsDecoder.SampleIsMiddle | src/syzygy/syzygy.cc:786-795 | Each sample points to the middle of the run of values it stands for, which is why half a run is taken off the index. |
| PairsDecoder.StoredOnce | src/syzygy/syzygy.cc:783-845 | The file determines the expansion: two symbol sequences stored by the same blocks are equal. |
| Binomials.BinomialEntry | src/syzygy/syzygy.cc:392-402 | The initialisation loop with its running division computes binomial coefficients. |
| Binomials.Subfactor | src/syzygy/syzygy.cc:604-613 | The loop with two running products counts the placements of k like men on n squares. |
| LeadingMen.ThreeIndexInjective | src/syzygy/syzygy.cc:517-533 | Three leading men in canonical position are determined by their number, across the four cases on and off the diagonal. |
| LeadingMen.ThreeIndexRange | src/syzygy/syzygy.cc:517-533 | The four cases use four disjoint consecutive ranges below 31332. |
| LeadingOrder.TriangleCounts | src/syzygy/syzygy.cc:289-292 | On the triangle a1-d1-d4 the table holds the number of triangle squares before this one, off the diagonal, and 6 and up along the diagonal. |
| LeadingOrder.ThreeIndexGrows | src/syzygy/syzygy.cc:517-533 | Within each of the four ranges the number grows with the triple in lexicographic order. |
| LeadingOrder.EveryNumberReached | src/syzygy/syzygy.cc:517-533 | Every number below 31332 belongs to some triple, so with the rows above the numbering is fixed. |
| LeadingOrder.PawnIndexGrows | src/syzygy/syzygy.cc:534-553 | The number of leading pawns of a block grows with the flap number of the first, then with the twists of the others, the largest deciding. |
| LeadingOrder.GroupDigitGrows | src/syzygy/syzygy.cc:570-586 | With the earlier men the same, the number of a group grows with its squares, the highest that differs deciding. |
| LeadingOrder.EverySubsetReached | src/syzygy/syzygy.cc:577-583 | Every number below the binomial coefficient is the sum of binomials of some increasing squares. |
| LeadingMen.InitPawnTables | src/syzygy/syzygy.cc:404-426 | The table loops compute, for each flap number, how many pawn placements come before it in its file or rank, and each block's size. |
| LeadEncoder.LeadingPawn | src/syzygy/syzygy.cc:483-488 | The pawns are rearranged so that one of smallest flap number comes first, and its file or rank selects the block. |
| TableIndex.IndexBound | src/syzygy/syzygy.cc:490-589 | Every canonical placement's index is below the table size. |
| TableIndex.IndexInjective | src/syzygy/syzygy.cc:490-589 | Two canonical placements of one block with equal indices are equal (the ghost index; the code's own steps are in the next three rows). |
| TableFill.EveryIndexReached | src/syzygy/syzygy.cc:490-662 | Every number below the table size is the index of some canonical placement of the block, so the index numbers the placements one to one without gaps, and the size is their number. |
| TableFill.EveryPawnNumberReached | src/syzygy/syzygy.cc:404-426 | Every number below a pawn block's size belongs to some leading pawns of that block. |
| LeadEncoder.EncodePieces | src/syzygy/syzygy.cc:490-589 | For tables without pawns: mirroring, folding over the diagonal, sorting and summing in place leave a canonical rearrangement of a mirror image of the men, and return its index. |
| LeadEncoder.EncodePawns | src/syzygy/syzygy.cc:490-589 | The same for tables with pawns by file or by rank. |
| LeadEncoder.SameIndexSamePlacement | src/syzygy/syzygy.cc:490-589 | Two inputs of one block encoded to the same index are mirror images of each other up to the order of men within groups, and the index is below the table size. |
| MixedRadix.WeightedInjective | src/syzygy/syzygy.cc:615-662 | With factors laid out in any slot order, equal weighted sums of fitting digits have equal digits. |
| TableLayout.InitEncInfo | src/syzygy/syzygy.cc:606-662 | For any two slots the loop reaches, the groups are maximal runs of like men, the factor of each group is the product of the sizes in the slots before it, and the returned size is the product of all. |
| CaptureSearch.TableRepaired | src/syzygy/syzygy.cc:1487-1547 | If the stored value and the best capture together give the value with en passant left aside, then the larger of the stored value and the best searched move is the true value. |
| CaptureSearch.Search | src/syzygy/syzygy.cc:1500-1547 | Under that contract of the tables, the recursion terminates and any result but a failure is the true value. It does not fail on boards of a set in which every board has a table value, or only searched moves, and whose searched moves lead back into the set; when it does not fail, the table had a value, or all legal moves were searched, or a searched move wins. It reports a zeroing best move if and only if all legal moves were searched, or the value is above a draw and some searched move is worth it. |
| CaptureSearch.ProbeWdl | src/syzygy/syzygy.cc:1549-1560 | If the tables yield a value for every playable board whose potential is at most this board's, the probe does not fail; what it returns is the true value. |
| CaptureSearch.SearchedAre | src/syzygy/syzygy.cc:1507-1511 | Among listed moves, the search looks exactly at those that take a man on their square or in passing and, when asked, at the moves of our pawns. |
| ProbeTable.ShiftsBack | src/utils/cache.h:245-258 | Moving a key whose probe path crosses the gap keeps every other key findable and moves the gap to its slot. |
| HashKeyedCaches.HashKeyedCache.CloseGap | src/utils/cache.h:245-258 | The shifting loop ends, and afterwards every key is findable and the table holds the same keys, values and pins. |
| HashKeyedCaches.HashKeyedCache.Insert | src/utils/cache.h:66-90 | Insertion is ignored for a present key or zero capacity; otherwise the key joins the queue and the oldest leave until the capacity is met. The rest of the state is unchanged. |
| HashKeyedCaches.HashKeyedCache.LookupAndPin | src/utils/cache.h:113-129 | Returns the key's value if stored, with one more lock on it, and nothing otherwise. |
| HashKeyedCaches.HashKeyedCache.Unpin | src/utils/cache.h:133-161 | Takes back one lock, whether the value is still stored or was evicted meanwhile; an evicted value goes with its last lock. |
| HashKeyedCaches.HashKeyedCache.SetCapacity | src/utils/cache.h:166-197 | Keeps the newest keys that fit and all locks, rehashed into a new table. |
| HashKeyedCaches.HashKeyedCache.Clear | src/utils/cache.h:200-203 | Nothing stays stored; locks and capacity stay. |
| HashKeyedCaches.HashKeyedCache.Destroy | src/utils/cache.h:58-62 | With no lock outstanding, the size and the allocation count end at zero and nothing is kept aside. |
| HashKeyedCaches.LockedIsAlive | src/utils/cache.h:113-259 | In every valid state a locked value is stored or kept aside, and the allocation count is the sum of both. |
| MemCaches.MemCacheComputation.AddInput | src/neural/memcache.cc:101-129 | Answers from the cache if a usable value is stored, else keeps the request; the cache contents do not change and the pin is returned. |
| MemCaches.MemCacheComputation.ComputeBlocking | src/neural/memcache.cc:131-137 | Hands out the backend's answer for every kept request in order, and inserts each value. |
| MemCaches.TransparentIffAgreeing | src/neural/memcache.cc:89-173 | Over all runs interleaving inputs, computations, peeks, clearing and resizing, every answer handed out is the backend's if and only if any two requests of the allowed kind that share a value (same hash; move counts equal modulo 256, or no moves asked) have the same answer. |
| MemCaches.HashDecidesSuffices | src/neural/memcache.cc:89-173 | In particular it is transparent when requests pass no moves or the legal ones, the hash decides those, and evaluation depends on hash and moves with the three numbers not depending on the moves. |
| MemCaches.PolicyFits | src/neural/memcache.cc:106-117 | Whatever the backend, in every run a caller with room gets one number for each move, so a value computed without moves never answers a request with moves. |
| BitPlanes.FlipMovesBits | src/utils/bititer.h:66-71 | On every 64-bit mask the first trick moves file f to 7 - f. |
| BitPlanes.MirrorMovesBits | src/utils/bititer.h:73-78 | The second moves rank r to 7 - r. |
| BitPlanes.TransposeMovesBits | src/utils/bititer.h:80-89 | The third moves (f, r) to (7 - r, 7 - f). |
| BitPlanes.TransformedBits | src/neural/encoder.cc:309-325 | For each of the eight transforms, the bit of a transformed plane at a square is the bit of the plane at one square: flipping comes first, then mirroring, then transposing. |
| BitPlanes.TransformPlanes | src/neural/encoder.cc:309-325 | The loop transforms every plane in place but the empty and the full ones. |
| BitPlanes.UndoPlanes | src/trainingdata/reader.cc:99-116 | The loop undoes the transform in the opposite order. |
| BitPlanes.RoundTrip | src/trainingdata/reader.cc:99-116 | Transforming any planes by any of the eight transforms and undoing it restores every plane, skip rule included. |
| Canonical.ChooseTransform | src/neural/encoder.cc:36-102 | The chooser returns the transform `Chosen` that the next rows are about: none with castling rights, a flip at most with pawns, else by king half, triangle and board comparison. |
| ChooseTransform.AllImagesEncodedAlike | src/neural/encoder.cc:50-102 | For every board with one king of ours and neither pawns nor castling rights, all eight symmetric images get the same planes. |
| ChooseTransform.SmallerBoardEncoded | src/neural/encoder.cc:66-102 | The encoded king stands on files e to h of ranks 1 to 4 and not above the diagonal from h1; with the king on the diagonal, the seven masks of the encoded board do not come after those of its transpose in lexicographic order. |
| ChooseTransform.RegionOfSquare | src/neural/encoder.cc:56-75 | The four constants are the left files, the high ranks, and the squares above and on the diagonal of the lower right quarter. |
| ChooseTransform.CastlingBoardUnmoved | src/neural/encoder.cc:51-55 | The planes of a board with any castling right are encoded as they are. |
| ChooseTransform.PawnBoardTurned | src/neural/encoder.cc:58-65 | With pawns the ranks stay, and our king comes to files e to h. |
| ChooseTransform.FlippedPawnBoardEncodedAlike | src/neural/encoder.cc:58-65 | With pawns and no castling rights, a plane of a board and the flipped plane of the flipped board are encoded alike. |
| MoveDecoder.DecodingInvertsApplying | src/neural/decoder.cc:253-360 | For every consistent board and listed move that does not take their king, decoding the planes after and before the move returns exactly that move with both squares mirrored, seen from the other side; castling in any file layout, promotion and en passant included. |

## Left out

Parts of the repository:

- Search, neural network backends, encoding of history planes and counters, and everything that computes with floats.
- Opening, mapping and parsing table files, path search, endianness, mutexes and lazy loading; the endgame model starts from parsed headers and arrays.
- The contents of the king-pair table (src/syzygy/syzygy.cc:331-379): the model takes any table that numbers the non-touching pairs injectively below 462 (`NumbersKings`); for the table without gaps, one that uses all 462 numbers (`TableFill.NumbersAllKings`).
- `probe_dtz`, `root_probe` and `root_probe_wdl`, whose meaning depends on table contents.
- `MoveToNNIndex`, `MoveFromNNIndex` and the square-level `Transform` (src/neural/encoder.cc:601-635).
- `ParseMove`, move text and the 16-bit packing of moves.
- `HashKeyedCacheLock` as a class of its own: its lookup and return of the pin are written out where the evaluation cache uses it. Copying attributes and configuration through the cache is left out too.
- Threads: every operation of the caches is one step, as under their lock; runs interleave such steps in any order.
- `HashLast`, `ComputeGameResult` and the hash of a position; the evaluation cache takes any hash function.

Assumptions and simplifications, by member:

- PairsDecoder.DecompressPairs: assumes the 8 bytes after the last block are readable, since the buffer is refilled up to one word beyond a block; the size check of a mapped file (src/syzygy/syzygy.cc:1049) is not modelled. Block indices and index-table sizes are taken to fit 32 bits, and idxBits to be at most 30.
- PairsDecoder.SetupPairs: takes the header fields as parsed values and assumes the file's code is complete and its pairing acyclic; a malformed file is not diagnosed by the source either.
- TableLayout.InitEncInfo: assumes the file's two orders name slots the loop reaches; otherwise the source's loop does not end.
- CaptureSearch.Search: the true values, the values of moves that do not restart the count and the tables are parameters; `TableContract` states what the table generator promises, as described at src/syzygy/syzygy.cc:1487-1498. The set of boards on which the search does not fail is a ghost parameter that any caller may choose. Whether a board outside it fails depends on the order of its moves, since a winning move ends the loop before later ones are probed, so the condition there goes one way.
- HashKeyedCaches.HashKeyedCache.Insert: a value under a key may not be inserted while the same pair is still locked; the source compares pointers, which are fresh for every insertion.
- HashKeyedCaches.HashKeyedCache.SetCapacity: capacities are not negative, and the table size capacity * 1.9 + 1 is computed exactly instead of in double precision.
- BitPlanes.UndoPlanes: the source's loop bound `i <= result.size()` (src/trainingdata/reader.cc:102) reads one plane too far; the model stops at the last plane.
- MoveGenerator.GeneratePseudolegalMoves: which moves are listed is proved, not their order, nor that none is listed twice.
- AttackTables.BuildAttacksTable: the subsets are enumerated in the order of gathered bits; the clash test and the slots do not depend on the order. Magic numbers are parameters; that the numbers in the source give no clash is for the builder's own check at start-up.
- AttackLookups.BuildMagicRooks: the shift of a 64-bit product is written on natural numbers with `Low` and `Shr`.
- ChessBoards.ChessBoard.ApplyMove: requires a man of ours on the source square, as the callers ensure.
- Games.FilterExactThroughout: a game may start from any playable board within the limits; for boards outside them the filter's assertions fail in the source.
- PositionHistories.PositionHistory.Append: the first position may bring any repetition count with it; equality of boards is equality of all fields, which is what the source compares.
- FenRoundTrip.FenRead: the code stores no rook file for a right that is not held, so the board comes back with those files in the corners; `BoardRestoredIff` gives the exact condition.
- FenRoundTrip.PliesRestoredIff: `Position::FromFen` stores the full-move number as the ply count (src/chess/position.cc:79-83), which loses it; the exact condition is stated.
- FenSound.EveryTextSound: the reader does not count kings, so a board read may have none or several of a side, and rights may name a file without a rook when they come as file letters.
- FenSound.StopsAfterSide: the other places where a text may stop are stated beside it; a text may not stop right after an en passant square, because a character is required behind it (src/chess/board.cc:1059), and the square the jumped pawn came from is not looked at.
- FenReader.SetFromFen: after an error the board object is left in whatever state it is in; the source throws, and the model says nothing about it. Text is a sequence of ASCII characters.
- MemCaches.TransparentIffAgreeing: a computation is computed once, as the source requires; in a run its number may then be used anew. Evaluations are real numbers that are only copied.
- Canonical.ChooseTransform: written over any masks with three tricks, meet and comparison, so that the same text serves the laws and the 64-bit instance; ChooseTransform.MaskLaws instantiates it.
- MoveDecoder.DecodingInvertsApplying: the planes are sets of squares; errors for planes that no move explains are modelled as no result.
