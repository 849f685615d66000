# Gikou command-line tools: ratings, quiet-move catalogue, book file names

This project models three self-contained computations from the command-line
tools of the Gikou shogi engine (`src/cli.cc`) and proves properties of them
in Dafny.

- **Player ratings** (`ComputePlayerRatings`), module `PlayerRatings`
  (`player_ratings.dfy`). Every player starts at 1500. The decisive games are
  replayed in order. After each game the winner gains
  `delta = clamp(16 + (loser - winner) / 25, 1, 31)` and the loser loses the
  same amount. The division truncates toward zero, as in C++. A player's
  score is the truncated mean of the ratings they held after each of their
  games. The scores are listed from highest to lowest. The three
  `unordered_map`s are Dafny `map`s. Their `operator[]`, which reads a
  missing key as 0, is `Get`. The loops that update the maps in place are
  methods with loop invariants. Each method is proved against the
  specification functions `Replay`, `PostGameRatings`, `Appearances` and
  `Score`.
- **Quiet-move catalogue** (`ComputeAllPossibleQuietMoves`), module
  `QuietMoves` (`quiet_moves.dfy`). It runs three passes over an empty board:
  1. non-promoting board moves, filtered by color-relative origin and target
     rank masks;
  2. promoting Silver moves that start or end in the promotion zone;
  3. drops of the droppable pieces, filtered by per-piece rank masks.

  The moves are then turned into 32-bit codes and sorted ascending. Two
  things the catalogue uses are defined outside `src/cli.cc`, so both are
  parameters: the attack table `max_attacks_bb` (an `AttackTable`) and the
  encoding `Move::ToUint32`. Squares are (file, rank) pairs with ranks 1..9.
  The relative rank is `rank` for Black and `10 - rank` for White. A bitboard
  `ForEach` is a loop over the 81 square indices in ascending order that
  tests membership.
- **Book file names** (`CreateBook`), module `BookFiles` (`book_files.dfy`).
  A book's number is the strategy id plus one. It is zero-padded to two
  digits and joined as `id_str + "_" + name + ".bin"`.

Shared value types are in module `ShogiTypes` (`shogi_types.dfy`). The
generic in-place sort that stands for `std::sort` is in module `Sorting`
(`sorting.dfy`).

The comment on pass 2 (src/cli.cc:373) calls it Silver non-promotions, but
the code pushes promoting moves (`true`, src/cli.cc:378-379) whenever the
origin or the destination is in the promotion zone. So it also emits Silver
moves that promote while leaving the zone. The model follows the code.

## Model

| member | source | states |
|---|---|---|
| `PlayerRatings.TruncDiv` | src/cli.cc:459 | The quotient truncates toward zero. For a non-negative dividend the remainder lies in [0, b). For a negative dividend it lies in (-b, 0]. |
| `PlayerRatings.TruncDivNegate` | src/cli.cc:459 | Truncating division is odd: `TruncDiv(-a, b) == -TruncDiv(a, b)`. |
| `PlayerRatings.TruncDivMonotone` | src/cli.cc:459 | Truncating division by a positive number is monotone in the dividend. |
| `PlayerRatings.Delta` | src/cli.cc:459-460 | The delta is always in [1, 31]. It is 16 for equal ratings. It is 31 when the loser leads by 375 or more, and 1 when the winner leads by 375 or more. |
| `PlayerRatings.DeltaSymmetric` | src/cli.cc:459-460 | For any two ratings, the delta one way plus the delta the other way is exactly 32. This needs truncating division. |
| `PlayerRatings.DeltaMonotone` | src/cli.cc:459-460 | The delta never decreases as the loser's lead over the winner grows. |
| `PlayerRatings.ApplyGame` | src/cli.cc:456-462 | After one game the winner's rating is up by Delta and the loser's is down by the same Delta. A player on both sides is unchanged. Every other player is unchanged. The keys gain only the two players. |
| `PlayerRatings.GameIsZeroSum` | src/cli.cc:461-462 | One game leaves the total of all ratings unchanged. |
| `PlayerRatings.ReplayConservesTotal` | src/cli.cc:455-465 | Replaying any game sequence leaves the total of all ratings unchanged. |
| `PlayerRatings.FinalTotal` | src/cli.cc:445-465 | After all games, the ratings add up to 1500 times the number of players. |
| `PlayerRatings.ReplayKeys` | src/cli.cc:455-465 | The replay adds exactly the players of the games to the table and removes nobody. |
| `PlayerRatings.RatingDrift` | src/cli.cc:457-462 | After n games, a rating is within 31·n of where it started. |
| `PlayerRatings.Appearances` | src/cli.cc:448-449 | A player's seat count is positive exactly when they appear in a game. It is at most twice the number of games. |
| `PlayerRatings.PostGameRatingsCount` | src/cli.cc:448-449 | A player's list of post-game ratings has one entry per seat they took. This is the divisor of the mean. |
| `PlayerRatings.PostGameRatingsStep` | src/cli.cc:463-464 | The sum of a player's post-game ratings grows by their new rating once for each side of the latest game they sat on. |
| `PlayerRatings.SumAppend` | src/cli.cc:463-464 | The sum of a concatenation is the sum of the parts. |
| `PlayerRatings.MeanWithin` | src/cli.cc:468-470 | The truncated mean of values in [lo, hi] is in [lo, hi]. |
| `PlayerRatings.ScoreBounds` | src/cli.cc:468-470 | A player's score is within 31 points per game of 1500. |
| `PlayerRatings.InitializeRatings` | src/cli.cc:445-450 | Before any game is replayed, every player of the record is at 1500. No one else has a rating. `num_played` is each player's seat count. |
| `PlayerRatings.PlayGame` | src/cli.cc:456-464 | One loop iteration gives the rating table `ApplyGame` specifies. Each player's running sum grows by their new rating once per seat in the game. |
| `PlayerRatings.ReplayGames` | src/cli.cc:455-465 | After the loop, the ratings are `Replay` of the games. Each player's running sum is the sum of their post-game ratings. |
| `PlayerRatings.AverageRatings` | src/cli.cc:468-470 | Every rated player's value becomes sum / count, with truncating division. No player is added or dropped. |
| `PlayerRatings.RankPlayers` | src/cli.cc:473-477 | The result is one (player, score) pair per player, sorted by descending score, with nothing added or lost. |
| `PlayerRatings.ComputePlayerRatings` | src/cli.cc:441-477 | The output lists exactly the players of the record. Each player appears once, paired with the truncated mean of their post-game ratings. The list is sorted by descending score. |
| `Sorting.SortBy` | src/cli.cc:413 | The array ends sorted by the key and is a permutation of its old contents. |
| `ShogiTypes.SquareAtIndex` | src/cli.cc:375 | Enumerating the 81 square indices reaches every square, at exactly its own index. |
| `ShogiTypes.PieceAtIndex` | src/cli.cc:343 | Enumerating the 28 piece indices reaches every piece, at exactly its own index. |
| `QuietMoves.EmitNonPromotionsFrom` | src/cli.cc:365-370 | From one allowed origin, the pass adds exactly the non-promoting moves to attacked squares inside the target mask, with no duplicates. |
| `QuietMoves.EmitNonPromotionsOf` | src/cli.cc:344-370 | For one piece, the pass adds exactly its non-promoting moves that are allowed by both masks, with no duplicates. |
| `QuietMoves.EmitNonPromotions` | src/cli.cc:342-371 | Pass 1 adds exactly the non-promoting moves allowed by the origin and target masks, for all 28 pieces, with no duplicates. |
| `QuietMoves.EmitSilverPromotionsFrom` | src/cli.cc:376-381 | From one origin, the pass adds exactly the promoting Silver moves whose origin or destination is in the zone. |
| `QuietMoves.EmitSilverPromotions` | src/cli.cc:373-383 | Pass 2 adds exactly the promoting Silver moves of both colors that start or end in the zone. It creates no duplicates, including with pass 1. |
| `QuietMoves.EmitDropsOf` | src/cli.cc:392-405 | For one droppable piece, the pass adds exactly its drops on squares inside its drop mask. |
| `QuietMoves.EmitDrops` | src/cli.cc:385-406 | Pass 3 adds drops only for droppable pieces, on squares inside each piece's drop mask. It adds all such drops. |
| `QuietMoves.ComputeAllPossibleQuietMoves` | src/cli.cc:339-413 | The collected moves are exactly the catalogue, with no duplicates. The codes are an ascending permutation of the moves' codes. |
| `QuietMoves.CatalogueIsQuietSet` | src/cli.cc:330-406 | If Pawns move forward, the mask table emits exactly the quiet moves. Quiet means: reachable, and not leaving a piece that can never move. It also excludes the always-bad moves: a Pawn, Bishop or Rook not promoting when it could, and a Lance not promoting on rank 2. Only a Silver may promote, and only when it may. |
| `QuietMoves.PawnMaskNeedsForwardPawns` | src/cli.cc:349-357 | The unmasked Pawn origin is sound only because Pawns move forward. A backward-moving Pawn table would get an always-bad move emitted. |
| `BookFiles.DecimalString` | src/cli.cc:268 | `std::to_string` gives one or more decimal digits. It gives one digit exactly below 10, at most two below 100, and has no leading zero. |
| `BookFiles.ParseDecimalString` | src/cli.cc:268 | Reading the decimal string back gives the number. |
| `BookFiles.IdPrefix` | src/cli.cc:267-268 | The id prefix is all digits and at least two characters. It is exactly two below 100. It starts with '0' exactly when the book number is below 10. It reads back as the book number. |
| `BookFiles.BookFileNameRoundTrip` | src/cli.cc:267-270 | For book numbers below 100, a file name splits back into two digits (the book number), "_", the strategy name and ".bin". |
| `BookFiles.BookFileNamesDistinct` | src/cli.cc:256-270 | Different strategies get different file names. No strategy's file name starts with "00", the prefix of the all-strategies book. |

## Left out

- `Cli::ExecuteCommand`: not modelled. It is command-line routing into code that is not part of this model.
- `BenchmarkSearch`, `BenchmarkMoveGeneration`, `BenchmarkMateSearch`: not modelled. They measure wall-clock time and print floating-point speeds, and the move generator and mate solvers they call are not part of this model.
- `ComputeStatsOfGameDatabase`: not modelled. It is file I/O through `GameDatabase` plus a floating-point percentage.
- `CreateBook`: only the file name is modelled. `Book::CreateBook`, `WriteToFile`, the all-strategies book and the messages are I/O and calls into code that is not part of this model.
- `ComputePlayerRatings`: reading the database, the title-match filter, dropping draws and sorting by date (src/cli.cc:425-439) are file input. The model takes the ordered sequence of decisive games instead. Printing the results (src/cli.cc:479-482) is left out.
- `PlayGame`: the ratings are read as unbounded integers. The source narrows the 64-bit map values into 32-bit `int` variables. `RatingDrift` shows a rating moves at most 31 per game. So a stored rating fits in 32 bits for about 69 million games. The 32-bit subtraction `loser_rating - winner_rating` (src/cli.cc:459) is at most 62 per game away from zero, so it cannot overflow before about 34.6 million games. Past those counts the model does not follow the narrowing. The 64-bit sums are unbounded too.
- `RankPlayers`: the order of `unordered_map` iteration is modelled as an arbitrary choice of the next key. `std::sort` is not stable, so the contract promises only descending order and a permutation. It says nothing about the order of tied scores.
- `Sorting.SortBy`: an insertion sort stands for `std::sort`. Only the result (sorted, a permutation) is specified, not the algorithm.
- `ComputeAllPossibleQuietMoves`: `max_attacks_bb` and `Move::ToUint32` (an `AttackTable` and an encoding) are parameters. Their tables and bit layout are not part of this model. The hexadecimal printing (src/cli.cc:416-418) is left out.
- `CatalogueIsQuietSet`: captures are absent because the board is empty. The model says nothing about occupied boards.
- `BookFileName`: strategy ids are taken as non-negative (the source numbers books 1 to 32). `std::to_string` of a negative number is not modelled.
