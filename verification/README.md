# blundernet, modelled

blundernet is a chess site: stateless API handlers and queue workers play and archive games against bots
over Redis, SQS and Postgres; puzzles are graded and recorded on the server; a small engine searches with a
policy and value network. This project models the parts of it whose correctness is spread over several
functions, steps or machines, and proves what they are for.

Run `dafny verify dfyconfig.toml`.

| files | what they model |
|---|---|
| `game`, `gamestore` | the game record and the compare-and-set on ply and revision |
| `live` | the live-game protocol as a step system: calls in flight with stale snapshots, an at-least-once queue, key expiry, crashes between any two steps, an engine that answers anything |
| `live_history`, `live_work`, `live_worksteps`, `live_turns`, `live_archive`, `live_seats` | what every run of it keeps |
| `live_fate`, `live_loss` | when a finished game can still be archived, exactly, and two runs that lose one |
| `archive` | the archive transaction, ratings count and bot ladder |
| `handlers` | the API handlers, the worker and its batch loop as objects, proved against the steps of `live` |
| `puzzle`, `attempts`, `attempts_handlers` | grading a move, the ranked and streak attempt protocol, and its handlers, proved against its steps |
| `attempts_chain`, `attempts_present`, `attempts_runs`, `attempts_counts` | what every run of that keeps |
| `attempts_lines`, `attempts_reloads`, `attempts_seams`, `attempts_rewritten` | reloads that rewrite a puzzle in progress: runs without, what one leads to exactly, runs that go wrong |
| `attempts_gone` | puzzles deleted by hand |
| `mcts` | PUCT tree search on a heap of nodes |
| `corpus`, `sampler`, `drift` | the puzzle summary, the weighted sampler over it, and how the two part |
| `volatility`, `glicko` | Glicko-2 and the ranked-puzzle penalty |
| `ratelimit` | the token bucket |
| `fen`, `boardtext` | the coach board's FEN printer and parser |
| `histogram`, `homework`, `wilson` | merged percentiles, the homework query, the Wilson verdicts |
| `options`, `fresh`, `reals` | Option; unused names; sums, products and the library functions assumed |

Every sequence of actions is a run: an action whose guard does not hold changes nothing, so the theorems
about runs quantify over all interleavings.

What is foreign is a parameter. Chess rules are functions (`Rules`, `Board`, `Chess`), assumed only to be
consistent where a proof needs it (a finished position has no legal move, and the other way round). The
network may answer differently or fail at every call, with values in [-1, 1]. The engine behind a worker may
answer any string. Case folding, `exp`, `ln`, `sqrt` and `pow` are functions with the laws `Reals.Sound`
states. Clocks, random draws, scan cursors, and whether Redis, Postgres or the queue answer, are inputs.

## What turned out false

- A game the worker finished can still be lost: when its Redis key expires before the archive is reached
  again, or when two deliveries of the message overlap, because a conflict acknowledges
  (`LiveLoss.ExpiryLosesAGame`, `LiveLoss.OverlapLosesAGame`). Without overlap, and while the key lives, it is
  kept (`LiveArchive.FinishedGamesAreKept`). In every reachable state a finished game can still be archived
  exactly when it has a row, or its account is not gone for good and either somebody holds it for saving or its
  key lives and a job for it is on its way (`LiveFate.ArchivedExactlyWithHope`); so an expiry or an
  acknowledgement loses it exactly when that was the last hope (`LiveFate.ExpiryLosesExactly`,
  `LiveFate.AckLosesExactly`).
- The comment at internal/store/ratings.go:141-143 says a deleted account's game is archived detached. The
  insert itself carries the user id and `games.user_id` references `users`
  (internal/store/migrations/0002_users.sql), so the insert fails and so does every `SaveFinished` for that game
  (`Archive.DeletedAccountLosesTheGame`); the model follows the code.
- A move that was read while a streak was between two puzzles deletes the run, if it still is there when the move
  is graded, without recording anything or saving its count as a best; no other move does
  (`AttemptsGone.MoveBetweenPuzzlesForgetsTheRun`).
- The loader overwrites a puzzle's moves (internal/store/puzzles.go:99-118), also under an attempt. Then the
  stored step can end up outside the solution, after which every move is a miss, and an attempt can be recorded
  solved across two different lines, at once or by a move that was looked up before the reload
  (`AttemptsRewritten.ShortenedUnderAnAttempt`, `SolvedOnTwoLines`, `ShortenedUnderAMove`,
  `SolvedOnTwoLinesLater`). In runs whose reloads rewrite no puzzle in progress neither happens
  (`AttemptsLines.StoredStepInRange`, `AttemptsLines.ClimbedOnOneLine`). After one that does, and whatever follows
  but another, no stored step is ever outside exactly when every stored attempt is inside its new solution and no
  accepted move that waits to be written leads out of it (`AttemptsReloads.ReloadKeepsStepsExactly`); and no move
  is ever judged by another line than the moves before it exactly when, on the puzzles rewritten, no attempt past
  its first move can be moved on, and no accepted move that waits to be written can be followed by another
  (`AttemptsSeams.ReloadKeepsLinesExactly`).
- internal/store/puzzles.go:143-144 says the summary's counts only change when an import does. A ranked
  attempt moves a puzzle's rating, and with it its band: the summary stays in sync exactly when the band does
  not change (`Drift.SyncSurvives`), and otherwise a matching puzzle can be out of reach
  (`Drift.DriftHidesAPuzzle`).
- internal/store/ratelimit.go:17-20 says clock skew cannot meaningfully widen the limit. What it adds is at most
  the refill of the time the clocks step back, so nothing while no caller's clock is behind the one before
  (`RateLimit.SkewAddsAtMostItsSteps`); but two callers taking turns step back every time, and for any skew at
  all what they get through grows with the number of turns and passes every bound
  (`RateLimit.SkewWidensTheLimit`, `RateLimit.LimitHoldsExactlyWithoutSkew`).
- internal/store/ratelimit.go:46-50 calls an expired key indistinguishable from a full bucket, which it is exactly
  when the bucket would have refilled by the caller's clock (`RateLimit.ExpiryIsHarmless`). Callers whose clocks
  stand still get a full bucket per lifetime of the key (`RateLimit.StillClocksBreakTheBound`); each such early
  expiry costs at most one capacity, and with under a second of skew there are none
  (`RateLimit.EarlyExpiryIsTheOnlyExcess`, `RateLimit.WindowIsBounded`).
- An idle player's deviation widens by the volatility without the conversion to the rating scale, so by less
  than step 6 of Glickman's "Example of the Glicko-2 system" says, unless both are capped
  (`Glicko.IdleFallsShort`). This is the branch of `Update` for an empty period, which nothing on the site
  reaches: its three callers each pass one result.

What holds, but only as long as nobody deletes puzzles by hand, which no code does: a recorded miss ends its
streak (`AttemptsRuns.MissEndsTheRun`). A deletion while the missed run is not cleared yet lets it grow again
exactly when it takes the missed puzzle (`AttemptsGone.GrowsExactlyIfGone`).

## Model

| member | source | states |
|---|---|---|
| `Game.Game.ApplyMove` | internal/game/game.go:155-178 | a refused move changes nothing and says why, an accepted one leaves the record one legal move on with status, result and termination by the rules |
| `Game.Game.Resign` | internal/game/game.go:181-194 | the other side wins, only in a live game |
| `Game.Game.Replay` | internal/game/game.go:127-135 | a stored move list replays exactly when every move was legal in its turn |
| `Game.MoveKeepsWellFormed` | internal/game/game.go:155-178 | a move is accepted exactly on the mover's turn in a live game for a legal move, and the record keeps replaying, ply equal to its length, over exactly when its moves end the game or somebody resigned |
| `Game.ResignKeepsWellFormed` | internal/game/game.go:181-194 | a resignation keeps the record well formed and its moves |
| `GameStore.Games.Script` | internal/store/redis.go:31-44 | the script writes exactly when ply and revision are the expected ones, or the key is missing for a new game |
| `GameStore.Games.Write` | internal/store/redis.go:65-82 | the caller's record gains a revision exactly when the compare-and-set went through, and is otherwise as before |
| `GameStore.Games.Create` | internal/store/redis.go:56-59 | creates only where nothing is stored |
| `GameStore.Games.Get` | internal/store/redis.go:84-97 | a fresh copy of the stored value |
| `Archive.Archive.SaveFinished` | internal/store/ratings.go:92-129 | one transaction, refused exactly when the account is gone: a first save inserts the game's own columns and, for a rated decided game of an account, counts it, scores it 1, 0 or 1/2 by the player's colour and the result against the level's strength, and moves the bot level up to 6 on a win, down to 1 on a loss, not on a draw; nothing else changes |
| `Archive.Archive.ApplyRating` | internal/store/ratings.go:134-161 | one rated game counted and the update applied against the level's strength |
| `Archive.Archive.MoveLadder` | internal/store/ratings.go:173-189 | one rung up or down, kept on the ladder |
| `Archive.SaveMovesThePlayer` | internal/store/ratings.go:60-189 | with the Glicko update, a first save of a rated game strictly raises the rating of the player who won it and strictly lowers that of the one who lost it, a rung up or down, for every account a run of saves can leave |
| `Archive.SavedKeepsLedger` | internal/store/ratings.go:92-189 | every account stays the clamped fold of its own archived rated decided games in archive order |
| `Archive.SavedTwice` | internal/store/ratings.go:96-116 | saving a game again, from any service, changes nothing |
| `Archive.LedgerCounts` | internal/store/ratings.go:134-189 | the rated-games count is the number of archived rated decided games and the bot level stays in 1..6 |
| `Archive.SavesInAnyOrder` | internal/store/ratings.go:92-129 | any number of saves in any order archive each finished game of an existing account once, with the same columns whoever wins |
| `Archive.DeletedAccountLosesTheGame` | internal/store/ratings.go:92-129 | a game of a deleted account is refused however often it is saved |
| `LiveHistory.UpdateExtendsSnapshot` | internal/store/redis.go:31-82 | a successful update extends exactly the snapshot its caller read |
| `LiveHistory.EveryRun` | internal/httpapi/server.go:424-534 | in every run each stored revision was written once, each value is one move, join or resignation on from the one before, and every snapshot in flight was stored |
| `LiveHistory.HistoryOnlyGrows` | internal/store/redis.go:31-82 | no stored value is ever taken back |
| `LiveHistory.HistoryIsLinear` | internal/game/game.go:155-194 | later values keep the moves as a prefix; once finished, moves, result, termination and archived columns are frozen; a seat once taken stays |
| `LiveHistory.SnapshotIsEarlier` | internal/store/redis.go:61-82 | whatever anybody holds is an earlier value of what is stored |
| `LiveHistory.ConflictMeansProgress` | internal/worker/worker.go:301-303 | in a bot game a conflict means the ply grew, the game finished or the key expired |
| `LiveHistory.ConflictAfterJoin` | internal/httpapi/server.go:486-491 | in a friend game it does not: a join conflicts with a move where the game stands |
| `LiveTurns.AckStrandsNothing` | internal/worker/worker.go:282-303 | an acknowledged job was settled, so no engine turn is stranded by it |
| `LiveTurns.TurnsAreNeverStranded` | internal/httpapi/server.go:539-561 | in every run, on the engine's turn in a live bot game there is an unacknowledged job for exactly that ply or a handler about to enqueue one, unless an enqueue was lost |
| `LiveTurns.FriendGamesAreLeftAlone` | internal/worker/worker.go:277-298 | a move job for a friend game means that game is over, so no worker moves in one |
| `LiveTurns.FriendGamesMoveNoRating` | internal/httpapi/server.go:309-328 | no friend game is rated, in any run |
| `LiveSeats.EveryValueHasItsAuthor` | internal/game/game.go:83-123 | in every run each value of a game was written over the one before by one step: a move of the colour on turn by a request whose user has that seat, a resignation by a user with the losing seat, a free seat by the user who takes it, or an engine move on its turn of a bot game |
| `LiveSeats.MovesAreAskedBySeats` | internal/httpapi/server.go:424-453 | in every run a move of a friend game, or of the player's colour in a bot game, is the one asked for by a user with that seat: in an owned bot game its owner |
| `LiveSeats.ResignationsAreAskedBySeats` | internal/httpapi/server.go:503-534 | in every run a resignation was asked for by a user with the losing seat: in an owned bot game its owner |
| `LiveSeats.CallsWereAsked` | internal/httpapi/server.go:424-534 | in every run a move, join or resignation in flight is the one its user sent for that game |
| `LiveArchive.ArchiveIsTruthful` | internal/store/ratings.go:92-189 | after any run every row is the columns of a finished game of the history and every account is the fold of its rows |
| `LiveArchive.FinishedCopiesAgree` | internal/store/ratings.go:100-116 | all copies of a finished game in anybody's hands archive alike |
| `LiveArchive.RetryGoesToArchive` | internal/worker/worker.go:277-279 | a redelivery of the finishing job archives without asking the engine |
| `LiveArchive.FinishedGamesAreKept` | internal/worker/worker.go:295-321 | without overlapping deliveries, a game the worker finished is archived, or its message is unacknowledged and will archive it, or its key expired |
| `LiveFate.ArchivedExactlyWithHope` | internal/worker/worker.go:253-321 | in every reachable state some continuation archives a finished game exactly when it has a row, or its account may still be there and somebody holds it for saving or its key lives with a job on its way; otherwise none ever does |
| `LiveFate.ExpiryLosesExactly` | internal/worker/worker.go:253-257 | an expiry loses a finished game without a row exactly when nobody holds it for saving, or its account is gone |
| `LiveFate.AckLosesExactly` | internal/worker/worker.go:300-304 | an acknowledgement loses a finished game exactly when this message was all that was left of it |
| `LiveLoss.ExpiryLosesAGame` | internal/worker/worker.go:253-257 | a run without overlap whose key expiry loses a finished game for good |
| `LiveLoss.OverlapLosesAGame` | internal/worker/worker.go:300-304 | a run whose overlapping deliveries lose a finished game for good while its key lives |
| `Handlers.Server.HandleCreate` | internal/httpapi/server.go:255-330 | a fresh record with what was asked for, and, when the engine opens, its job; accepted exactly when both went through |
| `Handlers.Server.HandleMove` | internal/httpapi/server.go:424-453 | the read, the commit step against whatever the store is by then, and exactly after a write the follow-up steps on whatever the archive is by then; forbidden exactly to who is not the owner of an owned bot game or sits at neither side of a friend game, refused exactly over, out of turn or illegal |
| `Handlers.Server.HandleResign` | internal/httpapi/server.go:503-534 | the same for resigning one's own colour, refused exactly when the game is over |
| `Handlers.Server.HandleJoin` | internal/httpapi/server.go:458-493 | the joining step; accepted exactly when it wrote or the caller already sat there, a conflict exactly when somebody else wrote first |
| `Handlers.Server.AfterChange` | internal/httpapi/server.go:539-561 | the steps after a commit, at the state they happen in: archive a finished game or post it for the worker, post a job on the engine's turn |
| `Handlers.Worker.Process` | internal/worker/worker.go:245-322 | the worker's fetch, answering and archive steps, whatever others did to the games and the archive in between; no error exactly when they end ready to be acknowledged, a hint included |
| `Handlers.RunBatch` | internal/worker/worker.go:87-110 | the ids acknowledged are exactly those whose steps ended ready while the queue answered; exactly the reviews and imports with room are passed on; the rest is left; whatever others archive in between |
| `Puzzle.PositionAfter` | internal/puzzle/explain.go:379-396 | the last of the positions one gets from the start by the blunder and the plies so far, if all are legal |
| `Puzzle.Check` | internal/puzzle/explain.go:354-375 | accepted exactly if legal there and the puzzle's own next move or mate; finished exactly on the last ply or mate; otherwise the reply is inside the solution |
| `Puzzle.GradedMeans` | internal/puzzle/explain.go:354-375 | the function the protocol grades by, for every input |
| `Puzzle.GradedThrough` | internal/puzzle/explain.go:354-396 | the same over the sequence of positions and the puzzle's own moves: step k answers move k + 1 |
| `Attempts.ProgressStore.Replace` | internal/store/puzzleprogress.go:11-43 | whole-value compare-and-set of one key |
| `Attempts.AttemptTable.Record` | internal/store/puzzleranked.go:84-177 | an attempt id is recorded once, with its counters, or nothing changes |
| `Attempts.AttemptTable.SaveBest` | internal/store/puzzlestreak.go:103-113 | the best streak never falls and is at least the run saved |
| `AttemptsHandlers.Api.HandleRankedMove` | internal/httpapi/ranked.go:192-264 | the grading step on the puzzle looked up, and the clearing step after a recorded result, whatever happened to Redis and the tables in between; the answer says what was noted |
| `AttemptsHandlers.Api.HandleStreakMove` | internal/httpapi/streak.go:147-241 | the same for a streak: after a recorded miss the best is saved and the run cleared, after a solve it grows |
| `AttemptsHandlers.Api.HandleRankedNext` | internal/httpapi/ranked.go:73-138 | the steps that show the attempt in progress again, or drop one whose puzzle vanished and draw the next |
| `AttemptsHandlers.Api.HandleStreakStart` | internal/httpapi/streak.go:37-117 | the steps that show the run's puzzle again, or draw the next over the run's own state |
| `AttemptsChain.EveryRun` | internal/httpapi/ranked.go:192-264 | in every run of racing requests and reloads all stored and held progress climbed its line, table and log agree, and every line judged by was loaded for its puzzle |
| `AttemptsChain.SettledOnceAndFairly` | internal/store/puzzleranked.go:133-143 | an attempt is settled at most once, and solved only with every earlier ply matched in order and a last move that ended the line or mated, each by the line loaded when it was looked up |
| `AttemptsLines.StoredStepInRange` | internal/httpapi/ranked.go:222-235 | while no reload rewrites a puzzle in progress: the stored step is even and, for solutions of odd length, inside the solution |
| `AttemptsLines.ClimbedOnOneLine` | internal/httpapi/ranked.go:192-264 | and every accepted move of a settled attempt was judged by the line it was settled on |
| `AttemptsReloads.StepsStayInsideExactly` | internal/httpapi/ranked.go:222-235 | the same of any state a run can reach |
| `AttemptsReloads.ReloadKeepsStepsExactly` | internal/store/puzzles.go:99-118 | after a reload in any run, and whatever follows but another that rewrites a puzzle in progress, no stored step is ever outside its solution exactly when every stored attempt is inside the one it has then and no accepted move waiting to be written leads out of it |
| `AttemptsSeams.MovesStaySeamlessExactly` | internal/httpapi/ranked.go:192-264 | the same of any state a run can reach, by the lines its accepted moves were judged by |
| `AttemptsSeams.ReloadKeepsLinesExactly` | internal/store/puzzles.go:99-118 | after the first reload that rewrites a puzzle in progress, and whatever follows but another, no move is ever judged by another line than the accepted moves before it exactly when, on the puzzles it rewrites, no attempt past its first move can be moved on and no accepted move waiting to be written can be followed by another |
| `AttemptsRewritten.ShortenedUnderAnAttempt` | internal/store/puzzles.go:99-118 | a run in which a reload leaves the stored step outside the solution, where every move is a miss |
| `AttemptsRewritten.SolvedOnTwoLines` | internal/store/puzzles.go:99-118 | a run in which an attempt is recorded solved on a line its first move does not match |
| `AttemptsRewritten.ShortenedUnderAMove` | internal/store/puzzles.go:99-118 | a run in which a reload leaves all steps inside and a move looked up before it takes one outside |
| `AttemptsRewritten.SolvedOnTwoLinesLater` | internal/store/puzzles.go:99-118 | the same by a move looked up before the reload, when no move was judged yet |
| `AttemptsRuns.MissEndsTheRun` | internal/httpapi/streak.go:209-226 | in every run, after a recorded miss the run's count never grows, even if the clearing write loses its race |
| `AttemptsCounts.CountersAreAttempts` | internal/store/puzzleranked.go:133-161 | in every run an account's solved count is its solved ranked attempts, a puzzle's plays, ranked plays and solves are its attempts, and no best streak falls |
| `AttemptsGone.GrowsExactlyIfGone` | internal/httpapi/streak.go:60-117 | from any reachable state with a recorded miss not cleared yet, if puzzles are deleted by hand the run can still grow exactly when the missed one is among them |
| `AttemptsRewritten.DeletingTheMissedPuzzleRevivesTheRun` | internal/httpapi/streak.go:60-117 | such a state, reached |
| `AttemptsGone.MoveBetweenPuzzlesForgetsTheRun` | internal/httpapi/streak.go:172-181 | in every run grading a move deletes an attempt, recording nothing, exactly when the move was read between two puzzles and the run still is where it was |
| `Mcts.Expand` | internal/engine/mcts.go:79-105 | one child a legal move, with the softmax of the unshifted logits as prior; nothing on a network failure |
| `Mcts.BestChild` | internal/engine/mcts.go:161-169 | the first child of maximal -V/n + cPuct P sqrt(N + 1) / (1 + n); so of two that differ in one number alone, the one of less value for the opponent, of greater prior, or visited less |
| `Mcts.Walk` | internal/engine/mcts.go:160-173 | every step down is to a child that ranks highest under PUCT, and selection ends at a leaf of the tree, within its depth |
| `Mcts.Backpropagate` | internal/engine/mcts.go:183-189 | the nodes of the path gain a visit and the value with the sign flipped each ply, the root a visit, nothing else changes, and every node's visits and values add up again |
| `Mcts.Simulate` | internal/engine/mcts.go:156-189 | one simulation adds a visit to the root and to the nodes of one path down by PUCT to a leaf and to no other, and keeps the tree's invariant, or stops at a failing network |
| `Mcts.RunSimulations` | internal/engine/mcts.go:155-190 | after any number of simulations the root's visits are the simulations run |
| `Mcts.StatisticsAddUp` | internal/engine/mcts.go:60-105 | root visits are the children's sum; an expanded node has one visit more than its children and its own estimate less their values; a mated node holds -1 a visit, a stalemated one 0; averages lie in [-1, 1]; sibling priors are positive and sum to 1 |
| `Mcts.MateInOne` | internal/engine/mcts.go:146-150 | a mating move if there is one |
| `Mcts.PickRoot` | internal/engine/mcts.go:197-225 | the first most-visited child at temperature zero, else the child the draw falls to; the fallback is never reached |
| `Mcts.Search` | internal/engine/mcts.go:132-193 | a legal move, a mate in one whenever there is one, else from a tree of exactly the asked simulations a most visited move with at least sims/moves visits, or the sampled one |
| `Corpus.PuzzleTable.RefreshCells` | internal/store/puzzles.go:145-191 | the rebuilt summary counts every tag of every cell and nothing else, or rolls back exactly when two inserts collide |
| `Corpus.PlainThemesNeverClash` | internal/store/puzzles.go:180-183 | themes without a colon never collide with the opening prefix |
| `Corpus.PuzzleTable.Cells` | internal/store/puzzleselect.go:183-223 | the cells of the asked-for theme or opening with the fewest puzzles that the filter covers, each once, with their total |
| `Corpus.TagSumAdds` | internal/store/puzzleselect.go:183-223 | what a tag is weighed by is the sum of its cells' counts |
| `Corpus.PuzzleTable.Scan` | internal/store/puzzleselect.go:329-359 | the first matching rows of one cell from the cursor, in key order |
| `Corpus.BandIsWideEnough` | internal/store/puzzleselect.go:195-196 | the band bounds drop a puzzle the exact bounds admit exactly when a negative lower bound, rounded up to a hundred, passes its rating |
| `Corpus.BandIsNoWider` | internal/store/puzzleselect.go:195-196 | for positive bounds they keep no band without a rating they admit |
| `Corpus.MatchesIsChecked` | internal/store/puzzleselect.go:183-199 | the cell query's and the scan's predicates together are the filter |
| `Corpus.MatchingCellAnswers` | internal/store/puzzleselect.go:183-199 | every matching puzzle is in a cell the query returns |
| `Sampler.DrawCell` | internal/store/puzzleselect.go:291-306 | the cell the draw falls into, never empty, taken out of the pool; the fallback is unreachable |
| `Sampler.DrawIsProportional` | internal/store/puzzleselect.go:291-306 | exactly n of the equally likely draws pick a cell of n |
| `Sampler.NextCell` | internal/store/puzzleselect.go:109-118 | the running total is the pool's sum, refills happen only when every cell was visited, and no cell is drawn twice in between |
| `Sampler.ScanFrom` | internal/store/puzzleselect.go:120-148 | a cell gives as many rows as the limit or all that fit, each once, across the wrap |
| `Sampler.ScanDrains` | internal/store/puzzleselect.go:123-160 | a scan of a new cell either fills the request or leaves nothing unseen behind, if the cell is no larger than the scan or at most two of it were seen |
| `Sampler.Gather` | internal/store/puzzleselect.go:107-161 | the loop ends with the request filled, every cell visited or twelve of them, and every visited cell that is small or hardly seen drained of unseen puzzles |
| `Sampler.FewSeenYields` | internal/store/puzzleselect.go:72-80 | with at most two matching puzzles seen, every cell is such a cell |
| `Sampler.Select` | internal/store/puzzleselect.go:95-162 | never a duplicate, a seen id or a non-match; and exactly min(n, matching and unseen) with the summary in sync, at most one opening, no negative bound on a negative rating, at most twelve cells, and in each at most three fitting puzzles or at most two seen |
| `Drift.SyncSurvives` | internal/store/puzzleranked.go:153-161 | a ranked attempt leaves the summary in sync exactly when the new rating is in the old band |
| `Drift.DriftHidesAPuzzle` | internal/store/puzzleselect.go:183-199 | a puzzle rated out of its band matches a filter for which no cell answers |
| `Volatility.NewVolatility` | internal/rating/glicko2.go:110-146 | the solver computes as the bracket specification, and when it stops by itself the paper's f changes sign within a millionth of the log-variance returned |
| `Volatility.FIsF` | internal/rating/glicko2.go:112-117 | the function solved is the f of step 5, denominators multiplied out |
| `Volatility.FBelowIsHigh` | internal/rating/glicko2.go:112-117 | f(a - k tau) > k/tau - 1/2 |
| `Volatility.NoWalk` | internal/rating/glicko2.go:123-128 | for tau up to 2, and so for 0.5, the walk-down loop does not turn |
| `Volatility.FirstStraddles` | internal/rating/glicko2.go:119-131 | in both start-up branches f changes sign, vanishes at B alone, or A is B |
| `Volatility.StepKeepsBracket` | internal/rating/glicko2.go:132-144 | an Illinois step never divides by zero, keeps C between the ends and keeps the sign change though fA is halved |
| `Volatility.VolatilityIsBetween` | internal/rating/glicko2.go:110-146 | after any number of steps the new variance is between its start-up ends; without a surprise volatility never rises and falls at most by exp(-tau/2) |
| `Glicko.Update` | internal/rating/glicko2.go:51-97 | the loops compute the sums of steps 3 and 4 and the update of steps 6 and 7 |
| `Glicko.UncertainOpponentsCountLess` | internal/rating/glicko2.go:99-101 | g^2 (pi^2 + 3 phi^2) = pi^2, and g is 1 for a certain opponent and strictly falls with the deviation |
| `Glicko.ExpectedScores` | internal/rating/glicko2.go:103-105 | the expected score has the odds exp(g (mu - muJ)); the two sides' sum to 1 at one deviation; it strictly rises with the own rating and falls with the opponent's |
| `Glicko.SurpriseMeans` | internal/rating/glicko2.go:75-81 | a result adds nothing when the score is the expected one, g for each point of score, and more against a stronger opponent |
| `Glicko.StrongerOpponentPaysMore` | internal/rating/glicko2.go:75-81 | among the same results the improvement is strictly greater the stronger any one opponent |
| `Glicko.EvenGamesSayMost` | internal/rating/glicko2.go:64-73 | a result's information is at most g^2/4, reached exactly against an equal rating |
| `Glicko.PrecisionsAdd` | internal/rating/glicko2.go:86-96 | 1/phi'^2 = 1/(phi^2 + sigma'^2) + 1/v, and the rating moves by phi'^2 times the improvement |
| `Glicko.VolatilityIsTheSolvers` | internal/rating/glicko2.go:82-84 | the new volatility solves step 5 for these games, with tau 0.5 |
| `Glicko.OrderDoesNotMatter` | internal/rating/glicko2.go:51-97 | the update depends on the results, not their order |
| `Glicko.DeviationContracts` | internal/rating/glicko2.go:86-96 | the new deviation is positive and below the widened one and the root of v |
| `Glicko.ResultMovesRating` | internal/rating/glicko2.go:51-105 | a win strictly raises a rating and a loss strictly lowers it |
| `Glicko.IdleFallsShort` | internal/rating/glicko2.go:52-59 | an idle period widens less than the paper's step 6, except where both reach the cap |
| `Glicko.MissPenalty` | internal/store/puzzleranked.go:199-217 | never negative or across the floor, between the drop and two and a half times it above the floor, nothing below it |
| `Glicko.ChargeIsFair` | internal/store/puzzleranked.go:199-217 | a charge never pays out or crosses the floor, and for the same drop a higher rating is never charged less |
| `Glicko.ChargeByRating` | internal/store/puzzleranked.go:176-217 | out of the floor's reach the multiplier is 1 up to 1200, 2.5 from 2400 and linear between; within it the rating is left at 400 |
| `Glicko.AttemptMovesRating` | internal/store/puzzleranked.go:116-131 | a solve strictly raises the user and lowers the puzzle, a miss strictly raises the puzzle and never the user, and the missed puzzle comes out as a user with its rating would who had solved |
| `Glicko.RatingOverARun` | internal/store/puzzleranked.go:116-131 | over any run of attempts a rating at or above 400 stays there, each solve strictly raises it and no miss does |
| `RateLimit.Limiter.Allow` | internal/store/ratelimit.go:21-55 | one request on the stored bucket, or a full one when the key is gone; everything is allowed when Redis is down |
| `RateLimit.TtlOutlivesRefill` | internal/store/ratelimit.go:46-50 | a key lives at least one and less than two seconds longer than an empty bucket takes to fill |
| `RateLimit.WindowIsBounded` | internal/store/ratelimit.go:28-44 | in any window of any run with under a second of skew, keys expiring on their own, the requests allowed cost at most the capacity and the refill of the forward clock movement |
| `RateLimit.EarlyExpiryIsTheOnlyExcess` | internal/store/ratelimit.go:28-50 | in any window of any run at all, at most another capacity for each time the key expired before its bucket was full again |
| `RateLimit.StillClocksBreakTheBound` | internal/store/ratelimit.go:46-50 | with clocks standing still a full bucket passes per lifetime of the key, without end |
| `RateLimit.SkewAddsAtMostItsSteps` | internal/store/ratelimit.go:36-38 | beyond the capacity and the refill of the time passed, skew adds at most the refill of the backward steps; nothing while no clock is behind the one before |
| `RateLimit.SkewWidensTheLimit` | internal/store/ratelimit.go:33-36 | callers taking turns any skew apart get through work growing with the turns and the skew's refill, and one request a turn once the skew is worth one |
| `RateLimit.LimitHoldsExactlyWithoutSkew` | internal/store/ratelimit.go:33-38 | for such callers the limit holds, however long they go on, exactly when their clocks agree |
| `RateLimit.ExpiryIsHarmless` | internal/store/ratelimit.go:46-50 | an expiry changes nothing exactly when the bucket would have been full again by the caller's clock |
| `RateLimit.ExpiringRefinesEverlasting` | internal/store/ratelimit.go:46-50 | under a second of skew the expiring bucket decides every request as one that never expires |
| `BoardText.ToFEN` | web/src/features/classrooms/CoachBoard.jsx:36-58 | the loops write the specified text |
| `BoardText.FromFEN` | web/src/features/classrooms/CoachBoard.jsx:62-84 | the loops read the specified board, or refuse |
| `BoardText.RoundTrip` | web/src/features/classrooms/CoachBoard.jsx:36-84 | every assignment of pieces to squares and either side to move survives being written and read |
| `BoardText.Injective` | web/src/features/classrooms/CoachBoard.jsx:36-58 | two boards written alike are alike |
| `BoardText.NoDigitsSideBySide` | web/src/features/classrooms/CoachBoard.jsx:41-56 | no rank is written with adjacent digits |
| `BoardText.NormalForm` | web/src/features/classrooms/CoachBoard.jsx:36-84 | re-printing any accepted text parses to the same board, and equals its placement exactly when that had no adjacent digits |
| `Histogram.Merge` | internal/obs/engine_report.go:62-76 | counts and buckets summed over the reports |
| `Histogram.SumIsPooled` | internal/obs/engine_report.go:62-76 | with shared edges, the sum is the bucketing of all observations together |
| `Histogram.SortedBounds` | internal/obs/snapshot.go:77-84 | the edges in strict order, none missing |
| `Histogram.QuantileAt` | internal/obs/snapshot.go:126-148 | the scan stops at the first edge that counts the rank, and the value is on the line between the two edges and their counts |
| `Histogram.SameBucket` | internal/obs/snapshot.go:126-148 | the value read and the true observation of that rank are in the same bucket, if it is finite |
| `Histogram.RankHasObservation` | internal/obs/snapshot.go:126-148 | every rank up to the number of observations has one |
| `Histogram.QuantileIsMonotone` | internal/obs/snapshot.go:126-148 | a higher q never reads lower |
| `Histogram.MergeEngineReports` | internal/obs/engine_report.go:62-87 | the percentiles are those of all workers' observations together, and P50 <= P95 <= P99 |
| `Homework.DoneIsCredit` | internal/store/classroomwork.go:93-123 | Done is the number of distinct matching puzzles the caller solved since the assignment was set |
| `Homework.ClassIsFinished` | internal/store/classroomwork.go:93-123 | Class is the number of members at the target, exactly when the target is at least one or nobody is dropped by the WHERE clause |
| `Homework.ZeroTargetMiscounts` | internal/store/classroomwork.go:116-120 | a room in which a target of zero would miscount |
| `Homework.Classroom.SetAssignment` | internal/store/classroomwork.go:39-81 | only a coach, targets in 1..100, at most twenty open, the window turned the right way round, when nobody else sets one at the same time |
| `Homework.Classroom.Assignments` | internal/store/classroomwork.go:89-140 | newest first, each with the caller's own count and the room's |
| `Wilson.InsideIffNotRejected` | internal/store/weakness.go:101-112 | the interval is where the score test does not reject, and its ends are the two roots of (x-p)^2 = z^2 x(1-x)/n |
| `Wilson.BoundsAreProportions` | internal/store/weakness.go:101-112 | 0 <= lo <= p <= hi <= 1 |
| `Wilson.MoreDataNests` | internal/store/weakness.go:101-112 | k times the data at the same rate gives an interval inside the first |
| `Wilson.Weaknesses` | internal/store/weakness.go:158-191 | one record a theme; weak or strong exactly when there are enough other tries and the score test rejects their rate, from below or from above |
| `Wilson.VerdictIsScoreTest` | internal/store/weakness.go:180-188 | one verdict is the score test of that theme against the rest of the player's tries |

## Left out

- Chess move generation, SAN and UCI encoding, Stockfish and ONNX inference: foreign code, here parameters.
- HTTP decoding, cookies, WebSockets, pub/sub, logging and metrics: plumbing.
- Passwords, recovery codes and sessions: library cryptography.
- Clamps, backoff and give-up timing of the worker, pacing, favourites, reapers other than the guest reaper's effect on accounts, migrations: easy members.
- Floating-point rounding: reals throughout; the int64 and uint64 counters are unbounded.
- Volatility.NewVolatility: stops after `fuel` Illinois steps, because the loop's convergence is not proved; every theorem about it holds for every fuel.
- Volatility.NewVolatility: the old volatility is taken as positive, where its logarithm exists; updates keep it so.
- Redis expiry: a key may expire at any time, which covers every time-to-live; only the token bucket models the time itself.
- UpdatedAt of a game, and the legacy games stored without a revision, are not part of this model.
- API process crashes between a commit and `afterChange`: such games are noted and excluded, as the code is best effort there.
- Hints, reviews and imports: acknowledged, left or passed on, without their results.
- LiveTurns.TurnsAreNeverStranded: an unacknowledged message can be delivered for ever here; the deployed queue moves it to a dead-letter queue after five receives (deploy/terraform/data.tf:43-51), after which its turn is stranded.
- LiveFate.ArchivedExactlyWithHope: likewise, a job on its way counts as hope however often it failed.
- Archive: always configured; the Glicko update inside it is a parameter, so its theorems hold for any update.
- Archive: the account row a rated game moves exists, or the whole save fails.
- Attempts: attempt ids are the triples they hash, so collisions are ignored; draws of one user have distinct start times.
- Attempts: the rating moves of a ranked record are in module Glicko, not in the attempt table.
- Attempts: accounts are never removed; the guest reaper, whose deletions take a guest's attempts with them, is not part of this model.
- AttemptsGone.GrowsExactlyIfGone: one deletion by hand, at a state no earlier deletion touched.
- AttemptsLines.StoredStepInRange: the condition on a whole run is sufficient; what one reload leads to is characterised exactly.
- Homework.Classroom.SetAssignment: the count and the insert are one step here and two statements in the source, so two coaches at once can pass twenty.
- Sampler.Select: exact while at most two puzzles of each larger cell were seen; beyond that a scan can meet only seen ones, so how many are found depends on the draws.
- Sampler.Select: exact for one opening; cells are weighted by the rarest opening only, so several may leave puzzles out.
- Corpus: ties for the rarest tag go any way; the order of a cell's equal keys is the table's.
- Histogram: bucket edges as numbers rather than text; edges above 1e300 stand for infinity, as in the code.
- Histogram: observations and edges are positive durations.
- BoardText: JavaScript's white space is listed; the pasted text is a sequence of characters.
- Wilson: the first-try query and the theme list are inputs.
- Homework: `trim` is a parameter; an assignment's insertion order is its creation order.
