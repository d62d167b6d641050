# Matchmaker: verified model

The matchmaker groups queued players into two teams of five. Workers repeatedly take the oldest
waiting player as a seed, scan an index for players within a rating window that widens with the
seed's waiting time, claim ten of them one compare-and-swap at a time, split them into the two
most even teams, and record the match. Callers join and leave the queue at any moment, and a
reaper gives back the claims of workers that died.

The model has two layers.

**The claiming protocol** (`Protocol`, `Shape`, `Ownership`, `Membership`, `Safety`,
`Conservation`, `Recovery`, `Witness`, `Alone`, `Requests`) is a transition system. Any number of processes interleave:
workers, enqueuers, cancellers, reapers. Every compare-and-swap on a player's state, every pool
update, history push and counter update is one step, and a process may crash before any of them. A
scan may be stale by the time its players are claimed: an attempt takes any record as its seed, and
goes on with any list of different records inside the seed's window, whatever their state. Records
are identified by position, not by player id, since an id may queue again after its match.

**The algorithms** are written in the form the engine has them. Classes hold the mutable state
(`Models.Player`, `Bucket.PlayerPool`, `Matcher.Metrics`, `Matcher.MatchHistory`,
`Matcher.WorkerState`, `Matcher.WorkerContext`, `Engine.MatchmakerCore`), and their methods are
proved against functions on values (`Records`, `QueueSpec`, `Balancer`, `MatcherSpec`, `Engine`).
What the engine promises is proved about those functions: `AttemptFacts` (one attempt),
`GuardFacts` and `Starvation` (sequences of attempts), `Ledger` (sequences of all calls). Both
layers use the same transition functions of `Records`, the same `Relaxation` windows and the same
`Balancer` optimum. `Alone` and `Requests` say what the protocol's processes do when nobody else
steps, on players, pool, matches and counters, as the sequential layer does for the methods.

Clock readings are parameters. Each method that the engine runs in one go has one clock record
(`MatcherSpec.Clock`) with a separate reading for each place where the code reads a clock.

## Assumptions of the protocol

The code is weaker than its comments in two places. A run may meet either, both or neither of two
assumptions (`Protocol.Assumptions`):

1. `freshInserts`: a record is inserted only under an id that is absent at that moment. `enqueue`
   tests and then inserts (src/engine/mod.rs:139-144), so two racing requests for one id can break
   this.
2. `crashedOwners`: the reaper resets a claim only if its owner has crashed. The code resets any
   claim older than a timeout.

Each result states which it relies on, and there are three invariants accordingly:

- `Shape.Shaped` holds in every run: matches are well formed, the history is the newest of them,
  and with it the conservation of every counter but the queue size. No assumption.
- `Ownership.Owned` is about claims and matches, and relies on `crashedOwners` alone: a step keeps
  it if and only if it resets no live worker's claim (`Ownership.OwnedKeptExactlyWhen`). That no
  player is in two matches, that dropped results do not matter, and that the reaper recovers what
  crashed workers held, all follow from it. `Witness.SlowWorkerDoubleMatch` is a run without
  `crashedOwners`, all inserts fresh, where two workers record the same ten players.
- `Membership.Pooled` is about what the pool contains: given ownership, a step keeps it if and only
  if it inserts no present id (`Membership.PooledKeptExactlyWhen`). Removal by id, stale references
  and the queue size rely on both. `Witness.RacingEnqueuesLosePlayer` is a run without
  `freshInserts`, the reaper sparing live workers, that strands a waiting player outside the pool.

The two equivalences say that each assumption is exactly what its invariant needs at each step, not
that every single consequence of the invariant needs it.

## Where the code and its comments differ

The model follows the code.

- src/workers/mod.rs:236-237 says a worker whose player was reset rolls back. `mark_matched` drops
  the failed exchange (src/models/mod.rs:196-203) and `attempt_match` goes on
  (src/engine/matcher.rs:261-341).
- src/models/mod.rs:162-164 and :185 say releasing and matching always succeed. That is true for a
  live worker whenever the reaper spares live workers (`Safety.IgnoredExchangesSucceed`).
- src/engine/bucket.rs:27-28 says the reaper calls `remove` for matched and evicted players. It
  does not. A worker that crashes between marking a player and recording the match leaves that
  player in no match for ever (`Recovery.HalfMatchedIsStuck`, reachable by
  `Witness.HalfMatchedReachable`). If it crashed while marking, or before it removed that player,
  the player also stays in the pool, and its id can neither queue again nor cancel
  (`Recovery.HalfMatchedPlaces`, `Recovery.BlockedId`). A matched player whose worker crashed is
  lost in this way if and only if the crash came before the push (`Recovery.LostExactlyWhen`).
- A worker that crashes between claiming a player and stamping the claim leaves that player claimed
  for ever, because an unstamped claim is never stale (`Recovery.UnstampedOrphanIsStuck`, reachable
  by `Witness.UnstampedOrphanReachable`).
- docs/architecture.md:140 calls stage 5 the starvation floor. Validation does not force its delta
  to cover the rating scale (src/config/mod.rs:206-264); the floor covers the scale exactly when it
  does (`Relaxation.FloorCoversScaleExactlyWhen`).
- Inserting a player under an id that is present with another rating leaves the old entry in the
  index (src/engine/bucket.rs:89-103); the two structures agree exactly when the id is new or the
  rating is the same (`Bucket.InsertAgreesExactlyWhen`).

## Model

| member | source | states |
|---|---|---|
| Safety.NoPlayerInTwoMatches | src/engine/matcher.rs:217-318 | with the reaper sparing live workers, whatever inserts race and whoever crashes: a player record is listed at most once on all teams of all matches ever recorded, and it is listed if and only if it is matched and the worker that matched it is past recording |
| Safety.MatchedMeansListed | src/engine/matcher.rs:261-322 | whenever no worker, live or crashed, is between marking and recording, every matched record is in exactly one match and nobody else is in any |
| Safety.EveryMatchIsWellFormed | src/engine/matcher.rs:257-318 | in every run, with no assumption, every match ever recorded is ten different records in two teams of five; no split of the ten has a smaller delta; the delta is at most the spread, and the spread at most twice the seed's window |
| Safety.HistoryIsNewest | src/engine/matcher.rs:310-322 | in every run, with no assumption, the history is exactly the newest recorded matches up to its limit, in order |
| Safety.IgnoredExchangesSucceed | src/models/mod.rs:166-204 | with the reaper sparing live workers: whenever a live worker is about to release or match a player, that player is still claimed and claimed by it, so the exchange whose result is dropped takes effect |
| Safety.IdleOwnsNothing | src/engine/matcher.rs:230-253 | under the same assumption a process holds no claim unless it is claiming, rolling back or marking, in particular none after an attempt that failed |
| Safety.RemovalIsExact | src/engine/matcher.rs:305-307 | under both assumptions removing by id takes out exactly the record this worker matched, or this caller evicted, never a later record with the same id |
| Safety.StaleReferencesAreHarmless | src/engine/mod.rs:178-187 | a record that left the pool in a run that met both assumptions can never again be claimed or evicted through an old reference, and never returns, whatever happens afterwards |
| Safety.TerminalForever | src/models/mod.rs:141-221 | matched and evicted records stay so and no record's id, rating or join time changes, in every run |
| Safety.OutOfPoolForever | src/engine/bucket.rs:114-127 | a record outside the pool never gets back in, in every run |
| Shape.TypedKept | src/engine/matcher.rs:169-342 | no step of any run indexes out of bounds or balances ratings that could overflow |
| Shape.ShapedKept | src/engine/matcher.rs:217-322 | every step of every run keeps a worker's claims free of repetition, the recorded matches well formed and about the players they name, and the history the newest of them |
| Shape.FormIsGood | src/engine/matcher.rs:257-303 | the match formed of any ten different records in a seed's window is well formed, its delta minimal over all splits |
| Ownership.OwnedKept | src/engine/matcher.rs:169-342 | every step that resets no live worker's claim keeps ownership: a claimed record is held by exactly its owner, live or crashed; waiting and evicted records are held by no live process; a matched record is recorded, or in its owner's hands and not recorded, never both; no two matches share a record |
| Ownership.OwnedKeptExactlyWhen | src/workers/mod.rs:329-344 | a step keeps ownership if and only if it resets no live worker's claim |
| Membership.PooledKept | src/engine/bucket.rs:89-127 | given ownership, every step that inserts no present id keeps this: the pool holds a record exactly while it is waiting, claimed or about to be removed by its owner, and whoever is about to remove a record will find it |
| Membership.PooledKeptExactlyWhen | src/engine/mod.rs:139-144 | given ownership, a step keeps pool membership if and only if it inserts no present id, even if it resets a live worker's claim |
| Membership.InvKeptExactlyWhen | src/engine/matcher.rs:169-342 | a step keeps ownership and membership together if and only if it meets both assumptions |
| Recovery.ClaimFieldsAreAccurate | src/models/mod.rs:141-179 | with the reaper sparing live workers, waiting players carry no claim data and a stamped claim names the process that holds it |
| Recovery.ReaperRecoversOrphans | src/workers/mod.rs:289-369 | under the same assumption every stamped claim of a crashed worker that is stale at a reaper tick becomes claimable by the end of that tick, whatever others do meanwhile |
| Recovery.TickVisitsEveryOrphan | src/workers/mod.rs:289-297 | a tick that lists the pool has every pooled claim of a crashed worker on its list, and under both assumptions all of them are pooled |
| Recovery.OrphansRecoverAtTick | src/workers/mod.rs:289-369 | over any run in which a reaper lists the pool, begins a tick and finishes it, every crashed worker's pooled claim that was stamped and past the timeout becomes claimable |
| Recovery.OrphanStep | src/workers/mod.rs:289-369 | until the reaper resets it, nothing changes a crashed worker's claim |
| Recovery.UnstampedOrphanIsStuck | src/workers/mod.rs:311-316 | a crashed worker's unstamped claim stays in every continuation: the player is never reset and never matched, and, inserts being fresh, never leaves the pool |
| Recovery.HalfMatchedIsStuck | src/engine/matcher.rs:261-322 | players marked by a worker that crashed before recording the match, while marking, removing or about to push, are in no match for ever, and in or out of the pool for ever as they were at the crash |
| Recovery.HalfMatchedPlaces | src/engine/matcher.rs:261-307 | where such a player is: in the pool after a crash while marking, out of it after a crash before the push, and in between in the pool exactly if its removal was still to come |
| Recovery.LostExactlyWhen | src/engine/matcher.rs:261-322 | a matched player whose worker crashed is listed in no continuation if and only if the crash came between marking it and recording the match |
| Recovery.BlockedId | src/engine/mod.rs:139-187 | while a matched record stays in the pool, requests to queue or cancel its id change nothing |
| Witness.SlowWorkerDoubleMatch | src/workers/mod.rs:318-335 | a run with fresh inserts but a reaper that resets a slow worker's claims records a player in two matches |
| Witness.RacingEnqueuesLosePlayer | src/engine/mod.rs:139-144 | a run with racing inserts but a reaper that spares live workers leaves a waiting player outside the pool |
| Witness.UnstampedOrphanReachable | src/models/mod.rs:141-155 | the unstamped orphan is reachable under both assumptions |
| Witness.HalfMatchedReachable | src/engine/matcher.rs:261-307 | players matched for nothing are reachable under both assumptions, inside the pool and outside it |
| Conservation.CountersAreConserved | src/engine/matcher.rs:388-420 | in every reachable state each counter equals what it should show less the updates still pending in live and crashed processes, with no assumption for any counter but the queue size; that one, under both, equals the pool's size up to players removed or inserted but not yet counted |
| Conservation.AttemptsAreConserved | src/engine/matcher.rs:172-253 | in every run, with no assumption, every attempt that found a seed has come up short, failed to claim, recorded a match, or is in flight |
| Conservation.QuiescentAttempts | src/metrics/mod.rs:51-102 | when nobody is between acting and counting, with no assumption: cycles equal insufficient plus claim failures plus matches plus attempts in flight, matched is ten times the matches, and both average counts equal the matches recorded |
| Conservation.QuiescentTotals | src/metrics/mod.rs:51-102 | at such a moment under both assumptions, enqueued equals cancelled plus matched plus queued, and the gauge is the pool's size |
| Conservation.AveragesAreOrdered | src/metrics/mod.rs:131-153 | at such a moment, with no assumption, the average team delta is at most the average skill spread, which is at most 3000 |
| Conservation.PushedBeforeCounted | src/engine/matcher.rs:310-326 | in every run, with no assumption, the match counter never exceeds the matches pushed |
| Alone.AttemptAlone | src/engine/matcher.rs:215-342 | from any reachable state in which a live worker has its scan result, the reaper having spared live workers so far: if only this worker steps until it is idle, it records a match if and only if at least ten of its candidates are waiting, whatever became of the others. The match is of the first ten waiting ones in scan order; exactly they end matched, in its name, and leave the pool, and each counter gains what one match adds. Otherwise players, pool and matches are as before and one claim failure is counted |
| Alone.AttemptEnds | src/engine/matcher.rs:215-342 | from anywhere in such an attempt the worker becomes idle by steps of its own |
| Requests.AttemptOpens | src/engine/matcher.rs:172-213 | an attempt remembers its seed's rating and the time from its joining to the scan; it counts one cycle; its scan may return exactly the lists of different players whose rating is within the window of that wait, and with ten or more of them it goes on to claim |
| Requests.ShortAttemptAlone | src/engine/matcher.rs:190-213 | with fewer than ten candidates, one shortage is counted and nothing else has changed |
| Requests.EnqueueAlone | src/engine/mod.rs:128-164 | a join alone is refused exactly for a rating above 3000 or an id in the pool, and then leaves no trace; otherwise one waiting, unclaimed player with that id, rating and join time is added, the pool points the id at it, and two counters go up by one |
| Requests.CancelAlone | src/engine/mod.rs:178-200 | a cancellation alone takes effect exactly if the id is in the pool and its player is waiting; then that player is evicted and removed, and both counters move; otherwise nothing has changed |
| Requests.ReaperAlone | src/workers/mod.rs:289-369 | a tick alone resets exactly the listed players whose claim is stamped and older than the timeout, changes nobody else, and counts how many it reset |
| Records.TerminalStatesAreFinal | src/models/mod.rs:141-221 | no sequence of transitions, by anyone, takes a record out of matched or evicted or changes its identity |
| Records.OneWayOut | src/models/mod.rs:186-221 | no record is matched at one moment and evicted at another, whatever is tried in whatever order |
| Records.ReleaseUndoesClaim | src/models/mod.rs:141-179 | a rollback restores a claimed record completely, claim fields included |
| Records.ReapUndoesStaleClaim | src/workers/mod.rs:305-335 | the reaper restores a claimed record completely if and only if the claim is stamped and older than the timeout |
| Models.Player.TryClaim | src/models/mod.rs:141-155 | succeeds exactly on a waiting player, and moves the object as the protocol's claim moves a record |
| Models.Player.ReleaseClaim | src/models/mod.rs:166-179 | clears the claim fields in any state, reopens the player only if claimed |
| Models.Player.MarkMatched | src/models/mod.rs:186-204 | stores the match time in any state, matches the player only if claimed |
| Models.Player.TryEvict | src/models/mod.rs:212-221 | succeeds exactly on a waiting player |
| Balancer.ExhaustiveBalance | src/engine/balancer.rs:85-157 | returns the split given by the one optimal mask; with SplitGuarantees, a partition into five and five whose delta is the difference of the totals |
| Balancer.SplitGuarantees | src/engine/balancer.rs:137-157 | the two teams are five and five, together exactly the ten players, and the reported delta is the difference of their totals |
| Balancer.BestMask | src/engine/balancer.rs:111-134 | the loop over all masks ends with the mask that beats every five-player mask, by delta, then larger first total, then lower mask |
| Balancer.Teams | src/engine/balancer.rs:137-146 | the second loop deals the players to the teams by the bits of the mask, keeping their order |
| Balancer.BestBeatsEverySplit | src/engine/balancer.rs:111-134 | no choice of five players has a smaller delta than the chosen one |
| Balancer.TeamAIsNotWeaker | src/engine/balancer.rs:129-133 | team A's total is never below team B's |
| Balancer.BalanceIgnoresOrder | src/engine/balancer.rs:85-157 | delta and both team totals do not depend on the order of the input players |
| Balancer.DeltaAtMostSpread | src/engine/balancer.rs:85-157 | the optimal delta never exceeds the difference between the highest and the lowest rating |
| Balancer.NoOverflow | src/engine/balancer.rs:100-125 | every intermediate value of the search fits 32 bits for ratings up to 429496729 |
| Balancer.SafeRatingIsTight | src/engine/balancer.rs:100-125 | ten equal ratings fit 32 bits if and only if they are at most that bound |
| Balancer.CountOnesIsSize | src/engine/balancer.rs:111-116 | the number of one bits of a mask is the number of players it chooses |
| Balancer.MaskRoundTrip | src/engine/balancer.rs:111-146 | every choice of players is some mask and is read back from it |
| Relaxation.StageCountsThresholds | src/engine/relaxation.rs:71-99 | for a valid configuration the stage is one more than the number of thresholds passed, and the window is that stage's delta |
| Relaxation.WindowNeverNarrows | src/engine/relaxation.rs:71-81 | for a valid configuration window and stage never decrease with time and stay between the first and the last delta |
| Relaxation.WindowNarrowsWithoutValidation | src/engine/relaxation.rs:71-81 | with increasing thresholds the window is monotone if and only if the deltas are |
| Relaxation.BoundsAreSound | src/engine/relaxation.rs:115-122 | for an accepted rating the bounds are ordered, contain the rating, stay on the scale and are at most twice the window wide |
| Relaxation.BoundsSelectTheWindow | src/engine/relaxation.rs:115-122 | clamping and saturation included, the bounds admit exactly the ratings within the window |
| MatcherSpec.SeedBoundsMean | src/engine/relaxation.rs:71-122 | a seed's bounds at a given time admit exactly the ratings that differ from its own by at most the window for the time since it joined; a clock behind the join counts as no wait |
| Relaxation.BoundsOrderedExactlyWhen | src/engine/matcher.rs:182 | the width of the bounds underflows exactly for ratings more than a window above the scale |
| Relaxation.BoundsNest | src/engine/relaxation.rs:115-122 | for a valid configuration the bounds only grow with time |
| Relaxation.FloorCoversScaleExactlyWhen | src/config/mod.rs:193-198 | the last stage covers the whole scale for every player if and only if its delta is at least 3000 |
| Configuration.ValidateMeans | src/config/mod.rs:206-264 | comparing neighbours accepts exactly the configurations with all thresholds increasing, all deltas non-decreasing and the timeout above the tick |
| Configuration.ErrorNamesFirstViolation | src/config/mod.rs:206-264 | the reported constraint is violated and every constraint before it holds |
| Bucket.PlayerPool.Insert | src/engine/bucket.rs:89-103 | updates both structures; they agree afterwards exactly when the id was absent or had the same rating |
| Bucket.PlayerPool.Remove | src/engine/bucket.rs:114-127 | takes the id out of both structures, returns the player that was there, and keeps the structures in agreement |
| Bucket.PlayerPool.RangeScan | src/engine/bucket.rs:147-212 | walking, capping and sorting return exactly the scan of the set of queued players |
| Bucket.PlayerPool.ScanInFields | src/engine/bucket.rs:147-212 | field by field: at most 200 waiting players in range, in the order of join time, then rating, then id; whoever in range is left out has a higher rating, or the same and a higher id, than all 200 that are kept |
| Bucket.PlayerPool.Collect | src/engine/bucket.rs:165-196 | the index walk stops at the cap with the first eligible entries in key order |
| Bucket.SortByAge | src/engine/bucket.rs:198-210 | the candidates come out as a permutation ordered by join time, rating and id |
| Bucket.PlayerPool.OldestWaiting | src/engine/bucket.rs:225-245 | a waiting player whose join time is at most that of every waiting player, with ties by lower rating and then lower id, in whatever order the store is visited; none exactly when nobody waits |
| Bucket.PlayerPool.OldestWaitingExcludingRange | src/engine/bucket.rs:254-276 | the same among the waiting players whose rating is outside a range; none exactly when there are none |
| Bucket.PlayerPool.AllPlayers | src/engine/bucket.rs:283-288 | lists every player of the primary store once |
| Bucket.StructuresStayInSync | src/engine/bucket.rs:89-127 | after any insertions of fresh ids and any removals the index lists exactly the players of the primary store, in key order |
| Bucket.InsertAgreesExactlyWhen | src/engine/bucket.rs:89-103 | insertion keeps the two structures in agreement if and only if the id is new or its rating unchanged |
| QueueSpec.ScanMeans | src/engine/bucket.rs:147-212 | a scan holds waiting players in range, without repetition, in the order of join time, rating and id; all of them up to 200, and otherwise 200 that precede every other in rating and id |
| QueueSpec.CapIsLeast | src/engine/bucket.rs:165-196 | stopping early in the sorted index yields the 200 least in range |
| Orders.AscendingUnique | src/engine/bucket.rs:198-210 | there is only one ordered listing of the candidates, so an unstable sort is good enough |
| Orders.OldestJoinedFirst | src/engine/bucket.rs:225-245 | the oldest of a set joined no later than any other member, and among those who joined together has the lowest rating and then the lowest id |
| MatcherSpec.FirstWaitingFacts | src/engine/matcher.rs:217-228 | at most the wanted number of candidates is claimed, each of them waiting |
| Matcher.WorkerState.RecordFailure | src/engine/matcher.rs:127-135 | the failure count goes on for the same seed and starts again at one for another |
| Matcher.MatchHistory.Push | src/engine/matcher.rs:310-322 | the new match is appended and the oldest go until the limit holds |
| Matcher.Metrics.UpdateOnSuccess | src/engine/matcher.rs:388-420 | all eight counters of a success and no other move |
| Matcher.Metrics.Snapshot | src/metrics/mod.rs:131-170 | all counters as they are and the three averages, which are 0 while nothing was counted |
| Matcher.ClaimUpToTen | src/engine/matcher.rs:217-228 | claims exactly the first ten waiting candidates and leaves every other candidate's value alone |
| Matcher.RollBack | src/engine/matcher.rs:230-234 | restores every candidate to its value before the claims |
| Matcher.MarkAndBuild | src/engine/matcher.rs:257-303 | balances, marks and builds the record the specification names, and touches nobody but the ten; what that record says of each player is `AttemptFacts.PlayersAreRecorded` |
| Matcher.ClaimedLeaveQueue | src/engine/matcher.rs:305-307 | removing the ids of the claimed players takes exactly the claimed records out of the queue |
| Matcher.WorkerContext.SelectSeed | src/engine/matcher.rs:352-380 | the oldest waiting player, or once it tripped the guard the oldest outside its range if there is one; `GuardFacts.SeedMeans` says who that is on the records' fields |
| Matcher.WorkerContext.Discover | src/engine/matcher.rs:179-188 | the bounds are the seed's rating less and plus the window for the time since it joined, cut off at 0 and 3000; their width does not underflow, and the scan of them is claimable |
| Matcher.WorkerContext.ClaimAndCommit | src/engine/matcher.rs:215-342 | for any candidate list, however stale, the queue, history, counters, guard and result end as the commit-or-rollback specification says; of the candidate objects, in the pool or not, exactly the ten taken ones end matched, each at its own time, and all others, or all if fewer than ten could be taken, end as they were |
| Matcher.WorkerContext.AttemptMatch | src/engine/matcher.rs:169-342 | the whole attempt, with all its state changes, computes exactly the attempt specification on queue, history, counters, guard and result, and keeps the pool consistent |
| AttemptFacts.AttemptSucceedsExactlyWhen | src/engine/matcher.rs:169-342 | an attempt succeeds if and only if ten waiting players lie in its seed's bounds; the queue then loses exactly the picked ten, who form the match, whose spread is at most twice the seed's window |
| AttemptFacts.UncontendedAttempt | src/engine/matcher.rs:169-307 | with the oldest player as seed and 10 to 200 players in its bounds, there is one set of the ten oldest of them; it contains the seed, it is what leaves the queue, and it is the match |
| AttemptFacts.FailureLeavesNoTrace | src/engine/matcher.rs:190-253 | a failed attempt run alone leaves queue and history as they were; it reports an empty pool, and moves nothing, exactly when nobody waits; otherwise it counts one cycle and one failure, blames the seed, and reports how many players were in reach |
| AttemptFacts.ShortScanMeans | src/engine/matcher.rs:179-213 | a short scan adds one to the cycles and one to the shortages and nothing else; it reports the number in reach, the width of the clamped bounds, and a stage of one plus the thresholds passed since the seed joined |
| AttemptFacts.ClaimsFailExactlyWhen | src/engine/matcher.rs:217-253 | for any stale candidates the claims fail if and only if fewer than ten are still waiting; the result says how many, the failure counter goes up by one, the failure is blamed on the seed, and all else is unchanged |
| AttemptFacts.MatchQuality | src/engine/matcher.rs:265-303 | two teams of five that are the ten players; delta at most spread, spread at most the width of the bounds, average wait at most the longest wait |
| AttemptFacts.MatchDeltaIsBalancedDelta | src/models/mod.rs:348-372 | the delta recomputed for the match record is the minimum the search found, and the two totals add up |
| AttemptFacts.WaitsEndAtTheMatch | src/engine/matcher.rs:265-271 | waits are each player's own mark less its join time, whenever the record is built; the record has the longest of them and their mean rounded down |
| AttemptFacts.PlayersAreRecorded | src/models/mod.rs:275-281 | the match lists each claimed player exactly once, on exactly one team, with its id, its rating and its own mark less its join time |
| AttemptFacts.CommitMeans | src/engine/matcher.rs:305-342 | for any stale candidates of whom ten still wait, the first ten of those leave the queue, the match is appended to the history, and the counters gain one match, ten players, the sum of the ten waits, and the match's own spread and delta |
| AttemptFacts.CandidatesMean | src/engine/matcher.rs:217-271 | what each candidate is afterwards, field by field: the first ten waiting ones are matched, stamped with the claim and each marked at its own time, if there are ten; all others are as they were |
| AttemptFacts.FirstOfWaiting | src/engine/matcher.rs:217-228 | the players claimed are the waiting candidates in order, cut off at the wanted number |
| AttemptFacts.AveragesMean | src/metrics/mod.rs:131-153 | each average of a snapshot is its own sum over its own count, rounded down, and 0 while nothing was counted |
| AttemptFacts.ClaimsAreScanPrefix | src/engine/matcher.rs:217-228 | without contention the first ten scanned players are the ones claimed |
| GuardFacts.AttemptMovesGuard | src/engine/matcher.rs:105-136 | an attempt run alone moves the guard as the guard's own transition says |
| GuardFacts.ContendedAttemptMovesGuard | src/engine/matcher.rs:190-253 | so does one that others interfere with, whatever the two reads of seed selection, the scan and the claims find |
| GuardFacts.SeedMeans | src/engine/matcher.rs:352-380 | without three failures recorded against the oldest waiting player, that player is the seed; with them it is, of the players in the second read who wait and differ from it by more than its window, the one who joined first, and the oldest player only if there is none |
| GuardFacts.TwoAnchoredBetweenSkips | src/engine/matcher.rs:352-380 | between any two attempts of a worker that skip the oldest player, at least two are anchored on the then-oldest, whatever happens to the queue in between, even between the two reads of one seed selection |
| GuardFacts.FourFailuresSkip | src/engine/matcher.rs:352-380 | of four consecutive failures with an unchanged oldest player and somebody waiting outside its range, one skips it |
| GuardFacts.SkipsEveryFourth | src/engine/matcher.rs:127-135 | such a worker, starting fresh, skips exactly every fourth attempt |
| Starvation.OldestIsMatchedInTime | src/engine/bucket.rs:165-210 | past the last threshold, with a last delta of at least 3000 and no arrivals, the oldest of at least ten players is matched by exactly the attempt its place in the rating order dictates, at the latest after one attempt per ten players beyond 200 and one more |
| Starvation.FlooredSeed | src/engine/matcher.rs:352-380 | such a player is the seed of every attempt, whatever the guard remembers |
| Starvation.NearPlayerIsPicked | src/engine/bucket.rs:165-210 | with fewer than 200 waiting players before it in rating order, it is taken |
| Starvation.FarPlayerAdvances | src/engine/bucket.rs:165-210 | otherwise all ten taken are before it |
| Workers.ReaperTick | src/workers/mod.rs:289-369 | a tick run alone resets exactly the stale claims of the pool, changes no other player, and counts them |
| Workers.TickLeavesNothingStale | src/workers/mod.rs:289-369 | after a tick the reset players carry no claim, all others are untouched, and another tick at the same time recovers nobody |
| Engine.MatchmakerCore.Enqueue | src/engine/mod.rs:128-164 | an illegal rating and a present id are refused with nothing changed, in that order of precedence; otherwise the queue gains one fresh waiting record, two counters move, and the new size is returned |
| Engine.MatchmakerCore.Cancel | src/engine/mod.rs:178-200 | an absent id and a player in any state but waiting are refused with nothing changed; otherwise exactly that record leaves, evicted |
| Engine.MatchmakerCore.RecentMatches | src/engine/mod.rs:209-216 | the newest matches, newest first, as many as asked for and kept |
| Engine.EnqueueMeans | src/engine/mod.rs:128-164 | each error arises exactly in its case, and changes nothing; otherwise the queue gains exactly the fresh record, two counters go up by one, and the answer is the new size |
| Engine.CancelMeans | src/engine/mod.rs:178-200 | not found exactly if no record has the id, being matched exactly if its record is not waiting, and neither changes anything; otherwise exactly that record is gone and two counters move |
| Engine.CancelUndoesEnqueue | src/engine/mod.rs:128-200 | joining and then leaving restores the queue and the queue size, and leaves one count on each side |
| Engine.RecentOfPushed | src/engine/mod.rs:209-216 | after any pushes under a limit, the recent matches are the newest of all ever pushed, newest first |
| Ledger.Served | src/engine/mod.rs:128-200 | after any sequence of joins, cancellations and attempts everybody queued is waiting and unclaimed, enqueued equals cancelled plus matched plus queued, every seeded attempt is counted once as a success or a failure, and the history holds as many matches as created, up to its limit |
| Ledger.SnapshotAverages | src/metrics/mod.rs:131-153 | in a snapshot after any such sequence the average team delta is at most the average spread, which is at most 3000, and the average wait never overstates the total |
| Ledger.AttemptKeepsOrder | src/engine/matcher.rs:169-342 | any attempt, with any guard, keeps those books |

## Left out

- Weak references and dead index entries (src/engine/bucket.rs:147-196): the index holds players directly, so an entry never dies by itself.
- The two halves of `remove` (src/engine/bucket.rs:117-124), and the primary store and index update of `insert`: each is one step of the protocol.
- The compare-and-swap and the field stores of `release_claim` and of the reaper's reset, and the clock store and compare-and-swap of `mark_matched`: each is one step of the protocol. The claim and its stamp are two steps.
- Memory ordering: steps are sequentially consistent.
- The choice of the seed in the protocol layer: an attempt there takes any record as its seed, so what is proved holds for the seed the code selects. Which one that is, is in the sequential layer.
- The sum of waiting times is in the sequential layer only, not in the protocol.
- 64-bit overflow of accumulated counters and waiting times, and 32-bit overflow of the failure count and of a tick's recovery count.
- `match_id`, `formed_at`, `avg_rating` and the remaining presentation fields of match records and snapshots.
- `Config::from_env`, apart from the cross-field validation.
- The worker loop's waiting and waking (src/workers/mod.rs:132-218): workers attempt at any time. Shutdown, signals, the HTTP interface and logging.
- Ledger.Served: reaper ticks are not among its calls, because between complete calls there is no claim to reset.
- Starvation.OldestIsMatchedInTime: assumes no arrivals and no cancellations between the attempts, and attempts that do not overlap.
- Alone.AttemptAlone: leaves open at which times the matched players were stamped and marked; the sequential layer has them (`AttemptFacts.CandidatesMean`).
- Safety.NoPlayerInTwoMatches: relies on the reaper sparing live workers, and fails without that, as the witness shows.
- Recovery.ReaperRecoversOrphans: the reaper's reset takes the fields and the state together, so a player claimed again between its exchange and its two stores is not covered.
