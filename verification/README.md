# A verified model of the strategy-search backend

This project models, in Dafny, the parts of the backend whose correctness is hardest to see by reading: the
backtest simulator with its decimal arithmetic, the protocol that moves a backtest candidate from queue to
result, the market-data subscription manager, the online leaderboard, the handling of candle gaps and candle
digests, and the reports over a finished backtest. `dafny verify dfyconfig.toml` checks all of it.

How the files divide the work:

- `Decimals`, `ScientificNotation`: bigint decimals, compared with real numbers. Rounding is compared with one
  reference, `HalfAway`.
- `Simulator` defines a backtest as a function of its input. `SimulatorLoop` is the loop with its mutable
  state, proved to compute that function. `SimulatorLedger`, `SimulatorMoney`, `SimulatorBounds`,
  `SimulatorFills` and `SimulatorLookAhead` prove what the function promises; `SimulatorInput` says which inputs it
  accepts, `SimulatorConduct` when trades begin and end, and `SimulatorFigures` what each of their figures is, in prices
  and rates rather than in the simulator's own terms.
- `CandidateStore` defines each atomic operation of the in-memory repository as a function of the stored
  tables, and `CandidateRepository` is the repository object, proved to perform those operations in place.
  `CandidateProtocol` lets any number of workers, users, reconcilers, completion workers and scorers interleave them.
  `CandidateInvariant` and `CandidateSteps` prove the invariant of all reachable states, `CandidateHistory`
  what one step may do to the past, and `CandidateTheorems`, `CandidateOutcomes`, `CandidateCounters`,
  `CandidateLeases` and `CandidateProgress` the results. `CandidateEffects` and `CandidateResults` say what every step
  does to the whole store, and `CandidateRetries` what follows: the table of status changes, retries and dispatches.
- `SubscriptionManager` cuts the asynchronous methods at their awaits; `SubscriptionObject` is the object, each of
  whose methods is proved to perform the segment of its name in place; `SubscriptionSafety`, `SubscriptionTheorems`,
  `SubscriptionProgress` and `SubscriptionRuns` reason about every interleaving. `SubscriptionStatus` says exactly what
  each event tells the observer, `SubscriptionEffects` what it does to everything else.
- `Leaderboard`, `LeaderboardObject`: the online list and its object. `LeaderboardRanking` and `LeaderboardSteps` treat
  rankings and one submission, `LeaderboardRuns` compares the online list with offline rankings along every run, and
  `LeaderboardReadmission` is a run on which they part. `LeaderboardAnswers` compares what a submission is told with
  what became of the lists.
- `MissingRanges`, `SnapshotText`, `SnapshotInjective`, `SnapshotReading`: gaps and canonical text of candle data.
- `Drawdown`, `TradePages`, `SimulatorReports`: equity curve, percentages, paging, and their link to the simulator.
- `Sorting`, `Wrappers`: the stable sort the program calls, and optional values and results.

What the models take as given:

- Candidate protocol: each repository method is one atomic step; the clock does not go back; identifiers and
  tokens are never issued twice and contain no separator that would make two attempt names collide. The
  cancel of `modules/backtesting/application/service.ts:503-504` reads a candidate and writes it back in two
  awaits; the model takes them as one step. Were they split, the write could put back a stale snapshot over
  a candidate that completed in between. A lease is counted from the same instant as its claim.
- Simulator: prices and amounts enter as decimals; strategy and sentiment are pure functions of what they are given.
- Subscription manager: a cancelled timer does not fire, and the observer's callbacks do not throw. A desired
  list is a set, which is what its normalized form stands for.
- Leaderboard: a submission is atomic and submissions carry strictly increasing times. Where a result needs it, an
  experiment stays in its scope (`CandidateTheorems.OneExperiment`: only its scores ever change).

What the proofs found about the code:

- `failCompletion` (`modules/backtesting/application/service.ts:259-264`) does not look at the status, so a
  cancel during completion can be undone; `CancelledIsFinalIffUnclaimed` gives the exact condition on the record.
- A candidate whose fifth completion claim runs out is never concluded, not even after a repair; only a cancel or
  a removal ends it. `StrandedReachable` is a run that gets there, and `ConcludableIffNotStranded` shows that this is
  the only such case.
- The catch of `connect` (`modules/market-data/application/subscription-manager.ts:102-107`) clears the
  connection of whatever generation is current, and a failed `onConnected` reconnects over a live connection;
  `LosesTrackExactly` lists all steps that lose one.
- A manager that wants subscriptions and has retries left does not always have something under way: a timer, a
  resubscription or a waiting connect call of its generation, or a connection. `StallsExactly` and `NeverIdleExactly`
  give the exact condition. It fails in five ways, each with a run that shows it (lines of
  `modules/market-data/application/subscription-manager.ts`): the close of the old connection rejects, before any
  retry was used (54); a disconnect is reported while a timer pends, which keeps a past generation (127-134); the catch
  of a connect call drops the connection but schedules nothing, because the call's generation is past or such a timer
  pends (103-107); a connection becomes ready after such a catch (99); the connected callback of a failed call succeeds
  after the last retry and resets the count (113-115).
- The leaderboard is the ranking of all distinct experiments only while no score is raised after a rejection. An
  experiment turned down by a full list (`modules/leaderboard/application/service.ts:122`), rated anew and submitted
  again is admitted and pushes out another entry. That happens when a completion loses its lease after the submission,
  the owner raises the stored score (`modules/backtesting/application/service.ts:510`) and the next completion submits
  what is stored (`modules/backtesting/application/service.ts:461-468`). `ResubmissionExactly` and `OnlineIsOfflineExactly` give the exact
  condition, `ReadmissionHappens` a run. In every run the list is the ten best offers (`OnlineIsBestOffers`).
- The answer to an admission names the lowest entry as evicted (`modules/leaderboard/application/service.ts:126`) even
  when the list was not full and nobody left it; `EvictionReportedExactly` gives the exact condition.
- Paging needs distinct keys at page boundaries; with three equal keys and a page size of one it never ends.
- The report's ending equity can differ from the simulator's by a cent when the capital has half a cent and the
  account ends below zero; `EndingEquityDiffers` is a backtest on which it does. This speaks of exact amounts. A
  capital such as 1.005, which has no exact double, is already reported as 1.00 while the simulator starts with 1.01.
  A capital in whole cents is the safe condition.
- The percentage drawdown is the deepest fall from a running peak. Once a factor is negative that need not be the
  deepest fall from a positive factor to a later one; `PairwiseExactly` says, in terms of the factors, when it is.

## Model

| member | source | states |
|---|---|---|
| Decimals.NormalizeLoop | modules/backtesting/domain/simulator.ts:53-60 | the loop that drops trailing zeros ends and computes `Normalize`, whose value and canonicity the next rows state |
| Decimals.NormalizeExact | modules/backtesting/domain/simulator.ts:53-60 | normalizing does not change the number a decimal denotes |
| Decimals.NormalizeCanonical | modules/backtesting/domain/simulator.ts:53-60 | two decimals denote the same number if and only if they normalize to the same representation |
| Decimals.AddExact | modules/backtesting/domain/simulator.ts:89-95 | the sum is exact, whatever the two scales |
| Decimals.SubtractExact | modules/backtesting/domain/simulator.ts:96 | the difference is exact |
| Decimals.MultiplyExact | modules/backtesting/domain/simulator.ts:97 | the product is exact |
| Decimals.AbsoluteExact | modules/backtesting/domain/simulator.ts:98 | the absolute value is that of the denoted number |
| Decimals.HalfAwayNearest | modules/backtesting/domain/simulator.ts:100-106 | the rounding reference: no integer is nearer, and a tie goes to the integer farther from zero |
| Decimals.HalfAwayUnique | modules/backtesting/domain/simulator.ts:100-106 | those two conditions leave only one integer |
| Decimals.RoundedDivisionIsHalfAway | modules/backtesting/domain/simulator.ts:100-106 | truncating BigInt division with the remainder test is that reference, for every sign of numerator and denominator |
| Decimals.RoundIsNearest | modules/backtesting/domain/simulator.ts:108-111 | rounding yields the nearest multiple at the requested scale, ties away from zero |
| Decimals.DivideIsNearest | modules/backtesting/domain/simulator.ts:113-118 | division yields the nearest multiple at the requested scale to the exact quotient, ties away from zero |
| Decimals.RoundMonotone | modules/backtesting/domain/simulator.ts:108-111 | rounding never reverses the order of two values |
| Decimals.RoundOdd | modules/backtesting/domain/simulator.ts:108-111 | rounding a negated value negates the result |
| Decimals.RoundIdempotent | modules/backtesting/domain/simulator.ts:108-111 | rounding a rounded value, to the same or a finer scale, does not move it |
| Decimals.RoundError | modules/backtesting/domain/simulator.ts:108-111 | rounding moves a value by at most half a unit of the last digit |
| Decimals.DivideError | modules/backtesting/domain/simulator.ts:113-118 | a quotient is off by at most half a unit of the last digit |
| ScientificNotation.ExpandWrites | modules/backtesting/domain/simulator.ts:62-76 | expanding a numeral with an exponent writes the plain numeral `Expanded` describes, in all three placements of the point |
| ScientificNotation.ExpandedDenotes | modules/backtesting/domain/simulator.ts:62-76 | that plain numeral denotes the same number, for every sign, fraction, mark and signed exponent |
| ScientificNotation.DecimalOfTextExact | modules/backtesting/domain/simulator.ts:62-86 | the text of any signed numeral, with or without fraction and exponent, is read as exactly the number it denotes |
| SimulatorLoop.SimulateBacktest | modules/backtesting/domain/simulator.ts:144-291 | the imperative simulation, an object whose closures update equity, position, schedule and trades candle by candle, returns exactly what `Simulator.Simulate` defines, error for error |
| SimulatorLoop.Simulation.ClosePosition | modules/backtesting/domain/simulator.ts:171-219 | closing in place: new equity, one more trade, no position, nothing else |
| SimulatorLoop.Simulation.OpenPosition | modules/backtesting/domain/simulator.ts:221-233 | opening in place: a position, or none when the quantity rounds to nothing, or the price error |
| SimulatorLoop.Simulation.RunLoop | modules/backtesting/domain/simulator.ts:235-273 | the index loop reaches the state `Run` defines, or stops at the first failing candle |
| SimulatorLedger.ReplayLedger | modules/backtesting/domain/simulator.ts:235-278 | every successful replay ends flat, and every trade is the round trip of one opened position, chained to its predecessor in time and in equity |
| SimulatorMoney.TradeConserves | modules/backtesting/domain/simulator.ts:171-188 | one trade's profit is gross less slippage less fee and its equity moves by exactly that, to the cent |
| SimulatorMoney.MoneyConserved | modules/backtesting/domain/simulator.ts:165-219 | over a whole backtest final equity is the rounded capital plus the sum of profits, and every trade starts with what its predecessor left |
| SimulatorBounds.TradesBounded | modules/backtesting/domain/simulator.ts:171-233 | for every trade: profit differs from direction x (exit - entry) x quantity - f x (entry + exit) x quantity by at most 0.025 + 0.01 f; sizing overspends by at most half an eighth digit; a LONG trade cannot lose more than the equity plus those bounds; a LONG trade, or any with slippage of at most 10000 bps, starts with positive equity |
| SimulatorBounds.SlippageRateAtMostOne | modules/backtesting/domain/simulator.ts:160-164 | slippage of at most 10000 basis points is a rate of at most one, which the bounds ask for |
| SimulatorFills.LessIsValueOrder | modules/backtesting/domain/simulator.ts:134-142 | the comparisons of the input checks, made here on decimals of any two scales, are the order of the denoted numbers |
| SimulatorFills.TriggersComparePrices | modules/backtesting/domain/simulator.ts:245-257 | for every position the loop can hold and every candle the stop, the take profit and both gap tests, which compare units, hold if and only if the rounded prices compare that way |
| SimulatorFills.TradesWellFormed | modules/backtesting/domain/simulator.ts:189-278 | trades are numbered 1..n, move forward in time, do not overlap, enter after the warmup, and enter and exit at prices within their candles' rounded low and high, gap, stop and take-profit fills included; RANGE_END only as the last; stop and take profit on their sides of the entry |
| SimulatorFills.EveryOpeningSettles | modules/backtesting/domain/simulator.ts:221-278 | the positions opened and the trades booked correspond one to one, in order |
| SimulatorLookAhead.NoLookAhead | modules/backtesting/domain/simulator.ts:154-273 | two series that agree on their first candles, each with one more, leave the loop in the same state after them, for any pure strategy and sentiment, and the trades closed by then are the first of both results |
| SimulatorLookAhead.CandleOrderIrrelevant | modules/backtesting/domain/simulator.ts:154-161 | the loop sees exactly the closed candles in order; shuffling the input changes nothing |
| SimulatorFigures.TradesFigured | modules/backtesting/domain/simulator.ts:144-233 | every figure of every trade is what real arithmetic gives from the input's capital, rates, percentages and market prices, rounded once at each stated place: entry and exit price, quantity, notional, stop and take-profit price, gross, fee, slippage, profit, equity, percentage and verdict |
| SimulatorFigures.ResultLabelled | modules/backtesting/domain/simulator.ts:171-290 | the result names its candidate, attempt and capital, and the k-th trade its number k, attempt, pair and asset |
| SimulatorConduct.TradesConducted | modules/backtesting/domain/simulator.ts:221-278 | every trade was asked for by the strategy's answer at the candle before its entry, met no candle in between whose rounded low or high reaches its stop or take profit and no opposite answer, and left for the reason its last candle gives: the strategy's turn first, then STOP_LOSS whenever the stop is reached, then TAKE_PROFIT, and RANGE_END only with neither reached |
| SimulatorConduct.OpenPositionUndisturbed | modules/backtesting/domain/simulator.ts:235-273 | a position open after n candles has met no candle that reaches its stop or take profit and no opposite answer |
| SimulatorConduct.AnswersFollowed | modules/backtesting/domain/simulator.ts:239-273 | when the strategy takes a side, the next candle leaves the account on it, or protected out of such a position, or too poor for the smallest quantity; the strategy sees the candles so far, the last close and the sentiment at that candle's end |
| SimulatorConduct.SimulationFailures | modules/backtesting/domain/simulator.ts:171-273 | an accepted input fails only at a candle whose answer is unknown or whose entry is impossible, and does fail if an answer is unknown |
| SimulatorInput.InputsAccepted | modules/backtesting/domain/simulator.ts:134-161 | exactly the proper inputs with enough closed candles are accepted, too few of them is the snapshot error, and the loop gets the closed candles in increasing time |
| CandidateRepository.InMemoryBacktestingRepository.DeleteScope | modules/backtesting/application/service.ts:119-130 | deleting a scope removes exactly its candidates, whatever order they are visited in |
| CandidateRepository.InMemoryBacktestingRepository.ClaimWorkerAttempt | modules/backtesting/application/service.ts:185-195 | a claim is refused, or writes the running attempt and the fenced candidate that `CandidateStore.ClaimWorkerAttempt` defines |
| CandidateRepository.InMemoryBacktestingRepository.FailWorkerAttempt | modules/backtesting/application/service.ts:196-205 | fence lost and nothing changed, or attempt aborted and candidate released |
| CandidateRepository.InMemoryBacktestingRepository.PersistWorkerSuccess | modules/backtesting/application/service.ts:215-224 | fence lost and nothing changed, or attempt completed with its trades and candidate handed to completion, or kept as an audit when cancelled |
| CandidateRepository.InMemoryBacktestingRepository.FindRunning | modules/backtesting/application/service.ts:158-159 | the scan finds the first running attempt in insertion order |
| CandidateRepository.InMemoryBacktestingRepository.RecoverAbandonedAttempt | modules/backtesting/application/service.ts:155-172 | recovery of an expired lease: the attempt it aborts, the retry decision and the reopened dispatch |
| CandidateRepository.InMemoryBacktestingRepository.RepairTerminalQueueFailure | modules/backtesting/application/service.ts:206-214 | repair moves any live candidate to pending failure and settles its running or missing attempt |
| CandidateRepository.InMemoryBacktestingRepository.ClaimCompletion | modules/backtesting/application/service.ts:225-234 | the completion claim: status, retry time, lease and attempt count decide; a new generation and token are stored |
| CandidateRepository.InMemoryBacktestingRepository.ReadLatestCompletedAttempt | modules/backtesting/application/service.ts:238-241 | the scan finds the completed attempt with the highest number, the earliest inserted among equals |
| CandidateRepository.InMemoryBacktestingRepository.StageCompletionExperiment | modules/backtesting/application/service.ts:242-247 | an experiment the candidate already has is kept and nothing changes; otherwise exactly the new one is added |
| CandidateRepository.InMemoryBacktestingRepository.FailCompletion | modules/backtesting/application/service.ts:259-264 | fence lost and nothing changed, or back to processing, or failed when attempts are used up; the status is not looked at |
| CandidateRepository.InMemoryBacktestingRepository.UpdateExperimentScore | modules/backtesting/application/service.ts:274 | a stored experiment gets a new score and eligibility and keeps everything else; no other experiment changes, none appears |
| CandidateSteps.Reachable | modules/backtesting/application/service.ts:119-274 | the invariant of `CandidateInvariant` holds after every sequence of worker, cancel, recovery, repair, dispatch, removal, completion and scoring steps, at any times |
| CandidateTheorems.FenceIsTheCandidateToken | modules/backtesting/application/service.ts:196-217 | a worker passes the fence if and only if its candidate still carries its token |
| CandidateTheorems.StaleWorkerChangesNothing | modules/backtesting/application/service.ts:196-224 | a worker whose token was superseded or cleared gets the fence error from both outcome reports, after any further run, and changes nothing |
| CandidateTheorems.OutcomeClearsFence | modules/backtesting/application/service.ts:196-224 | reporting an outcome uses the fence up, so no outcome is ever reported twice |
| CandidateTheorems.ClaimSupersedesFence | modules/backtesting/application/service.ts:185-195 | a granted claim takes the fence from every earlier claim on the candidate |
| CandidateLeases.LeaseProtectsFence | modules/backtesting/application/service.ts:155-224 | while its lease runs, or once cancelled, a worker keeps its fence through every step except its own outcome, a repair of a running candidate and a removal |
| CandidateLeases.LeaseProtectsClaim | modules/backtesting/application/service.ts:225-264 | a completion claim that holds keeps holding through every step except its own conclusion and a removal |
| CandidateLeases.RetryNotBeforeDue | modules/backtesting/application/service.ts:225-264 | after a completion failure with attempts left no run claims the result again before the retry time |
| CandidateTheorems.OneActiveAttempt | modules/backtesting/application/service.ts:185-224 | a fence token exists only while backtesting or cancelled, and exactly one running attempt bears it |
| CandidateTheorems.CompletedOnce | modules/backtesting/application/service.ts:215-224 | a candidate has at most one completed attempt ever; neither it nor its trades are overwritten by any run |
| CandidateTheorems.AttemptsBounded | modules/backtesting/application/service.ts:155-214 | at most `maxAttempts` attempt records in any run, and a synthetic recovery record only as the sole one |
| CandidateTheorems.OneExperiment | modules/backtesting/application/service.ts:242-274 | at most one experiment a candidate in any run, and of that one nothing ever changes but the two scores |
| CandidateOutcomes.ChangedOnlyByRescore | modules/backtesting/application/service.ts:242-274 | an experiment that no step of the run scores anew does not change at all |
| CandidateTheorems.CompletedHasItsExperiment | modules/backtesting/application/service.ts:440-485 | a completed candidate names its own experiment, which holds the trades of its only completed attempt, and that is no cancellation audit |
| CandidateOutcomes.OneClaimHolds | modules/backtesting/application/service.ts:225-264 | of all completion claims ever granted on a candidate at most one holds at a time |
| CandidateOutcomes.StaleCompletionChangesNothing | modules/backtesting/application/service.ts:248-264 | a completion claim that was superseded, used or ran out is rejected by all three concluding steps for ever, and changes nothing |
| CandidateOutcomes.FinalizedOnce | modules/backtesting/application/service.ts:248-258 | at most one finalize step of a candidate ever succeeds, of either kind: after it the record is frozen and no completion claim holds again |
| CandidateOutcomes.TerminalIsFinal | modules/backtesting/application/service.ts:185-264 | COMPLETED and FAILED records are never changed again by any run |
| CandidateOutcomes.CancelledLeftOnlyByGivingUp | modules/backtesting/application/service.ts:259-264 | a step leaves CANCELLED if and only if it reports a completion failure under a claim that still holds |
| CandidateOutcomes.CancelledIsFinalIffNoClaimHolds | modules/backtesting/application/service.ts:185-264 | CANCELLED is final in every continuation if and only if no completion claim ever handed out on the candidate holds |
| CandidateOutcomes.CancelledIsFinalIffUnclaimed | modules/backtesting/application/service.ts:185-264 | the same in terms of the record: it bears no completion claim token, or that claim's lease has run out |
| CandidateOutcomes.CancelledWhileRunning | modules/backtesting/application/service.ts:215-223 | a candidate cancelled while its worker runs never gets an experiment or a completion claim, and stays cancelled |
| CandidateCounters.GenerationsCountClaims | modules/backtesting/application/service.ts:185-234 | `executionGeneration` counts the granted work claims, `completionGeneration` equals `completionAttemptCount` and counts the granted completion claims, never more than five |
| CandidateCounters.CancelledDispatchForever | modules/backtesting/application/service.ts:155-179 | a cancelled dispatch is never sent, put back or reopened, recovery included |
| CandidateCounters.CancelDuringCompletionIsUndone | modules/backtesting/application/service.ts:259-264 | a cancel while a completion claim holds is overwritten by that claim's failure report |
| CandidateCounters.CompletionClaimReachable | modules/backtesting/application/service.ts:185-234 | a run that gets there, with the candidate not cancelled: submit, claim, succeed, claim the result |
| CandidateProgress.TradesWereReported | modules/backtesting/application/service.ts:215-224 | in any run, the trades stored for an attempt are those that the worker holding its fence reported, unchanged |
| CandidateProgress.ResultWasReported | modules/backtesting/application/service.ts:440-472 | the trades in a completed candidate's experiment are those one worker reported while it held the candidate's fence |
| CandidateProgress.StrandedForever | modules/backtesting/application/service.ts:225-264 | a candidate whose fifth completion claim ran out is completed or failed by no run at all, and stays stranded unless it is cancelled or removed |
| CandidateProgress.ConcludableIffNotStranded | modules/backtesting/application/service.ts:206-264 | a live candidate that is not stranded can be brought to COMPLETED or FAILED by a run of at most three steps without cancel or removal; a stranded one by no run of any kind |
| CandidateProgress.StrandedReachable | modules/backtesting/application/service.ts:225-234 | a run that strands a candidate: its result is claimed five times, one lease apart, and the last lease runs out |
| CandidateEffects.SubmitEffect | modules/backtesting/application/service.ts:132-144 | a submission is queued with its dispatch pending and nothing else changes |
| CandidateEffects.ClaimWorkEffect | modules/backtesting/application/service.ts:185-195 | a valid claim is granted if and only if the candidate is queued, waits for a retry, or is running on a lease that is over, and then exactly its record and one attempt change |
| CandidateEffects.FailEffect | modules/backtesting/application/service.ts:196-205 | the whole store after a failure report in any reachable state: unchanged without the fence; else the candidate waits or is about to fail, by the attempt's number, or stays cancelled, and the attempt is aborted under the matching category |
| CandidateEffects.SucceedEffect | modules/backtesting/application/service.ts:215-224 | the whole store after a success report: unchanged without the fence; else the result awaits completion, or is an audit of a candidate that stays cancelled |
| CandidateEffects.RecoverEffect | modules/backtesting/application/service.ts:155-172 | the whole store after a recovery: an expired lease aborts the attempt bearing the fence; with attempts left the candidate waits and its dispatch is pending again, else it is about to fail |
| CandidateEffects.RepairEffect | modules/backtesting/application/service.ts:206-214 | the whole store after a repair: every live candidate not already failing is about to fail, and only its running attempt, or a synthetic one, is touched |
| CandidateEffects.CancelEffect | modules/backtesting/application/service.ts:503-504 | a live candidate is cancelled together with its dispatch, a running worker keeps its fence and loses its lease, and nothing else changes |
| CandidateEffects.SentEffect | modules/backtesting/application/service.ts:173 | a dispatch that is not cancelled is marked sent, without an error and one attempt on; nothing else changes |
| CandidateEffects.LostEffect | modules/backtesting/application/service.ts:174 | a dispatch that is not cancelled is pending with the error and one attempt on; nothing else changes |
| CandidateEffects.RemoveEffect | modules/backtesting/application/service.ts:119-130 | exactly the candidates of the scope are removed |
| CandidateResults.ClaimResultEffect | modules/backtesting/application/service.ts:225-234 | a completion claim is granted if and only if a result or failure is pending, due, held by nobody and tried fewer than five times, and then exactly that record changes |
| CandidateResults.FinalizeEffect | modules/backtesting/application/service.ts:248-253 | a staged result completes its candidate exactly under a claim that holds on a result in processing |
| CandidateResults.FinalizeFailureEffect | modules/backtesting/application/service.ts:254-258 | a pending failure is concluded exactly under a claim that holds and was taken on one |
| CandidateResults.GiveUpEffect | modules/backtesting/application/service.ts:259-264 | a failed completion is processed again from the retry time on, or fails the candidate at the fifth, exactly under a claim that holds |
| CandidateResults.LoadAttemptEffect | modules/backtesting/application/service.ts:238-241 | a completion worker reads the candidate's one completed attempt if there is one |
| CandidateResults.StageEffect | modules/backtesting/application/service.ts:242-247 | an experiment with the trades read is stored unless the candidate has one, with which the worker then goes on |
| CandidateRetries.StatusTable | modules/backtesting/application/service.ts:119-274 | the table of all status changes: which step, under which fence or claim, may turn which status into which |
| CandidateRetries.FailureIsRetriedWhileAttemptsAreLeft | modules/backtesting/application/service.ts:185-205 | a failure with attempts left makes the candidate wait, without a failure kind, and every later claim with a fresh token and valid number is granted; the last failure makes it fail for exhausted retries and no run claims it again; a cancelled one stays cancelled; the attempt is aborted as retryable, infrastructure or audit |
| CandidateRetries.RecoveryReopensTheDispatch | modules/backtesting/application/service.ts:155-172 | recovery with attempts left makes the candidate claimable and its dispatch pending with the error until some step sends or cancels it; after the last attempt the dispatch stays and no run claims the candidate; all other dispatches stay |
| CandidateRetries.PastForever | modules/backtesting/application/service.ts:185-264 | once a candidate has a result or a failure, or is cancelled or removed, no run claims work on it again |
| CandidateRetries.WaitsUntilSent | modules/backtesting/application/service.ts:155-179 | a pending dispatch stays pending in every run that neither sends nor cancels it |
| SubscriptionObject.MarketDataSubscriptionManager.SetSubscriptions | modules/market-data/application/subscription-manager.ts:45-53 | a request up to its await: ignored, or a new generation with the old connection given up and the timer cancelled |
| SubscriptionManager.Delay | modules/market-data/application/subscription-manager.ts:139-141 | the delay is never negative and never above the maximum, whatever the jitter |
| SubscriptionTheorems.RetriesBounded | modules/market-data/application/subscription-manager.ts:133-144 | in every interleaving the timers armed since the last reset equal the retry count, never exceed the maximum attempts, and every delay is within bounds |
| SubscriptionTheorems.StopIsFinal | modules/market-data/application/subscription-manager.ts:64-144 | after a stop, whatever still resolves: no connection kept, no timer, no new connect call, late connections closed, and only DISCONNECTED told, at most once |
| SubscriptionTheorems.EveryConnectionAccounted | modules/market-data/application/subscription-manager.ts:45-144 | while no provider promise and no connected callback fails, every connection opened is current, dropped by the provider, or closed |
| SubscriptionTheorems.LosesTrackExactly | modules/market-data/application/subscription-manager.ts:89-131 | in any interleaving a step loses track of an open connection if and only if it is one of three: a second hand-over in the same generation, any catch, or a disconnect reported for another call of the same generation |
| SubscriptionStatus.ToldExactly | modules/market-data/application/subscription-manager.ts:45-144 | a step tells CONNECTED, RECONNECTING or DISCONNECTED, resets the count or arms a timer exactly under the listed conditions on event and state |
| SubscriptionStatus.SaysExactly | modules/market-data/application/subscription-manager.ts:45-144 | what one step tells, in order, nothing more and nothing else |
| SubscriptionEffects.ChangesExactly | modules/market-data/application/subscription-manager.ts:45-144 | what every event does to each field, each connect call, each provider link and each continuation that waits |
| SubscriptionEffects.ConnectionServesWanted | modules/market-data/application/subscription-manager.ts:45-99 | in every interleaving the current connection is live and was opened by a call that asked for exactly what is wanted now |
| SubscriptionEffects.EveryDelayExact | modules/market-data/application/subscription-manager.ts:133-144 | along every run each timer waits for the base, doubled once for each timer armed since the last reset and at most ten times, jittered and within its bounds |
| SubscriptionEffects.ConnectedUntilInterrupted | modules/market-data/application/subscription-manager.ts:79-123 | without failures, once CONNECTED is told it stays the last status told until a request, a stop, a disconnect or a failure |
| SubscriptionProgress.StallsExactly | modules/market-data/application/subscription-manager.ts:45-144 | in any interleaving a step from a state that has something under way, or nothing to want, leaves a manager that wants subscriptions and has a retry left without timer, resubscription, connect call and connection if and only if it is one of five: a rejected close, a disconnect while a timer pends, a catch that schedules nothing, a readiness after a catch, a late connected callback |
| SubscriptionProgress.NeverIdleExactly | modules/market-data/application/subscription-manager.ts:45-144 | a run keeps something under way whenever subscriptions are wanted and retries remain if and only if none of its steps is one of the five |
| SubscriptionProgress.NeverIdle | modules/market-data/application/subscription-manager.ts:45-144 | without any failure a manager that wants subscriptions and has retries left always has a timer, a resubscription or a waiting call of its generation, or a connection |
| SubscriptionRuns.IdleAfterFailureAndDisconnect | modules/market-data/application/subscription-manager.ts:102-134 | a run on which a failed connect followed by its disconnect stalls the manager and then leaves it idle, with retries to spare |
| SubscriptionRuns.IdleAfterFailedClose | modules/market-data/application/subscription-manager.ts:50-54 | a run on which a rejected close stalls the manager and leaves it idle before any retry |
| SubscriptionRuns.StallsAfterOldFailure | modules/market-data/application/subscription-manager.ts:98-107 | runs on which the late failure of a past connect call stalls the manager, at once or when its connection becomes ready |
| SubscriptionRuns.StallsAfterLateCallback | modules/market-data/application/subscription-manager.ts:110-116 | a run on which a late connected callback resets the retries with nothing under way |
| SubscriptionRuns.IdleForever | modules/market-data/application/subscription-manager.ts:45-144 | only a new subscription request takes an idle manager out of that state, whatever else happens and for however long |
| SubscriptionRuns.LeakAfterFailedCallback | modules/market-data/application/subscription-manager.ts:117-121 | a run with a failing connected callback that leaves an open connection nobody holds |
| LeaderboardObject.LeaderboardModule.Submit | modules/leaderboard/application/service.ts:109-127 | the submission over the mutable entry table returns and leaves what `Leaderboard.Submit` defines |
| LeaderboardObject.LeaderboardModule.GetActiveTopK | modules/leaderboard/application/service.ts:47 | the scan collects the active entries of the scope, ranked and cut to ten |
| LeaderboardObject.LeaderboardModule.DeactivateEntry | modules/leaderboard/application/service.ts:54-56 | exactly the entries with that identifier become inactive |
| LeaderboardRuns.OnlineIsBestOffers | modules/leaderboard/application/service.ts:109-127 | after any run of submissions, whatever is submitted again and with whatever score, the active list of every scope is the ten best offers of experiments that had no entry yet, by score and then by time |
| LeaderboardRuns.OnlineIsOfflineExactly | modules/leaderboard/application/service.ts:109-127 | along a run all lists agree with the offline rankings of the distinct eligible experiments if and only if no submission readmits an experiment: one that was submitted, has no entry, and now exceeds the lowest score of the full list |
| LeaderboardRuns.OnlineIsOffline | modules/leaderboard/application/service.ts:109-127 | while no score is raised between submissions the list of every scope is the first ten of all distinct eligible experiments, by score and then by time of submission |
| LeaderboardRuns.ResubmissionExactly | modules/leaderboard/application/service.ts:118-124 | an experiment submitted again changes the board if and only if it is eligible, has no entry, and its score exceeds the lowest one of the list, which is then full |
| LeaderboardReadmission.ReadmissionHappens | modules/leaderboard/application/service.ts:118-124 | a run on which it does: turned down, rated anew, submitted again and admitted |
| LeaderboardRuns.ResubmissionChangesNothing | modules/leaderboard/application/service.ts:118-122 | an experiment submitted again with a score no higher than before changes no scope's board, whether it was admitted, evicted or rejected |
| LeaderboardRuns.LowestNeverDecreases | modules/leaderboard/application/service.ts:120-124 | in any run, once ten entries are active there are always ten, and the lowest active score never decreases |
| LeaderboardAnswers.AnswerIsTrue | modules/leaderboard/application/service.ts:109-127 | along every run a submission fails exactly if its owner lacks the scope, is answered as admitted exactly if the experiment is eligible and now has an entry in its scope, and names that entry |
| LeaderboardAnswers.EvictionReportedExactly | modules/leaderboard/application/service.ts:120-126 | after an admission the list holds the newcomer and all others but the lowest of a full one; the answer names the lowest as evicted whenever there was one, which is true exactly if the list was full or empty |
| MissingRanges.FindMissingRanges | modules/market-data/domain/rules.ts:30-34 | the scan returns ranges in order, apart from each other, covering exactly the grid instants without a closed candle |
| MissingRanges.GapsUnique | modules/market-data/domain/rules.ts:30-34 | no other list of ranges meets that description |
| MissingRanges.GapsAreMaximal | modules/market-data/domain/rules.ts:30-34 | no returned range can be extended: its grid neighbours are stored or outside |
| MissingRanges.EmptyIffComplete | modules/market-data/domain/rules.ts:30-34 | nothing is returned if and only if the range is complete |
| SnapshotText.CanonicalRoundTrip | modules/market-data/domain/rules.ts:35 | reading a canonical number back gives the value rounded to fifteen fraction digits |
| SnapshotText.CanonicalInjective | modules/market-data/domain/rules.ts:35 | two values have the same canonical text if and only if they agree to fifteen fraction digits |
| SnapshotText.CanonicalIsText | modules/market-data/domain/rules.ts:35 | the text is that of a numeral whose fraction is absent or does not end in a zero, so no needless zero and no bare point, and zero is written 0, never with a sign |
| SnapshotInjective.SerializationInjective | modules/market-data/domain/rules.ts:36-39 | two snapshots have the same canonical text if and only if pair, timeframe, range, number of candles and every candle's time and fifteen-digit values agree |
| SnapshotReading.SerializationSays | modules/market-data/domain/rules.ts:36-39 | split at line breaks, the text has six labelled lines and one for each candle; split at bars, a candle's line says its time in microseconds, open, high, low, close and volume, in that order, each a neat numeral that reads as the value to fifteen digits |
| SnapshotReading.CandleLineExample | modules/market-data/domain/rules.ts:37 | the line of one literal candle, character by character |
| SnapshotReading.WholeNumberText | modules/market-data/domain/rules.ts:35 | a whole number is written as its digits |
| Drawdown.AmountProjection | modules/backtesting/application/service.ts:64-81 | the running totals are the sum and the counts, and the running-peak drawdown is the deepest fall from any point of the equity curve to a later one, rounded to cents |
| Drawdown.EvaluateBacktest | modules/evaluation/domain/evaluator.ts:7-33 | the compounded return, win rate, profit factor with its status, and the percentage drawdown as the deepest fall from a running peak for all returns; while no return loses more than everything that is the deepest fall between any two points |
| Drawdown.PairwiseExactly | modules/evaluation/domain/evaluator.ts:17-24 | for all returns the running drawdown is the deepest fall from a positive factor to a later one if and only if no negative factor is lower, as a ratio to an earlier positive factor, than every negative factor is to its running peak |
| Drawdown.FallBeyondEverything | modules/evaluation/domain/evaluator.ts:17-24 | returns of plus 100 and minus 150 percent, on which it is not |
| Drawdown.RoundMoneyIsNearest | modules/backtesting/application/service.ts:63 | an amount becomes a whole number of cents; none is nearer, and of two equally near the larger amount is taken |
| Drawdown.FactorsCompound | modules/evaluation/domain/evaluator.ts:7-33 | each factor differs from the one before by as many hundredths of it as the return says |
| Drawdown.CountIsNumber | modules/backtesting/application/service.ts:64-81 | wins, losses and breakevens are the numbers of trades with that result |
| SimulatorReports.EndingEquityMatches | modules/backtesting/application/service.ts:63-81 | on simulator output, in exact amounts, the reported ending equity is the last trade's equity if and only if the capital has no half cent or the account does not end below zero |
| SimulatorReports.EndingEquityDiffers | modules/backtesting/application/service.ts:63-81 | a SHORT that loses more than everything, from a capital of 0.875: reported -1.88 against -1.87 |
| SimulatorReports.SimulatedTradesPage | modules/backtesting/application/service.ts:614 | paging through a simulated backtest's trades ends and lists each once, for every page size |
| TradePages.WalkListsAll | modules/backtesting/application/service.ts:614 | with distinct keys following the cursors ends and lists every trade exactly once, each later than those before it in entry time, then sequence number, then identifier |
| TradePages.WalkExactly | modules/backtesting/application/service.ts:614 | in general the walk lists exactly the ordered trades if and only if every page boundary falls behind the first trade of its key |
| TradePages.RepeatedKeysNeverEnd | modules/backtesting/application/service.ts:614 | three trades with one key, read one at a time, never end |
| TradePages.PageAnswers | modules/backtesting/application/service.ts:614 | which page requests are refused and with which error, what a page holds at most, and that it names its own last trade as the place to go on from |

## Left out

- IEEE floating point: prices, scores, returns and sums are exact decimals or reals; `Number.isFinite` checks, negative zero and `toFixed` beyond 1e21 have no counterpart.
- `asNumber`, and the reading of amounts back from trades: a trade keeps its decimals.
- The scoring formula of experiments: a score is a number handed in.
- Drawdown.EvaluateBacktest: omits the Sharpe ratio and its status, which rest on a square root in floating point.
- SimulatorReports.EndingEquityMatches: compares exact amounts; that a capital with a half cent may have no exact double, and is then rounded differently by `toFixed(2)`, is not modelled.
- CandidateRepository.InMemoryBacktestingRepository.CreateQueuedSubmission: omits the look-up of an existing candidate by search run and iteration or by idempotency key; every submission here is a new candidate.
- CandidateRepository.InMemoryBacktestingRepository.DeleteScope: omits the refusal of a caller who does not own the scope, the scope record itself and its idempotency keys.
- CandidateRepository.InMemoryBacktestingRepository.UpdateExperimentScore: omits the refusal of a caller who does not own the experiment.
- Text order of identifiers in tie-breaks: leaderboard entry numbers and trade identifiers compare as numbers; with strictly increasing times, and with the simulator's distinct sequence numbers, ties never reach them.
- `rankSearchRun`, scope ownership lookups and caches of the leaderboard: one sort and plain reads.
- The rank numbers of leaderboard entries: a list's positions.
- Text encodings: strings of a snapshot stand for their UTF-8 bytes; blank settlement assets are recognised by ASCII white space only.
- Unparsable numbers in `expandScientificNotation`: only the numerals a finite number prints as, and their generalisations, are described.
- ISO time strings and date parsing: times are integers whose order is the order of the strings.
- SHA-256 provenance, JSON and base64url encoding of cursors: a cursor is the record it encodes.
- Pass-through fields of candidates, attempts and experiments: runtime versions, definitions, datasets, `errorMessage` (always equal to the failure code), dispatch timestamps.
- Replay verification of an experiment.
- `completeAttempt`, `createAttempt`, `updateAttempt`: the service does not call them.
- Rollback through a cancellation or completion unit of work, whose implementation is not part of this model.
- Listing of due completions and of recovery candidates: any candidate may be recovered, repaired or completed at any time, which covers every list.
- Order of the experiment table: with at most one experiment a candidate, the first match is the only one.
- The search, strategy, sentiment and news engines, Postgres, Redis, BullMQ, NestJS and the frontend.
