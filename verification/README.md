# Verified model of the MEV platform's arithmetic and state machines

A Dafny 4.11 model of the decision logic of the platform: the two AMM quotes, the bundle builder and the life of
a bundle, the execution orchestrator with its queue, admission and circuit breaker, bribe pricing and escalation,
flash-loan sourcing, and the accounting folds over receipts and competitor profits. `dafny verify dfyconfig.toml`
checks everything.

## How it is modelled

- BigInt values are `int` (or `nat` where they come from `uint256` reads); BigInt division is `Numbers.TruncDiv`,
  which truncates toward zero. Percentages and basis points are integers, probabilities and ratings are `real`.
- Objects whose methods update their fields are classes with those fields. Every method is proved equal to a
  specification function of the old state, and the theorems are about runs of those functions. Quantities that only
  the proofs need (the history of endings, tickets and timer firings) are ghost fields.
- The clock, relay answers, balances, validation outcomes and block heights are parameters: the theorems hold for
  every choice of them.
- A handler is one atomic step between two awaits. Where the code awaits between a check and the write that relies
  on it, the two halves are separate steps, so that other handlers can run in between: the door check and the capacity
  check around an opportunity's validation (`Orchestrator`), capacity check and registration (`Admission`),
  resubmission (`BundleLifecycle`), and the wait inside `stop` (`CircuitBreaker`).
- The orchestrator object carries the logs of its breaker and admission steps. A log is by its type a legal run, so
  every method keeps what is proved about all runs.
- JavaScript's sort is stable; `StableSorting` gives it a meaning (sorted, equal keys in their original order) that
  has exactly one solution. One comparator in the source never answers "equal"; the choice made from that list is
  proved for every cost-sorted arrangement.

## What does not hold, and when it does

The code is modelled as written. These promises of its names and comments fail on some inputs; each comes with a
concrete example and a condition.

- Splitting a swap can pay more, because the fee is floored per swap; it never does, on any pool, exactly when the
  parts pay the fee of the whole (`VolatileSwap.SplitNoBetterIff`).
- The stable quote scales the invariant down twice, so it pays for an input of zero and lets the curve fall that the
  comment at src/calculators/real-stable-pool-calculator.ts:371 asks it to keep. Up to an output side of 1224 times the
  input side every input is paid and the curve falls (`StableCurve.EveryInputIsPaid`); from 1225 times on a zero input
  is paid nothing (`StableCurve.ZeroInputIsFree`); for any reserves and inputs both are decided by one comparison of the
  solver's first residual (`StableCurve.QuotePaysIff`, `StableCurve.CurveFallsIff`). What is left behind is two
  millionths of the output side in a balanced pool and grows to almost all of it at a ratio of a thousand
  (`StableCurve.StableQuoteOverpays`).
- The solver's result reaches its own target exactly when the first residual is not negative.
- Bundle optimisation reverses the order of the requests, and its nonces start at the signer's nonce exactly when the
  first request is present.
- A bundle can end and become active again, through a resubmission that settles late. Over all runs this is excluded
  exactly when a bundle is neither checked nor aged out nor resubmitted again while a resubmission of it awaits the
  relays, which whole handlers guarantee (`BundleLifecycle.PromiseUnderIff`,
  `BundleLifecycle.AtomicHandlersKeepPromise`).
- An accepted resubmission moves its target at least four blocks on over all runs exactly when no bundle has two
  resubmissions in flight; otherwise it can turn the target back by any number of blocks
  (`BundleLifecycle.AdvancesUnderIff`, `BundleLifecycle.OverlapTurnsTargetBack`).
- The orchestrator can be left with an open breaker and no recovery timer, exactly when the end of a stop overtakes a
  restart; and a recovery can come early exactly when an older timer is still pending.
- With transition validation on, which is the default, an execution that succeeded is counted as a failure unless the
  engine itself moved the state machine through PENDING and CONFIRMING.
- With validation off, a queued call that times out can be counted twice, exactly when its ticket is still dispatched
  and both counts fall within its deadline.
- With validation on, a timeout of a queued call counts nothing and does not withdraw its ticket; and a call can be
  counted nowhere at all, in exactly the cases of `OpportunityFlow.UncountedIff`.
- An opportunity that was let in is still started when the breaker opens while it is validated.
- Escalation raises a bribe, or keeps it, exactly when the escalation factor is at least one or nothing can be bid
  (`BribeEscalation.NeverLowersIff`).
- A cancelled opportunity stays cancelled exactly when the escalation factor is at least one or one of three settings
  rules the revival out.
- The loan splitter's fee order is the order of the rates, and the cheapest one; but together with the capacity filter
  it never splits, and the one split it yields reports its source's quoted fee only when that is zero or the loan takes
  the source's whole capacity (`LoanSourcing.SplitSourcesCheapestIff`).
- A provider whose balance is zero or cannot be read is offered all the same, up to 70,000 units of 10^18
  (`LoanCompleteness.UnseenProviderIsOffered`).
- The delta read from swap logs is what was paid out to us; it is the net change exactly when payouts and what we paid
  in add up to what we received. On receipts whose swaps come with their transfers it is the inflow of the token, which
  is the net change exactly when we did not also pay it (`SettledSwaps.SettledDelta`).

## Model

| member | source | states |
|---|---|---|
| VolatileSwap.QuoteVolatileMeaning | src/calculators/real-stable-pool-calculator.ts:428-448 | for a fee of at most 100% the quote throws exactly on an input side that stays empty, and otherwise is the floored constant-product output of the after-fee amount |
| VolatileSwap.OutIsLargest | src/calculators/real-stable-pool-calculator.ts:443-447 | the quoted output is the largest one for which the reserve product does not fall |
| VolatileSwap.QuoteIsLargest | src/calculators/real-stable-pool-calculator.ts:428-448 | the whole quote without a division: with the fee in basis points rounded down, it is the largest output for which the reserve product does not fall |
| VolatileSwap.NoSplitGain | src/calculators/real-stable-pool-calculator.ts:428-448 | any list of same-direction swaps of after-fee amounts pays at most what one swap of their sum pays |
| VolatileSwap.SplitLoss | src/calculators/real-stable-pool-calculator.ts:428-448 | splitting loses less than one unit per swap against the exact curve |
| VolatileSwap.PartsPayNoMoreFee | src/calculators/real-stable-pool-calculator.ts:435-436 | flooring the fee per part never charges more than flooring it once |
| VolatileSwap.SplitNoBetterIff | src/calculators/real-stable-pool-calculator.ts:428-448 | splitting a gross amount is no better on any pool if and only if the parts pay the fee of the whole |
| VolatileSwap.SplitGainExample | src/calculators/real-stable-pool-calculator.ts:428-448 | a concrete pool and split that pays 66 instead of 50 |
| VolatileSwap.RunKeepsProduct | src/calculators/real-stable-pool-calculator.ts:428-448 | over any run of swaps in either direction reserves stay positive, their product never falls, and a trader gains at most what the reserves lose |
| VolatileSwap.OneWayRun | src/calculators/real-stable-pool-calculator.ts:428-448 | a run in one direction is a split of its total: its gains and final reserves are those of the split |
| VolatileSwap.MirroredRun | src/calculators/real-stable-pool-calculator.ts:439-442 | exchanging the two tokens of the pool and the direction of every swap exchanges the gains |
| VolatileSwap.RunTradesOff | src/calculators/real-stable-pool-calculator.ts:428-448 | no run lowers one reserve without raising the other |
| VolatileSwap.NoFreeRun | src/calculators/real-stable-pool-calculator.ts:428-448 | no run leaves a trader ahead in one token and not behind in the other |
| VolatileSwap.RoundTrip | src/calculators/real-stable-pool-calculator.ts:428-448 | swapping forward and all proceeds back returns at most the input, at any fee |
| StableCurve.InvariantMeaning | src/calculators/real-stable-pool-calculator.ts:390-400 | symmetric in the reserves, and below the exact polynomial of the scaled reserves by less than 2*10^6 |
| StableCurve.InvariantMono | src/calculators/real-stable-pool-calculator.ts:390-400 | non-negative and monotone in both reserves |
| StableCurve.Tangent | src/calculators/real-stable-pool-calculator.ts:415-420 | convexity: stepping down by d lowers the curve by at most d times its slope |
| StableCurve.SolverSound | src/calculators/real-stable-pool-calculator.ts:405-423 | the step stays between zero and the first guess, one unit more always reaches the target, and the result itself reaches it if and only if the first residual is not negative |
| StableCurve.SolverAgainstRoot | src/calculators/real-stable-pool-calculator.ts:405-423 | at most one below the least integer root, and below it exactly when the first residual is negative |
| StableCurve.QuoteStableInRange | src/calculators/real-stable-pool-calculator.ts:356-385 | the composed quote throws exactly when the input side is below 10^6 after the swap, and otherwise lies between zero and the output reserve |
| StableCurve.StableQuoteOverpays | src/calculators/real-stable-pool-calculator.ts:379-384 | for every input a quote leaves behind at most ys * (1 + (ys/xs)^2) / 10^6 of the scaled output side ys, xs being the scaled input side |
| StableCurve.BalancedPoolDrained | src/calculators/real-stable-pool-calculator.ts:356-385 | with the output side no larger than the input side, any input is quoted all but two millionths of it |
| StableCurve.StepBelowIff | src/calculators/real-stable-pool-calculator.ts:412-420 | the step ends below t if and only if the first guess does, or the first residual is at least (guess - t + 1) slopes |
| StableCurve.QuotePaysIff | src/calculators/real-stable-pool-calculator.ts:356-385 | a quote pays anything, and pays a whole unit of scale, if and only if the solver's step ends below the scaled output reserve rounded up, and rounded down |
| StableCurve.QuoteStableIff | src/calculators/real-stable-pool-calculator.ts:356-385 | the whole quote: for the input left after the floored fee, all but t units of scale are paid if and only if the solver steps to at most t |
| StableCurve.CurveFallsIff | src/calculators/real-stable-pool-calculator.ts:371-384 | the curve x^3*y + y^3*x of the scaled reserves falls over a quote if and only if the solver's step ends below the least reserve that keeps it |
| StableCurve.ZeroInputFallsIff | src/calculators/real-stable-pool-calculator.ts:371-384 | an input of zero lets the curve fall if and only if it is paid a whole unit of scale |
| StableCurve.EveryInputIsPaid | src/calculators/real-stable-pool-calculator.ts:356-385 | up to a ratio of 1224 every input, also zero, is paid at least one unit of scale and lets the curve fall |
| StableCurve.ZeroInputIsFree | src/calculators/real-stable-pool-calculator.ts:356-385 | from a ratio of 1225 on a zero input is paid nothing |
| StableCurve.ZeroInputDrainsPool | src/calculators/real-stable-pool-calculator.ts:356-385 | a concrete balanced pool whose whole output reserve is quoted for an input of zero |
| StableSorting.SortIsStableSort | src/execution/execution-orchestrator.ts:37-53 | inserting before the first smaller key keeps a sequence sorted and equal keys in arrival order |
| StableSorting.StableSortUnique | src/execution/execution-orchestrator.ts:37-53 | sorted and stable determine the result |
| PriorityQueues.PriorityQueue.Enqueue | src/execution/execution-orchestrator.ts:37-53 | the in-place insertion loop yields stable insertion by priority |
| PriorityQueues.PriorityQueue.Dequeue | src/execution/execution-orchestrator.ts:55-58 | hands out and removes the head, or nothing when empty |
| PriorityQueues.QueueRefinesArrivalList | src/execution/execution-orchestrator.ts:34-75 | for any interleaving the array hands out what an unsorted arrival list, served earliest of the highest priority, hands out, and holds the stable sort of what waits |
| PriorityQueues.QueueConserves | src/execution/execution-orchestrator.ts:34-75 | what was enqueued is exactly what was handed out plus what is held, with multiplicities |
| PriorityQueues.DrainIsStableSort | src/execution/execution-orchestrator.ts:34-75 | filling and draining yields the stable sort of what was inserted |
| CircuitBreaker.BreakerExact | src/execution/execution-orchestrator.ts:676-683 | over any run with a threshold of at least one, an enabled breaker is active exactly at or above the threshold, and a disabled one never |
| CircuitBreaker.BreakerExactIff | src/execution/execution-orchestrator.ts:676-683 | that law holds over all runs if and only if the threshold is at least one |
| CircuitBreaker.FailuresSinceReset | src/execution/execution-orchestrator.ts:296-299 | the counter is the number of failures since the last success, recovery or start |
| CircuitBreaker.StepStrandsIff | src/execution/execution-orchestrator.ts:343-346 | one step takes the last recovery timer of a running, active breaker exactly when it is the late end of a stop |
| CircuitBreaker.RecoveryPendingIff | src/execution/execution-orchestrator.ts:723-741 | over any run, while running an active breaker always has a timer pending if and only if no such end of a stop occurs |
| CircuitBreaker.AwaitedStopsNeverStrand | src/execution/execution-orchestrator.ts:290-353 | awaiting every stop before the next start is enough for that |
| CircuitBreaker.OverlappingStopStrands | src/execution/execution-orchestrator.ts:310-353 | a concrete run that ends running, active and without any timer |
| CircuitBreaker.OpenForRecoveryTimeIff | src/execution/execution-orchestrator.ts:731-740 | a breaker that opens stays open for the recovery time if and only if no older timer is due before |
| CircuitBreaker.StaleTimerExample | src/execution/execution-orchestrator.ts:731-740 | a concrete run in which an older timer closes the breaker early |
| Admission.RunConserves | src/execution/execution-orchestrator.ts:427-446 | entered tickets are the waiting ones plus the ones that left, each once, and the queue stays in priority order |
| Admission.EnteredTicketLeavesOnce | src/execution/execution-orchestrator.ts:761-781 | a ticket that entered the queue is still in it or has left it exactly once (dispatched, expired or cleared) |
| Admission.TakesHighest | src/execution/execution-orchestrator.ts:756-761 | the ticket taken has the highest weight of all that wait |
| AdmissionHistory.ExitDecidesStart | src/execution/execution-orchestrator.ts:761-775 | over any run a ticket that left the queue as dispatched was started exactly once, and one that left as expired or cleared never, and is neither starting nor running |
| AdmissionHistory.PlacesFollowSteps | src/execution/execution-orchestrator.ts:492-535 | over any run a ticket starts at most once; it is starting, running, or has entered the queue exactly as the steps taken with it say |
| AdmissionHistory.WeightsKept | src/execution/execution-orchestrator.ts:434-441 | over any run what waits carries the weight it was admitted with |
| Admission.CommittedWithin | src/execution/execution-orchestrator.ts:199-212 | with at most w admissions between check and registration, executions and queue exceed their limits by at most w - 1 |
| AdmissionBursts.OverlapExcessReached | src/execution/execution-orchestrator.ts:492-515 | for every limit and every width w a run reaches w - 1 executions above the limit |
| Admission.LimitsHoldIff | src/execution/execution-orchestrator.ts:199-212 | the limits hold for every configuration and run if and only if admissions do not overlap |
| Admission.RaceExceedsLimit | src/execution/execution-orchestrator.ts:492-515 | a concrete run with two executions under a limit of one |
| OpportunityFlow.CountedAtMostOnce | src/execution/execution-orchestrator.ts:486-553 | a call that gets its slot at once never reaches the counters twice, though the failure handler may be entered three times |
| OpportunityFlow.UncountedIff | src/execution/execution-orchestrator.ts:164-226 | a call that gets its slot at once is counted nowhere if and only if it is past its deadline, or validation is on and it is turned away at the door, gets no resources, or its engine has reached a final phase |
| OpportunityFlow.RefusalCounts | src/execution/execution-orchestrator.ts:164-226 | what each kind of refusal counts: one failure for an invalid call or a full queue, and for the door or missing resources only with validation off |
| OpportunityFlow.ExecutionCounts | src/execution/execution-orchestrator.ts:479-546 | what an execution counts: without validation its outcome, after its deadline nothing |
| OpportunityFlow.ValidatedCountsOnce | src/execution/execution-orchestrator.ts:622-683 | with validation on, no order of handlers, timeouts and engine requests counts one opportunity twice |
| OpportunityFlow.QueuedCountedOnceIff | src/execution/execution-orchestrator.ts:449-480 | a queued call is counted at most once if and only if validation is on or no timeout overtakes the execution of its ticket |
| OpportunityFlow.QueuedAsDirect | src/execution/execution-orchestrator.ts:427-480 | without a timeout a queued call counts what it would have counted at once |
| OpportunityFlow.WaitingTimeoutIsLost | src/execution/execution-orchestrator.ts:450-480 | with validation on a timeout while the call waits changes nothing: its ticket still runs |
| OpportunityFlow.NeverDispatched | src/execution/execution-orchestrator.ts:450-480 | a ticket that is never dispatched counts its timeout, only with validation off and within the deadline |
| OpportunityFlow.WayToConfirming | src/types/execution-state.ts:101-140 | the only way from EXECUTING to CONFIRMING is through PENDING |
| OpportunityFlow.SuccessCountedIff | src/execution/execution-orchestrator.ts:622-632 | with validation on, a successful execution counts as a success if and only if the engine moved the machine to PENDING and CONFIRMING |
| OpportunityFlow.SuccessCountedAsFailure | src/execution/execution-orchestrator.ts:530-551 | with validation on and engines that leave the machine alone, every timely execution counts as one failure |
| OpportunityFlow.RefusalsFeedBreaker | src/execution/execution-orchestrator.ts:179-190 | calls refused at the door leave the breaker alone when validation is on; when it is off each counts as a failure and arms one more timer of an open breaker |
| OpportunityFlow.SuccessesOpenBreaker | src/execution/execution-orchestrator.ts:663-683 | as many successful executions as the threshold allows open the breaker |
| Orchestrator.ExecutionOrchestrator.Start | src/execution/execution-orchestrator.ts:290-305 | one start step of the logged breaker run, with pause lifted from standstill; the breaker is active exactly at its threshold after it |
| Orchestrator.ExecutionOrchestrator.StopRequest | src/execution/execution-orchestrator.ts:310-317 | one step of the breaker run: the first half of a stop |
| Orchestrator.ExecutionOrchestrator.StopFinish | src/execution/execution-orchestrator.ts:339-346 | one step of both runs: every waiting ticket is cleared and the known timer removed |
| Orchestrator.ExecutionOrchestrator.HandleExecutionSuccess | src/execution/execution-orchestrator.ts:640-646 | one success step of the breaker run, after which the breaker is active exactly at its threshold |
| Orchestrator.ExecutionOrchestrator.HandleExecutionFailure | src/execution/execution-orchestrator.ts:676-683 | one failure step of the breaker run, after which the breaker is active exactly at its threshold |
| Orchestrator.ExecutionOrchestrator.RecoveryTimerFired | src/execution/execution-orchestrator.ts:731-740 | one timer step of the breaker run, after which the breaker is active exactly at its threshold |
| Orchestrator.ExecutionOrchestrator.CheckDoor | src/execution/execution-orchestrator.ts:179-190 | lets an opportunity into validation exactly when running, not paused and not tripped |
| Orchestrator.ExecutionOrchestrator.CheckCapacity | src/execution/execution-orchestrator.ts:196-212 | one step of the admission run, decided by free slots and queue places alone: refused exactly when neither is free |
| Orchestrator.StartsPastOpenBreaker | src/execution/execution-orchestrator.ts:187-209 | an opportunity past the door is started although the breaker opens while it is validated |
| Orchestrator.ExecutionOrchestrator.LimitsAndTickets | src/execution/execution-orchestrator.ts:199-212 | after any sequence of calls executions and queue keep their limits but for the widest overlap so far, and every queued ticket waits or has left once |
| Orchestrator.ExecutionOrchestrator.QueueForExecution | src/execution/execution-orchestrator.ts:434-441 | one step of the admission run: the ticket enters the queue at its weight |
| Orchestrator.ExecutionOrchestrator.RegisterExecution | src/execution/execution-orchestrator.ts:514-515 | one step of the admission run: the ticket takes its slot |
| Orchestrator.ExecutionOrchestrator.FinishExecution | src/execution/execution-orchestrator.ts:523-535 | the slot is freed in the admission run and the accepted handler's step is taken in the breaker run, if any |
| Orchestrator.ExecutionOrchestrator.ProcessQueue | src/execution/execution-orchestrator.ts:751-782 | when open, with a free slot and a non-empty queue, the head leaves the queue and starts, unless it has expired; otherwise nothing changes; one tick of the admission run |
| BundleBuilding.ConvertToBundleTransactions | src/execution/bundle-submitter.ts:241-264 | the push loop yields one transaction per present request, numbered by position |
| BundleBuilding.Converted | src/execution/bundle-submitter.ts:247-261 | calls and gas of the present requests in order, priorities strictly rising, nonce the signer's plus the position |
| BundleBuilding.GasLimitBounds | src/execution/bundle-submitter.ts:310-324 | an optimised gas limit is at least the original and at most a tenth more |
| BundleBuilding.OptimizedLimits | src/execution/bundle-submitter.ts:290-324 | each optimised gas limit is the largest one that adds at most a tenth and, unless it is the original, stays within one and a half times the floored average of the requested limits |
| BundleBuilding.OptimizedBundle | src/execution/bundle-submitter.ts:269-305 | for any transactions: the stable sort by falling priority, consecutive nonces from the smallest, and a gas sum between S and S + S/10 |
| BundleBuilding.OptimizationReversesRequests | src/execution/bundle-submitter.ts:241-286 | composed with conversion, the requests come out reversed, and the nonces start at the signer's if and only if the first request is present |
| BundleBuilding.SubmittedBundle | src/execution/bundle-submitter.ts:121-126 | size errors exactly above the size limit; accepted bundles respect the gas limit; acceptance is certain when a tenth more gas fits and impossible when the requested gas does not |
| BundleBuilding.SubmittedOrder | src/execution/bundle-submitter.ts:192-235 | an accepted bundle holds the requests in order as asked for without optimisation, and reversed with consecutive nonces with it; a refusal names gas above the limit |
| BundleBuilding.MaxFeeIsMax | src/execution/bundle-submitter.ts:954-956 | the bundle fee bounds every transaction's fee and is reached unless it is zero |
| BundleLifecycle.BundleSubmitter.CheckBundleInclusion | src/execution/bundle-submitter.ts:721-744 | visits every active bundle once; the new state is the fold of the single-bundle step |
| BundleLifecycle.BundleSubmitter.HandleBundleMiss | src/execution/bundle-submitter.ts:820-852 | queues the next attempt, or ends the bundle as failed |
| BundleLifecycle.BundleSubmitter.HandleResubmissions | src/execution/bundle-submitter.ts:857-925 | visits every queued bundle once; accepted ones move to the next block, exhausted ones fail |
| BundleLifecycle.BundleSubmitter.CleanupOldBundles | src/execution/bundle-submitter.ts:930-940 | exactly the bundles past their age are dropped |
| BundleHandlers.BlockDecides | src/execution/bundle-submitter.ts:721-852 | in whatever order bundles are visited, one leaves exactly when found at its target or later, or missed by more than two blocks with no attempt left; a miss with an attempt left queues it; nothing else changes |
| BundleHandlers.ResubmissionDecides | src/execution/bundle-submitter.ts:857-925 | in whatever order, an accepted bundle aims at the next block, keeps its age and leaves the queue; a refused one counts the attempt and fails when that was the last |
| BundleHandlers.CleanupDecides | src/execution/bundle-submitter.ts:930-940 | in whatever order, exactly the bundles older than the timeout leave, silently, and their queue entries stay |
| BundleHandlers.MissedOut | src/execution/bundle-submitter.ts:828-852 | a bundle that is only ever missed fails in exactly the first miss after maxResubmissions |
| BundleHandlers.RefusedOut | src/execution/bundle-submitter.ts:885-903 | a queued bundle that every relay keeps refusing fails as soon as its count reaches the maximum |
| BundleLifecycle.AttemptsInRange | src/execution/bundle-submitter.ts:828-835 | in every reachable state a queued attempt lies between one and the maximum |
| BundleLifecycle.StepKeepsPromiseIff | src/execution/bundle-submitter.ts:877-903 | one step keeps "ends once, then inactive" if and only if it is not a late settlement |
| BundleLifecycle.RunKeepsPromiseIff | src/execution/bundle-submitter.ts:719-925 | over every interleaved run each bundle ends at most once and is never active again, if and only if no resubmission settles late |
| BundleLifecycle.PromiseUnderIff | src/execution/bundle-submitter.ts:857-903 | over all runs of a discipline each bundle ends at most once and stays inactive if and only if bundles with a resubmission in flight are not checked, aged out or resubmitted again, or nothing is ever resubmitted |
| BundleLifecycle.ResubmitOneIsRun | src/execution/bundle-submitter.ts:857-903 | a resubmission without interleaving is the handler's step |
| BundleLifecycle.CheckAllIsRun | src/execution/bundle-submitter.ts:726-737 | the block handler is a legal run of single-bundle steps that disturbs nothing in flight |
| BundleLifecycle.ResubmitAllIsRun | src/execution/bundle-submitter.ts:857-925 | so is the resubmission handler, as begin and finish of each queued bundle |
| BundleLifecycle.ExpireAllIsRun | src/execution/bundle-submitter.ts:930-940 | and so is the clean-up |
| BundleLifecycle.AtomicHandlersKeepPromise | src/execution/bundle-submitter.ts:719-940 | over every run of whole handlers each bundle ends at most once and is never active after, each accepted resubmission moves its target at least four blocks on, and attempts stay in range |
| BundleLifecycle.AdvancesUnderIff | src/execution/bundle-submitter.ts:864-884 | over all runs of a discipline every accepted resubmission moves the target at least four blocks on if and only if no bundle has two resubmissions in flight, or nothing is ever resubmitted |
| BundleLifecycle.CheckedRevives | src/execution/bundle-submitter.ts:877-884 | for every configuration that resubmits, a run that checks each block once and ends with an included bundle active again |
| BundleLifecycle.OverlapTurnsTargetBack | src/execution/bundle-submitter.ts:857-903 | with two resubmissions in flight the target can move back by any number of blocks |
| BribeEscalation.DynamicBribeOptimizer.CalculateOptimalBribe | src/execution/dynamic-bribe-optimizer.ts:143-172 | tracks the calculation at level zero, and arms its timer exactly when it is live and less likely than the target |
| BribeEscalation.DynamicBribeOptimizer.EscalateBribe | src/execution/dynamic-bribe-optimizer.ts:202-284 | one more level for a known opportunity, nothing for an unknown one; past the limit the bribe stays and it is cancelled; the next timer is set exactly when it is live and below its last step |
| BribeEscalation.DynamicBribeOptimizer.TimerFired | src/execution/dynamic-bribe-optimizer.ts:582-595 | a timer firing disarms itself and escalates |
| BribeEscalation.DynamicBribeOptimizer.RecordBribeEffectiveness | src/execution/dynamic-bribe-optimizer.ts:318-326 | drops the opportunity and its timer |
| BribeEscalation.TimerChainBounded | src/execution/dynamic-bribe-optimizer.ts:271-274 | over any run the timers of one calculation fire at most max(1, maxEscalationSteps) times |
| BribeEscalation.RunEscalates | src/execution/dynamic-bribe-optimizer.ts:229-242 | over any run an escalation within the limit bids the bribe times the factor, rounded down, or the maximum profitable bribe if that is less; past the limit the bribe stays |
| BribeEscalation.NeverLowersIff | src/execution/dynamic-bribe-optimizer.ts:229-242 | no escalation within the limit lowers a bribe that is not above its maximum if and only if the factor is at least one, no step is allowed, or the margin is 100% |
| BribeEscalation.BribeNeverFalls | src/execution/dynamic-bribe-optimizer.ts:202-284 | over any run with such a configuration the bribe of an opportunity never falls until it is calculated anew or recorded |
| BribeEscalation.CancelledIff | src/execution/dynamic-bribe-optimizer.ts:545-577 | in every reachable state an opportunity is cancelled if and only if it is past its steps, or auto-cancellation is on and the profit left is no more than the margin, or its probability is below 0.3 and its bribe above a quarter of the profit |
| BribeEscalation.LiveWaits | src/execution/dynamic-bribe-optimizer.ts:270-274 | in every reachable state a live opportunity below its last step has a timer pending, unless it was calculated likely enough to need none |
| BribeEscalation.EscalationLeavesMarginIff | src/execution/dynamic-bribe-optimizer.ts:236-242 | an escalation within the limit leaves the floored margin if and only if the profit is not negative or the margin is 100% |
| BribeEscalation.LiveBribeBelowMaximum | src/execution/dynamic-bribe-optimizer.ts:556-577 | with auto-cancellation a live opportunity bids strictly below its maximum profitable bribe |
| BribeEscalation.CancelledStays | src/execution/dynamic-bribe-optimizer.ts:210-260 | over any run a cancellation survives until the opportunity is calculated anew or recorded |
| BribeEscalation.CancellationSticksIff | src/execution/dynamic-bribe-optimizer.ts:231-249 | no escalation undoes a cancellation if and only if the factor is at least one, or auto-cancellation is off, or no step is allowed, or the margin is 100% |
| BribePricing.BribeOptimizer.CalculateOptimalBribe | src/bundler/bribe-optimizer.ts:100-161 | the stage-by-stage computation is the floored chain of the five percentages, clamped |
| BribePricing.BribeOptimizer.AddHistoricalData | src/bundler/bribe-optimizer.ts:378-384 | appends and trims |
| BribePricing.HistoryIsRecentSuffix | src/bundler/bribe-optimizer.ts:378-384 | over any run the history is exactly the last thousand points |
| BribePricing.StagedError | src/bundler/bribe-optimizer.ts:109-132 | for any number of stages the floored chain is never above the exact product and below it by at most the slack |
| BribePricing.FiveStagesWithin24 | src/bundler/bribe-optimizer.ts:104-133 | the unclamped bribe is at most the exact product and less than 24 wei below it |
| BribePricing.HistoryFollowsRate | src/bundler/bribe-optimizer.ts:208-244 | the learning stage is 1.3, 1.1 or 0.9 exactly by the share of included points among those less than a day old and of the same congestion, counted as index sets, and neutral below ten points or without such a point |
| BribePricing.StagesArePercents | src/bundler/bribe-optimizer.ts:174-266 | the five percentages are the documented multipliers, rounded down to whole percents |
| BribePricing.BribeBelowFactors | src/bundler/bribe-optimizer.ts:104-133 | the unclamped bribe never exceeds the base price times the five multipliers |
| BribePricing.BribeMonotoneAndBounded | src/bundler/bribe-optimizer.ts:135-148 | a higher gas price never lowers the bribe; it never exceeds the maximum, respects the minimum if and only if the bounds are consistent, and only a bound that is violated moves it |
| LoanIndex.FlashLoanOptimizer.constructor | src/contracts/flash-loan-optimizer.ts:46-84 | the two default sources are indexed by token and share one pool, so only the first can ever be rated |
| LoanIndex.FlashLoanOptimizer.AddCustomSource | src/contracts/flash-loan-optimizer.ts:292-305 | index and cache agree with the extended list, and only that token's cache entry is dropped |
| LoanIndex.FlashLoanOptimizer.GetAvailableSources | src/contracts/flash-loan-optimizer.ts:198-223 | at any time and in any cache state the answer is the order-preserving filter of the current list |
| LoanIndex.FlashLoanOptimizer.UpdateSourceReliability | src/contracts/flash-loan-optimizer.ts:310-333 | exactly the first source of the pool changes, through the shared object, and index and cache stay in agreement |
| LoanIndex.FlashLoanOptimizer.FindOptimalFlashLoan | src/contracts/flash-loan-optimizer.ts:102-166 | a quote for every sufficient source, as often as it is listed, cheapest first, each priced as the floored fee at its rate plus its gas; the best costs no more than any sufficient source would, savings are the full spread, and errors come exactly when there is no source or none suffices |
| LoanIndex.BestIsOptimal | src/contracts/flash-loan-optimizer.ts:141-147 | every cost-sorted arrangement of the quotes gives that result, with costs given by inequalities and not by the quoting function |
| LoanIndex.QuotePrices | src/contracts/flash-loan-optimizer.ts:228-266 | a quote names its source, amount and gas, its fee is the amount at the rate in basis points rounded toward zero, its total adds the gas at the given price, and no other total fits |
| LoanIndex.QuotedOnce | src/contracts/flash-loan-optimizer.ts:123-136 | every sufficient source is quoted as often as it is listed |
| LoanIndex.IndexPush | src/contracts/flash-loan-optimizer.ts:273-281 | pushing to the token's list keeps the index equal to the filter for every key |
| LoanIndex.OfTokenConcat | src/contracts/flash-loan-optimizer.ts:198-223 | the filter by token goes source by source, in order |
| LoanIndex.RatingMoves | src/contracts/flash-loan-optimizer.ts:317-321 | a success raises a rating by 1% up to 0.99 and a failure lowers it by 5% down to 0.5 |
| LoanSourcing.FlashLoanManager.GetProviderCapacity | src/execution/flash-loan-manager.ts:455-535 | a fresh cached capacity, or a new observation that is stored |
| LoanSourcing.FlashLoanManager.GetAvailableSources | src/execution/flash-loan-manager.ts:207-265 | the provider loop and both caches compute the query step, whose answers LoanCompleteness.AnswersAreComplete and LoanSourcing.AnswersAreFresh characterise over runs |
| LoanSourcing.FlashLoanManager.RefreshCapacityCache | src/execution/flash-loan-manager.ts:825-848 | exactly the capacities older than two refresh intervals and the lists older than 60 s are dropped, the others kept as they were |
| LoanSourcing.FlashLoanManager.CalculateOptimalSplits | src/execution/flash-loan-manager.ts:786-820 | the loop computes the greedy split of the fee-sorted sources |
| LoanSourcing.FlashLoanManager.GetSplitSources | src/execution/flash-loan-manager.ts:295-298 | the greedy split of the answered sources |
| LoanSourcing.AnswersAreFresh | src/execution/flash-loan-manager.ts:207-265 | over any run every answer is sorted by fee, sufficient, and rests on observations at most refreshMs - 1 + 29999 ms old |
| LoanSourcing.StalenessBoundReached | src/execution/flash-loan-manager.ts:211-213 | that bound is reached for every refresh interval |
| LoanSourcing.RefreshIsInvisible | src/execution/flash-loan-manager.ts:825-848 | removing every refresh from a run changes no answer |
| LoanSourcing.GreedyConserves | src/execution/flash-loan-manager.ts:796-817 | split i draws on source i within its amount and fee, all but the last take the whole source, and the sum is the lesser of total and slot capacity |
| LoanSourcing.SplitsConserve | src/execution/flash-loan-manager.ts:786-820 | the same for any list, on its stable sort by fee, with the slot limit |
| LoanSourcing.SplitsChargeShares | src/execution/flash-loan-manager.ts:801-814 | every split reports the part of its source's fee that belongs to the part of the source it takes, rounded down, and its source's gas |
| LoanSourcing.FilteredSourcesNeverSplit | src/execution/flash-loan-manager.ts:295-298 | composed with the capacity filter a positive amount yields one whole split if and only if a source and a slot exist, and the split branch of the caller is unreachable |
| LoanSourcing.AnswersAreQuoted | src/execution/flash-loan-manager.ts:233-243 | over any run every answer, cached or not, carries the fees of the amount it was asked for at the configured rates |
| LoanSourcing.FeesFollowRates | src/execution/flash-loan-manager.ts:239 | a lower quote for one amount means a lower rate |
| LoanSourcing.GreedyCheapestIff | src/execution/flash-loan-manager.ts:793-817 | splitting in list order is cheapest at the quoted prices, for every total and slot limit, if and only if the fees ascend |
| LoanSourcing.SplitsAreCheapest | src/execution/flash-loan-manager.ts:786-820 | on a list quoted for its total the splits cost, at the configured rates, less than one unit more than any allocation of the same amount over any number of the sources |
| LoanSourcing.OneSplitFeeIff | src/execution/flash-loan-manager.ts:804-807 | a split of a sufficient source reports the quoted fee if and only if that is zero or the whole source is taken |
| LoanSourcing.SplitSourcesCheapestIff | src/execution/flash-loan-manager.ts:295-298 | the one split handed out draws on the cheapest quote, which no allocation of the amount at the configured rates undercuts, and never reports more than it; exactly it if and only if it is zero or the whole capacity is taken |
| LoanSourcing.SplitHidesFeeExample | src/execution/flash-loan-manager.ts:804-807 | a loan quoted 900 whose split reports zero |
| LoanCompleteness.AnswersAreComplete | src/execution/flash-loan-manager.ts:207-265 | over any run every answer holds only enabled providers, each once and at its own rate, and every enabled provider all of whose observations in the answer's window reach the amount |
| LoanCompleteness.LoanQuotesLeast | src/execution/flash-loan-manager.ts:295-298 | after any run the loan handed out is one split of an enabled provider; no enabled provider that surely reaches the amount has a rate at which it costs less, and there is no loan only when no such provider exists |
| LoanCompleteness.UnseenProviderIsOffered | src/execution/flash-loan-manager.ts:514-518 | an enabled provider whose balance was zero or unreadable throughout the window is offered all the same, up to 70,000 units of 10^18 |
| Knapsack.GreedyIsOptimal | src/execution/flash-loan-manager.ts:793-817 | filling a demand in order of ascending price costs no more than any other allocation of it |
| NetFlow.FoldSwaps | src/execution/backrun-engine.ts:1107-1170 | the swap-log loop leaves, for every token, the sum that SettledSwaps.PayoutsAreInflow compares with the token's ledger |
| NetFlow.FoldReceipt | src/execution/backrun-engine.ts:1100-1193 | the two loops compute the receipt delta, or fail on an unparsable Transfer |
| NetFlow.FlowIsLedgerChange | src/execution/backrun-engine.ts:1173-1193 | the Transfer fold equals the change of our combined balance on a ledger that settles the transfers |
| NetFlow.FlowIsInMinusOut | src/execution/flash-loan-arbitrage-engine.ts:847-867 | it is inflow minus outflow; internal and self transfers cancel |
| NetFlow.ReceiptDeltaAgainstLedger | src/execution/flash-loan-arbitrage-engine.ts:779-868 | without swap payouts the delta is the ledger change; with them it is the payouts, equal to the ledger change if and only if payouts and outflow add up to the inflow |
| NetFlow.GrossNotNetExample | src/execution/flash-loan-arbitrage-engine.ts:805-868 | one receipt in which we pay 100 and get 103 back: 103 is reported, the ledger changes by 3 |
| SettledSwaps.PayoutsAreInflow | src/execution/backrun-engine.ts:1107-1170 | on a receipt whose swaps, of either kind, come with the transfers of what they pay out, in any order, and where nothing else pays us, the swap delta of every token is exactly what its transfers brought us |
| SettledSwaps.SettledDelta | src/execution/flash-loan-arbitrage-engine.ts:779-868 | on such a receipt the reported delta is the inflow, or the negated outflow when nothing came in; it is the ledger change if and only if we did not both receive and pay the token |
| CompetitorStats.CompetitiveIntelligence.UpdateCompetitorFromTransaction | src/execution/competitive-intelligence-system.ts:872-920 | the table update of one transaction |
| CompetitorStats.TrackedPerAddress | src/execution/competitive-intelligence-system.ts:882-919 | after any run an entry is determined by that address's own transactions: first and last time, count and stored average |
| CompetitorStats.AverageIsTruncated | src/execution/competitive-intelligence-system.ts:886-897 | one more profit: the new average is the quotient of the reconstructed total by the new count, truncated toward zero |
| CompetitorStats.AverageDrift | src/execution/competitive-intelligence-system.ts:886-897 | over n profits of any sign the total is missed by at most n(n-1)/2, and only from below when profits are not negative |
| CompetitorStats.AverageWithinRange | src/execution/competitive-intelligence-system.ts:886-897 | the stored average never leaves the range of the profits seen |
| CompetitorStats.DriftBoundReached | src/execution/competitive-intelligence-system.ts:886-897 | the drift bound is reached: after 0, 1, ..., n-1 the stored average is still zero |

## Left out

- RPC, relay, signing, ABI decoding, oracle and contract calls: their answers are parameters.
- Floating-point scoring, USD conversion, price impact and the optimal swap amount, which go through `Number`; the floored percentages of the bribe stages are computed in exact reals, where the code multiplies doubles.
- `submissionHistory` and its statistics, and `stop` of the bundle submitter, which forgets everything.
- The coinbase transfer of a bundle and its maximum priority fee, and the execution-time estimates of quotes.
- Failures of the duration estimate before a call is queued, which fail the call as a full queue does.
- Execution metrics other than the failure counter, event emission and logging.
- Opportunity retention and cleanup in the state machine; only the transition rule is modelled.
- The choice of the preferred provider and the execution of loans in the flash-loan manager; cache keys are pairs, where the code joins strings.
- The caller may not change a list it was handed: source lists are values in the caches, while the source objects of the optimizer are shared by reference.
- Swap logs are taken as decoded, and the tokens of a pool as known.
- Relay managers, the transaction bundler, scripts, configuration loading and the other engines are not modelled.
