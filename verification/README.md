# Verified model of the tipping platform's core protocols

A Dafny model of the hard parts of a tipping platform on Stellar: the Soroban contract's bookkeeping (a ring of
time buckets, a capped ranking, a dense index, signed balances), the backend's two step protocols (the event
indexer with chain reorganisations and the subscription-charge worker), and a few small algorithms that must be
exact. `dafny verify dfyconfig.toml` checks everything.

| File | What it models | Main result |
|---|---|---|
| `CircuitBreaker.dfy` | the withdrawal circuit breaker | no time span as long as the window, less one bucket, ever sees more accepted withdrawals than the threshold, and no longer span is safe; the ring's total lies between two exact volumes; no withdrawal call leaves a trip behind |
| `Leaderboard.dfy` | the 50-entry boards | in runs of tips the capped board is the first 50 entries of the ranking of all creators; period volumes are the sums booked since the last reset; which calls can show a deactivated creator, and exactly when |
| `Ledger.dfy`, `Fees.dfy`, `Sums.dfy` | tips, withdrawals, emergency exits, scheduled tips, refunds | the contract's token balance is exactly what it owes, locks and has kept; it can pay every creator exactly when its other holdings cover all debts; a creator's lifetime total is that of the tips not refunded; a scheduled tip leaves the lock once; a tip is refunded once |
| `Refunds.dfy` | expiring records, the swap-remove index, the cursor sweep | the index is the set of pending requests in every state; a list of refunds is paid exactly when all that is due in it can be; the sweep ends, and leaves nothing due behind it |
| `Admin.dfy` | N-of-M proposals, the fee timelock | every execution had the quorum of its own configuration; pause state, admin and version are what the executed actions made of them; every raise of the fee waited 24 ledgers |
| `Subscriptions.dfy` | recurring tips on chain | due dates without drift; every charge is on the terms agreed last; one charge per sweep; the list of active records is exact |
| `Indexer.dfy` | finality gate, checkpoints, rollback, projection | rows are the first of each event of one history, as it came, and nothing else; in no run of ticks, however long and whether heads rise or fall, does a shallow reorganisation cause a rollback; a deep one is recovered from in two ticks |
| `ChargeWorker.dfy` | concurrent runs of the charge worker | every counted failure belongs to the claim still held, in all interleavings, exactly when no two runs share a clock value |
| `Pauses.dfy` | the contract's pause flags | asking about any area answers whether any flag at all is set |
| `RateLimit.dfy` | the realtime and the contract's limiter | at most twice the budget in any window, and no refusal before the open window is full; sweeping changes no answer |
| `Printers.dfy`, `KeyCase.dfy` | integer printers, key converters | printing and parsing are inverse; the key conversion is inverse exactly on keys without upper-case letters |

## How the model is built

Objects whose methods update stored fields are classes; the stored record is one field, and a ghost `History`
(`Past`, `log`, `accepted`) holds what the proofs must remember. `Valid()` of a class is the invariant of every
reachable state: each constructor establishes it and each method keeps it, so a property inside `Valid()` holds in
every run of calls. Most steps are proved once as a lemma on plain values (`...KeepsLaws`, `...KeepsStore`), and
the method that does the step uses the lemma.

What an operation does is given by a function on values, which the method is proved to compute. What the function means
is then stated once more without it, in the stored fields and literal numbers: in the method's own `ensures`, or in a
lemma (`DueIff`, `ReadOn`, `FirstWins`, `ChargedExactly`, `SpanIsExact`, `EffectsOk`, `TotalsOk`, `SumSince`).

A contract call that returns `Err` leaves the stored state as it was, because the host undoes it. This is also true
of a tripping withdrawal: `record_withdrawal_or_trip` sets the tripped and paused flags and then returns an error,
which the host undoes together with the withdrawal. `RecordWithdrawalOrTrip` states the function's own effects;
`Withdrawal` is the call as the host runs it. `Calm()` holds in every state that completed calls reach: no trip is
stored, and the ring is what the accepted withdrawals alone have made of it.

The indexer's `Valid()` is what a rollback relies on: cursor and checkpoints follow one history. It holds after every
tick. That the rows are that history's as well is a predicate of its own, `Exact`, because a tick that ran into its page
cap loses it.

Parameters that stand for something outside the model: `gate` for checks that read no modelled state (pause flags,
signatures, rate limits, pinned configuration, block lists, message rules), `paused` for the answer of the pause check,
`breaker` for the breaker's answer to a withdrawal, `rest` for the rest of a withdrawal call as the breaker sees it,
`tip` and `refused` for the outcome of a recurring tip beyond its pause check, `now`, `env` and `ledger` for clocks,
`chain` for the chain as one tick sees it.

Where the code and its own description differ, the model follows the code:

- `set_fee` is described as updating the fee, but for a raise the second half of the call fails and undoes the first
  half (`contracts/tipz/src/admin.rs:389-393`): it succeeds exactly for a fee that is not higher (`SetFeeNow`,
  `RaiseIsNotDue`).
- The breaker is described as pausing the contract (`contracts/tipz/src/circuit_breaker.rs:3-5`), but the pause is
  undone with the withdrawal that trips it: no call changes the stored pause that way (`Withdrawal`), and `reset` finds
  no trip to lift (`Reset`).
- The pause flags are described as one for each area, but the check for all areas tests for any common bit
  (`contracts/tipz/src/storage.rs:400-404`): one flag pauses everything (`PausedIffAnyFlag`, `OnePausePausesAll`).
- `execute_subscriptions` asks for no pause flag, unlike the other subscription calls. While the contract is paused it
  succeeds and charges nothing, because each of its tips is refused (`PausedSweepDoesNothing`).
- `expire_refund` subtracts a timestamp from a ledger number (`contracts/tipz/src/refund.rs:305`): no request expires
  before the ledger number has overtaken its time in seconds (`ExpirableIff`).
- The boards are described as keeping deactivated creators out (`contracts/tipz/src/leaderboard.rs:118-121`), but the
  delivery of a scheduled tip books without that check (`contracts/tipz/src/tips.rs:817`): the creator comes back
  exactly when there is room on a board (`ComesBackIff`, `ComesBack`). No other call shows a deactivated creator.
- A reset of a period's board in the very second of the last one empties the board but not the volumes
  (`contracts/tipz/src/storage.rs:1596-1603` compares start times): the next tip brings the old sum back
  (`SameSecondReset`).
- A multisig configuration is checked against the length of its signer list, so with a repeated signer a quorum is
  accepted that no proposal can reach (`QuorumReachableIff`, `RepeatedSignerLocksOut`).
- A tip can be refunded after its creator has taken it out. Then the contract may owe another creator more than it holds
  (`RunDry`).
- A tick that hits its page cap still advances the cursor to the finality ceiling
  (`backend/src/indexer/poller.ts:100-102`), so events beyond the cap are never read again. Of new events with distinct
  keys it stores all exactly when they fit its pages (`CapLosesIff`); `OverfullTickLosesAnEvent` is a run that loses
  one, and `CapLosesIffUnstored` is the condition when keys repeat.
- Two runs of the charge worker with the same clock value can count a failure against the other's claim
  (`SharedClockBreaks`).
- At the last value of the 64-bit clock the contract's rate limiter accepts everything, because the end of the window
  saturates (`ContractBoundIff`).
- `set_paused(env, ...)` and `is_paused(env)` without a flag are read as the global pause.

## Model

| member | source | states |
|---|---|---|
| CircuitBreaker.SpanWithinThreshold | contracts/tipz/src/circuit_breaker.rs:83-131 | over a whole run with one configuration, the withdrawals accepted within any closed time span of length min(window, (buckets - 1) * bucket length) never total more than the threshold |
| CircuitBreaker.SpanIsExact | contracts/tipz/src/circuit_breaker.rs:83-141 | a span length is safe in every run of withdrawals if and only if it is at most (bucketCount - 1) * (windowSecs / bucketCount) seconds, or windowSecs when that is fewer than the buckets |
| CircuitBreaker.PromiseInSeconds | contracts/tipz/src/circuit_breaker.rs:83-141 | the promise without a division: a span with bucketCount * length <= (bucketCount - 1) * (windowSecs - bucketCount + 1), or within a window shorter than the bucket count, never sees more than the threshold |
| CircuitBreaker.SpanOfRing | contracts/tipz/src/circuit_breaker.rs:133-141 | the promised seconds are all buckets of the ring but one, as far as the window goes |
| CircuitBreaker.TightIsPossible | contracts/tipz/src/circuit_breaker.rs:83-141 | two withdrawals of the whole threshold, one second further apart than the promise reaches, both pass |
| CircuitBreaker.FirstIsForgotten | contracts/tipz/src/circuit_breaker.rs:92-111 | when the second of them comes, the first has lost its slot or the window is over, whatever the window and bucket count |
| CircuitBreaker.PossibleIsPromised | contracts/tipz/src/circuit_breaker.rs:102-129 | in every run whose withdrawals fit next to what the ring held, each trailing span is within the threshold |
| CircuitBreaker.HeldBounds | contracts/tipz/src/circuit_breaker.rs:92-111 | what an attempt finds in the ring depends on the accepted withdrawals alone: at least all volume of the promised span, at most that of the last `windowSecs` seconds |
| CircuitBreaker.RollingBounds | contracts/tipz/src/circuit_breaker.rs:102-111 | the ring's total is at most the exact volume of the last `window_secs` seconds, so it never trips early, and at least all volume whose bucket is one of the last ones and starts at or after the cutoff |
| CircuitBreaker.RollingIsCaptured | contracts/tipz/src/circuit_breaker.rs:104-111 | although slots are reused and start as zeros, the slots' sum counts each accepted withdrawal that the ring still holds, and no other |
| CircuitBreaker.CapturedBounds | contracts/tipz/src/circuit_breaker.rs:92-111 | everything recent is still in the ring, everything counted lies inside the window |
| CircuitBreaker.SpanIsRecent | contracts/tipz/src/circuit_breaker.rs:133-141 | a withdrawal no older than the promised span has not yet lost its slot, whatever the window and bucket count, including windows shorter than the bucket count |
| CircuitBreaker.Recycle | contracts/tipz/src/circuit_breaker.rs:92-100 | giving the current bucket its slot loses only volume of a bucket a whole ring older |
| CircuitBreaker.Accept | contracts/tipz/src/circuit_breaker.rs:122-129 | booking an accepted amount keeps each slot equal to the exact volume of its bucket |
| CircuitBreaker.AcceptWithinThreshold | contracts/tipz/src/circuit_breaker.rs:113-120 | an attempt that fits next to the recent volume extends the promise to the longer run |
| CircuitBreaker.Breaker.RecordWithdrawalOrTrip | contracts/tipz/src/circuit_breaker.rs:83-131 | accepts exactly when the compared total is within the threshold, trips and pauses when it is above, reports overflow; the total includes all volume of the promised span and none older than `windowSecs` seconds; logs exactly the accepted amounts |
| CircuitBreaker.Breaker.Withdrawal | contracts/tipz/src/tips.rs:536-597 | the whole call: accepted exactly when the rest of the call succeeds and the amount fits next to what the accepted withdrawals have left in the ring; it never changes the stored pause and never leaves a trip, and on an error the ring and the log are as before |
| CircuitBreaker.Replay | contracts/tipz/src/circuit_breaker.rs:13-131 | every run that the theorems speak about is the run of an actual breaker |
| CircuitBreaker.Breaker.Undo | contracts/tipz/src/circuit_breaker.rs:113-120 | undoing a failed call gives the ring, the flags and the log of before, and keeps the promise |
| CircuitBreaker.Breaker.RecycleSlot | contracts/tipz/src/circuit_breaker.rs:89-100 | moves to the bucket of the current time, which starts at most `windowSecs / bucketCount` seconds (at least one) before it, and keeps the ring exact |
| CircuitBreaker.Breaker.RollingTotal | contracts/tipz/src/circuit_breaker.rs:103-111 | the checked sum of the loop, or an overflow error exactly when the exact sum overflows |
| CircuitBreaker.Breaker.MeasureWindow | contracts/tipz/src/circuit_breaker.rs:102-111 | the total compared with the threshold lies between the recent volume and the exact volume of the window, each plus the attempt |
| CircuitBreaker.Breaker.AddVolume | contracts/tipz/src/circuit_breaker.rs:122-129 | books an accepted withdrawal; its checked addition cannot overflow |
| CircuitBreaker.Breaker.NormalizeStatus | contracts/tipz/src/circuit_breaker.rs:143-166 | both vectors get the configured length; old slots keep their values, new ones are zero |
| CircuitBreaker.Breaker.Configure | contracts/tipz/src/circuit_breaker.rs:13-51 | accepted exactly for valid settings; starts an empty ring and an empty log, with no trip stored |
| CircuitBreaker.Breaker.Reset | contracts/tipz/src/circuit_breaker.rs:53-73 | empties the ring, and lifts the pause exactly when a trip was stored, which it never is between completed calls: then the pause stays as it is |
| CircuitBreaker.Breaker.ResetStatus | contracts/tipz/src/storage.rs:904-923 | all slots become zero for the configured count |
| Leaderboard.BoardIsTopOfRanking | contracts/tipz/src/leaderboard.rs:80-121 | in every run of tips only, the all-time board is the first 50 entries of the ranking of all creators, which lists every tipped creator once with the exact total, ties ordered by who reached the amount first |
| Leaderboard.LeftOutIsBehind | contracts/tipz/src/leaderboard.rs:80-121 | a creator left out is behind all 50 kept: smaller, or equal and later |
| Leaderboard.TakeMoved | contracts/tipz/src/leaderboard.rs:80-121 | trimming to 50 before a move that raises a creator loses nothing the trimmed ranking needs later: the fast form refines the full one |
| Leaderboard.RankingFaithful | contracts/tipz/src/leaderboard.rs:80-121 | moving creators one by one gives a distinct, exact, descending ranking with ties in order of arrival |
| Leaderboard.TipIsNextStep | contracts/tipz/src/leaderboard.rs:135-160 | booking a tip on the stored boards is the next step of the run the theorem is about |
| Leaderboard.MovedSorted | contracts/tipz/src/leaderboard.rs:80-121 | moving one creator keeps a ranking distinct and descending, cut off or not |
| Leaderboard.WithoutIsOneLess | contracts/tipz/src/leaderboard.rs:280-289 | a board without one creator is the old board with that entry cut out, all others where they were |
| Leaderboard.SetAfterOk | contracts/tipz/src/leaderboard.rs:135-160 | after any change of volumes all three boards are distinct, descending, capped and show current amounts |
| Leaderboard.BookedKeepsSums | contracts/tipz/src/storage.rs:1581-1612 | booking an amount keeps it true that each creator's monthly and weekly volume is the sum of what was booked since the period began, refunds negative, while no such sum leaves an i128 |
| Leaderboard.RestartedKeepsSums | contracts/tipz/src/storage.rs:1596-1603 | a reset in a later second starts the sums of its period afresh, and leaves the other period's alone |
| Leaderboard.BookingKeepsAll | contracts/tipz/src/leaderboard.rs:135-160 | one booking keeps boards, sums and the absence of deactivated creators together |
| Leaderboard.SameSecondReset | contracts/tipz/src/storage.rs:1596-1603 | a run in which a second reset within one second does not restart a volume |
| Leaderboard.ComesBackIff | contracts/tipz/src/leaderboard.rs:135-160 | booking a creator's change shows a deactivated creator exactly when it is that creator's and an amount of theirs makes it onto a board |
| Leaderboard.ListedIffRoom | contracts/tipz/src/leaderboard.rs:80-114 | an unlisted creator enters a board exactly when it has a free slot or its last entry is smaller |
| Leaderboard.ComesBack | contracts/tipz/src/tips.rs:769-874 | a run in which a scheduled tip brings a deactivated creator back onto the boards |
| Leaderboard.Leaderboards.FindInsertionIndex | contracts/tipz/src/leaderboard.rs:52-64 | the binary search finds the position behind every entry with at least the amount |
| Leaderboard.Leaderboards.UpdateEntries | contracts/tipz/src/leaderboard.rs:80-121 | trim, drop, insert and evict in place give the specified board |
| Leaderboard.Leaderboards.AddCreatorPeriodVolumes | contracts/tipz/src/storage.rs:1581-1612 | period volumes grow by the amount from what they are in the running period, and saturate |
| Leaderboard.Leaderboards.UpdateAllForActive | contracts/tipz/src/leaderboard.rs:135-160 | the whole new state of boards and volumes; boards stay distinct, descending, at most 50 and current; they keep showing no deactivated creator exactly unless it is one with room on a board |
| Leaderboard.Leaderboards.UpdateAll | contracts/tipz/src/leaderboard.rs:118-128 | skips a deactivated creator, so none is shown after it |
| Leaderboard.Leaderboards.UpdateAllForRefund | contracts/tipz/src/leaderboard.rs:162-190 | a deactivated creator's ranking and sums are untouched; otherwise the refund is booked as a negative amount |
| Leaderboard.Leaderboards.RemoveFromBoard | contracts/tipz/src/leaderboard.rs:280-289 | keeps exactly the other creators, in order |
| Leaderboard.Leaderboards.RemoveFromAll | contracts/tipz/src/leaderboard.rs:194-201 | takes the creator's one entry out of each of the three boards and moves no other |
| Leaderboard.Leaderboards.Deactivate | contracts/tipz/src/profile.rs:294-318 | a deactivated creator is taken off all three boards, whose other entries stay in order; volumes untouched; a second call changes nothing |
| Leaderboard.Leaderboards.Reactivate | contracts/tipz/src/profile.rs:338-362 | a reactivated creator comes back with current amounts: the whole new boards and volumes; an active creator's call changes nothing |
| Leaderboard.Leaderboards.Deregister | contracts/tipz/src/profile.rs:400-436 | a removed profile leaves the boards and its deactivation is forgotten |
| Leaderboard.Leaderboards.ResetLeaderboard | contracts/tipz/src/leaderboard.rs:226-235 | empties one period's board and starts its period, and with it the sums; the all-time board is never reset |
| Fees.FeeSplitsAmount | contracts/tipz/src/fees.rs:32-55 | fee plus net is the amount, 1 <= fee <= amount, the fee is the exact share rounded down (or 1), overflow is the only failure, and no rate means no fee |
| Fees.SplittingFees | contracts/tipz/src/fees.rs:32-55 | splitting one total into n withdrawals changes the total fee by at most n - 1 stroops either way |
| Ledger.CreditKeepsLaws | contracts/tipz/src/tips.rs:317-328 | a recorded tip keeps conservation, the refund law and the volume law |
| Ledger.CanCreditIff | contracts/tipz/src/tips.rs:319-328 | a tip is creditable exactly when its creator is registered and every counter it raises still fits its type |
| Ledger.GainKeepsTotals | contracts/tipz/src/tips.rs:317-328 | a recorded tip keeps each creator's lifetime total and count those of the tips not refunded |
| Ledger.LossIsExact | contracts/tipz/src/refund.rs:333-341 | a refund takes the tip's amount and one tip from the creator's totals, and the saturating subtractions cut nothing short, unless the profile was once removed |
| Ledger.LossKeepsTotals | contracts/tipz/src/refund.rs:333-341 | a refund keeps the totals of all creators those of the tips not refunded |
| Ledger.DebitKeepsLaws | contracts/tipz/src/tips.rs:565-588 | a withdrawal pays out exactly what it takes from the balance, whoever collects the fee |
| Ledger.LockKeepsLaws | contracts/tipz/src/tips.rs:676-767 | a scheduled tip is locked once under a fresh id |
| Ledger.UnlockKeepsLaws | contracts/tipz/src/tips.rs:876-942 | leaving the lock by cancellation keeps conservation and is the id's only exit |
| Ledger.CancelKeepsLaws | contracts/tipz/src/tips.rs:876-942 | cancelling moves the fee into no law |
| Ledger.DeliveryKeepsLaws | contracts/tipz/src/tips.rs:769-874 | delivery moves money from the lock to the creator; none enters or leaves the contract |
| Ledger.RefundKeepsLaws | contracts/tipz/src/refund.rs:323-380 | a refund keeps all laws, with a payout between 0 and the tip, and its saturating subtraction of the balance is exact in every reachable state |
| Ledger.RemoveProfileKeepsLaws | contracts/tipz/src/profile.rs:400-436 | removing a profile writes off exactly its balance |
| Ledger.SolventIff | contracts/tipz/src/refund.rs:323-380 | the contract can pay every creator in full at once exactly when the debts of the others, and those written off, are covered by locks, kept fees and gifts |
| Ledger.CreatorsArePayable | contracts/tipz/src/tips.rs:536-597 | without debts every creator's balance is in the contract's wallet next to all that is locked; with debts, all but the debts of others and those written off |
| Ledger.RunDry | contracts/tipz/src/refund.rs:323-380 | a run without gifts or removed profiles after which a creator is owed 100 and the contract holds 2 |
| Ledger.Transfer | contracts/tipz/src/token.rs:35-55 | succeeds exactly for a positive amount that is there, and moves it; no other wallet changes |
| Ledger.PayOut | contracts/tipz/src/tips.rs:565-579 | succeeds exactly when net and fee are there; the payee gets the net, the collector the fee, nobody else anything |
| Ledger.Withdraw | contracts/tipz/src/tips.rs:546-588 | accepted exactly for a registered caller with a positive balance, an amount in range, a split whose net is positive, and a contract wallet that holds it; the fee is the specified one, and the wallets change by net and fee exactly |
| Ledger.CancelRefused | contracts/tipz/src/tips.rs:876-903 | only the sender may cancel, before delivery is due, a tip that is still locked |
| Ledger.CancelPayout | contracts/tipz/src/tips.rs:910-932 | the sender gets the amount less one percent, the collector the rest |
| Ledger.TipLedger.SendTip | contracts/tipz/src/tips.rs:276-435 | accepted exactly under the code's conditions; only the creator's profile gains the amount and one tip; all laws kept |
| Ledger.TipLedger.WithdrawTips | contracts/tipz/src/tips.rs:536-597 | accepted exactly when the plan of checks and transfers succeeds; whole new state; all laws kept |
| Ledger.TipLedger.EmergencyWithdrawTips | contracts/tipz/src/tips.rs:603-654 | accepted exactly after seven days of pause and within the balance; no fee; all laws kept |
| Ledger.TipLedger.SendScheduledTip | contracts/tipz/src/tips.rs:676-767 | locks the amount under the next id; all laws kept |
| Ledger.TipLedger.DeliverScheduledTip | contracts/tipz/src/tips.rs:769-874 | delivers exactly a due tip that is still locked, marks it delivered and credits its creator; all laws kept |
| Ledger.TipLedger.CancelScheduledTip | contracts/tipz/src/tips.rs:876-942 | refused in the code's order of checks, otherwise pays back, marks it cancelled and touches no profile; all laws kept |
| Ledger.TipLedger.PayRefund | contracts/tipz/src/refund.rs:323-380 | takes the full amount from the creator, pays the tipper at most the tip, keeps the fee; the balance may go below zero but by no more than all refunds together |
| Ledger.TipLedger.RegisterProfile | contracts/tipz/src/profile.rs:91-147 | a second registration fails; a new profile starts at zero |
| Ledger.TipLedger.DeregisterProfile | contracts/tipz/src/profile.rs:400-436 | allowed exactly when nothing is owed to the creator; a debt is written off |
| Ledger.TipLedger.ReceiveTransfer | contracts/tipz/src/token.rs:35-55 | a direct transfer to the contract is the only way its balance exceeds the law, by exactly that amount |
| Refunds.Requestable | contracts/tipz/src/refund.rs:41-81 | a tip that is still stored and has no stored request was never refunded and is not in the index, because a request outlives its tip |
| Refunds.PendingIsOpen | contracts/tipz/src/refund.rs:63-81 | a pending request is of a tip that was never refunded, repeats it, and splits its amount into a payout and a fee that is not negative |
| Refunds.RequestAdded | contracts/tipz/src/refund.rs:63-81 | a new request keeps the agreement of tips, requests and index |
| Refunds.RequestDecided | contracts/tipz/src/refund.rs:125-128 | deciding a request, paid or not, keeps the agreement and the request's head start over its tip |
| Refunds.RequestDropped | contracts/tipz/src/refund.rs:263-266 | dropping a forgotten or expired request from the index keeps the agreement |
| Refunds.TipRecorded | contracts/tipz/src/tips.rs:45-101 | a new tip record starts refundable |
| Refunds.LaterIsFine | contracts/tipz/src/storage.rs:319-323 | passing ledgers, and records expiring with them, keep the agreement |
| Refunds.DueIff | contracts/tipz/src/refund.rs:202-208 | a request is due exactly when it is stored, pending, and as old as the response window by the clock |
| Refunds.ApprovedWasOverdue | contracts/tipz/src/refund.rs:197-217 | whatever a sweep changed had outlived its response window, and is approved automatically now, with nothing else of it changed |
| Refunds.OthersAreInTime | contracts/tipz/src/refund.rs:252-262 | a pending request that a sweep has covered and left is still inside its response window |
| Refunds.KeptFee | contracts/tipz/src/refund.rs:383-389 | the kept fee is the exact share rounded down; it fails exactly on overflow |
| Refunds.ExpirableIff | contracts/tipz/src/refund.rs:292-320 | with a positive lifetime a pending request expires exactly when the ledger number has passed its truncated time in seconds by the lifetime |
| Refunds.SwapRemoveMembers | contracts/tipz/src/storage.rs:1796-1831 | swap-remove keeps the entries distinct and drops exactly the one id |
| Refunds.DroppedAt | contracts/tipz/src/storage.rs:1796-1831 | swap-remove at a position leaves what is before it, shortens the index by one, and fills the position from behind |
| Refunds.PaidOneMore | contracts/tipz/src/refund.rs:200-217 | paying one more due request leaves the contract's margin, its wallet less all that is still due, as it was |
| Refunds.CannotPayAll | contracts/tipz/src/refund.rs:200-217 | a payout that cannot be made at its turn could not be made as part of the whole, seen from the state before the call: the contract holds less than all that is due, or a creator is gone |
| Refunds.AllPaid | contracts/tipz/src/refund.rs:200-217 | when nothing is left due, all that was due could be paid from the start, and exactly that has left the wallet |
| Refunds.DroppedKeepsRest | contracts/tipz/src/storage.rs:1796-1831 | an entry dropped behind the sweep's cursor leaves everything before the cursor in place, and brings nothing from before it behind |
| Refunds.RefundDesk.AddPending | contracts/tipz/src/storage.rs:1785-1793 | the next slot is filled; slots 0 to count-1 stay all filled and distinct |
| Refunds.RefundDesk.RemovePending | contracts/tipz/src/storage.rs:1796-1831 | removes exactly the id, if it is there; the last entry takes its slot |
| Refunds.RefundDesk.RequestRefused | contracts/tipz/src/refund.rs:33-62 | a request is admissible exactly for the tipper of a stored tip without request, inside the window |
| Refunds.RefundDesk.RequestRefund | contracts/tipz/src/refund.rs:33-99 | the stored request repeats the tip and splits its amount exactly, fee rounded down; index and table stay in agreement |
| Refunds.RefundDesk.StoreRequest | contracts/tipz/src/refund.rs:63-81 | the new pending request enters table and index together |
| Refunds.RefundDesk.DecisionRefused | contracts/tipz/src/refund.rs:106-124 | only the tip's creator decides, and only a stored pending request |
| Refunds.RefundDesk.Decide | contracts/tipz/src/refund.rs:125-128 | a decided request leaves the index and outlives its tip |
| Refunds.RefundDesk.ApproveRefund | contracts/tipz/src/refund.rs:106-133 | pays exactly when the payout can be made: the tip's amount leaves its creator's balance, the payout reaches the tipper, one refund is recorded, and the decided request leaves the index |
| Refunds.RefundDesk.RejectRefund | contracts/tipz/src/refund.rs:145-174 | records the rejection and its time without paying, and takes the id off the index |
| Refunds.RefundDesk.ExpireRefund | contracts/tipz/src/refund.rs:292-320 | deletes only a pending request of sufficient age, from table and index |
| Refunds.RefundDesk.PayAndDecide | contracts/tipz/src/refund.rs:323-380 | payment, decision and index move together, or nothing happens |
| Refunds.RefundDesk.ApproveListed | contracts/tipz/src/refund.rs:197-217 | goes through exactly when every due listed request has a registered creator and a payout and the contract holds all they ask for; approves only listed requests, each once |
| Refunds.RefundDesk.ProcessPendingRefunds | contracts/tipz/src/refund.rs:186-219 | succeeds exactly when the list can be paid; approves exactly the listed requests whose response window is over, and leaves pending only listed ones still inside it; the wallet falls by exactly their payouts, each once; one failed payout undoes all |
| Refunds.RefundDesk.SweepFrom | contracts/tipz/src/refund.rs:241-270 | ends although its bound is stale and slots are refilled, pays at most the limit, approves only entries from the cursor on, and leaves nothing due from the cursor to where it stopped; below the limit it has passed the end of the index; it fails only when what is due from the cursor on cannot be paid as a whole |
| Refunds.RefundDesk.SweepStep | contracts/tipz/src/refund.rs:242-269 | one look either moves on or shortens the index, leaves nothing due behind it, and touches nothing before the cursor |
| Refunds.RefundDesk.ApproveDue | contracts/tipz/src/refund.rs:252-262 | approving the entry in sight shortens the index and keeps all the sweep has established |
| Refunds.RefundDesk.DropMissing | contracts/tipz/src/refund.rs:263-266 | so does dropping an entry whose request the host has forgotten |
| Refunds.RefundDesk.SweptAll | contracts/tipz/src/refund.rs:241-278 | a sweep that passed the end of the shrunken index has missed no due entry of the index it began with |
| Refunds.RefundDesk.ProcessPendingRefundsFrom | contracts/tipz/src/refund.rs:222-278 | at most min(limit, 50) refunds, only of requests from the cursor on whose response window is over; entries before it stay where they are; what is left before the stop is inside its window, and below the limit so is all that stood at or after the cursor; an ungated call fails only when not all could be paid. The returned cursor is the stop or 0 |
| Refunds.RefundDesk.StoreTip | contracts/tipz/src/tips.rs:82-97 | storing the record of a tip just booked keeps the agreement |
| Refunds.RefundDesk.SendTip | contracts/tipz/src/tips.rs:276-435 | records the tip with its lifetime; index and table unchanged |
| Refunds.RefundDesk.DeliverScheduledTip | contracts/tipz/src/tips.rs:769-874 | a delivered tip is recorded like a sent one |
| Refunds.RefundDesk.OtherCallsKeepDesk | contracts/tipz/src/tips.rs:536-597 | withdrawals and other calls that record and refund no tip may run between the desk's calls |
| Admin.ExecutionsAreSafe | contracts/tipz/src/multisig.rs:172-233 | every execution ever made had pairwise distinct approvals, at least the required number, all signers of the one configuration of its epoch, before expiry, not cancelled, and once; that configuration has at least as many different signers as it requires |
| Admin.ProposalExecuted | contracts/tipz/src/multisig.rs:278-303 | executing at quorum in the current epoch keeps the safety of all executions and their order by epoch |
| Admin.ApprovalKeepsLaws | contracts/tipz/src/multisig.rs:211-222 | one more approval keeps approvals distinct and inside the epoch's signers |
| Admin.ConfigAdded | contracts/tipz/src/multisig.rs:69-103 | a new configuration gets the next epoch and leaves older proposals bound to theirs |
| Admin.QuorumReachableIff | contracts/tipz/src/multisig.rs:69-103 | a quorum can be reached exactly when no more approvals are required than there are different signers |
| Admin.RepeatedSignerLocksOut | contracts/tipz/src/multisig.rs:69-103 | a configuration the contract accepts and under which no proposal can ever be executed |
| Admin.FeeApplied | contracts/tipz/src/admin.rs:475-497 | applying keeps the fee within ten percent, and a raise is applied at least 24 ledgers after it was recorded |
| Admin.ProposedFee | contracts/tipz/src/admin.rs:442-466 | a proposal is accepted exactly at most ten percent, with none pending, and for a raise when its date fits the ledger counter |
| Admin.RaiseIsNotDue | contracts/tipz/src/admin.rs:390-393 | right after a raise is proposed its date is at least 24 ledgers ahead, so applying it in the same call fails |
| Admin.ActionPerformed | contracts/tipz/src/multisig.rs:306-328 | an executed action keeps all laws; a fee action only records a proposal |
| Admin.ActionTakesEffect | contracts/tipz/src/multisig.rs:306-328 | paused exactly when a pause was executed and no unpause since; the admin is the last one named; the version counts upgrades; an executed fee action proposes that very fee |
| Admin.AdminDesk.SetMultisigConfig | contracts/tipz/src/multisig.rs:69-103 | accepted exactly for the admin and a threshold between 1 and the length of the list, repeated signers counted; starts the next epoch |
| Admin.AdminDesk.ExecuteProposal | contracts/tipz/src/multisig.rs:278-334 | succeeds exactly with the quorum of the current epoch and an action that succeeds; a failing action undoes the mark |
| Admin.AdminDesk.ProposalRefused | contracts/tipz/src/multisig.rs:116-140 | a proposal is admissible exactly by a current signer while the id and the expiry fit their counters |
| Admin.AdminDesk.ProposeAction | contracts/tipz/src/multisig.rs:116-169 | refused in the code's order of checks; otherwise opens under a fresh id, with the proposer's approval and seven days to run, and succeeds, except that a quorum of one executes at once and fails exactly when the action does |
| Admin.AdminDesk.ApprovalRefused | contracts/tipz/src/multisig.rs:172-214 | an approval is admissible exactly by a current signer who has not approved, on a live proposal of the current epoch |
| Admin.AdminDesk.ApproveAction | contracts/tipz/src/multisig.rs:172-233 | refused in the code's order of checks; otherwise short of the quorum it succeeds and adds exactly one approval, and at the quorum it executes and fails exactly when the action does |
| Admin.AdminDesk.CancelProposal | contracts/tipz/src/multisig.rs:236-275 | only the proposer, only before execution |
| Admin.AdminDesk.ProposeFeeChange | contracts/tipz/src/admin.rs:426-466 | accepted exactly for the admin without multisig, none pending, and at most ten percent; records the fee with its date, a raise after the delay in force |
| Admin.AdminDesk.ApplyFeeChange | contracts/tipz/src/admin.rs:469-497 | applied exactly when due; records the step, and the steps recorded since the first fee lead to the present one without a gap |
| Admin.AdminDesk.SetFeeNow | contracts/tipz/src/admin.rs:390-393 | succeeds exactly for the admin without multisig, none pending, and a fee that is not higher; records the step; a raise always fails and changes nothing |
| Admin.AdminDesk.CancelFeeChange | contracts/tipz/src/admin.rs:500-516 | removes the pending proposal and nothing else |
| Admin.AdminDesk.SetFeeChangeDelay | contracts/tipz/src/admin.rs:399-420 | never below 24 ledgers; a recorded proposal keeps its date |
| Subscriptions.ChargesAreSpaced | contracts/tipz/src/subscription.rs:229-261 | however late charges run, the j-th is at least j - i whole days after the i-th was due, and none is early |
| Subscriptions.ChargeAppended | contracts/tipz/src/subscription.rs:254-259 | after k charges the due date is the first one plus the k intervals applied, with saturation |
| Subscriptions.TermsAreAgreed | contracts/tipz/src/subscription.rs:229-242 | what is charged next is what was agreed last, at the creation or by a later change |
| Subscriptions.ChargeKeepsStore | contracts/tipz/src/subscription.rs:229-261 | a charge keeps schedule, index, list and limit |
| Subscriptions.CreateKeepsStore | contracts/tipz/src/subscription.rs:71-94 | a new activation keeps them too, with at most the limit of active records |
| Subscriptions.CancelKeepsStore | contracts/tipz/src/subscription.rs:124-138 | so does a cancellation |
| Subscriptions.ChangeKeepsStore | contracts/tipz/src/subscription.rs:46-67 | and a change of terms, which leaves the record alone |
| Subscriptions.LimitKept | contracts/tipz/src/subscription.rs:71-76 | no subscriber has more active records than the highest limit ever set |
| Subscriptions.LimitMeansAtMost | contracts/tipz/src/subscription.rs:71-76 | no list of different creators with an active record of one subscriber is longer than the highest limit ever set |
| Subscriptions.WithoutKeepsRest | contracts/tipz/src/storage.rs:1875-1887 | rebuilding the list drops exactly one pair and no duplicate appears |
| Subscriptions.PausedSweepDoesNothing | contracts/tipz/src/subscription.rs:148-189 | while the contract is paused a sweep, which asks for no flag itself, charges nobody and changes nothing |
| Subscriptions.SweptInFields | contracts/tipz/src/subscription.rs:148-189 | those charged were active, due, unpaused and not refused, and are renewed on the terms agreed last; below the limit no such record is left out; all others keep record and change |
| Subscriptions.Book.ActiveCount | contracts/tipz/src/subscription.rs:313-319 | counting through the subscriber's index counts every active record once |
| Subscriptions.Book.CreateSubscription | contracts/tipz/src/subscription.rs:10-97 | all branches: an active record keeps its period, agrees new terms for the next charge and is refused when overdue; otherwise a new activation within the limit |
| Subscriptions.Book.CancelSubscription | contracts/tipz/src/subscription.rs:103-143 | ends exactly an active record, discards its pending change, leaves the list exact |
| Subscriptions.Book.RemoveActive | contracts/tipz/src/storage.rs:1875-1887 | the loop rebuilds the list without the pair, in order |
| Subscriptions.Book.ChargeDue | contracts/tipz/src/subscription.rs:229-261 | charged exactly when the tip passes its pause check and everything after it; the record gets the terms agreed last and its date moves by their interval; a refused tip changes nothing |
| Subscriptions.Book.ExecuteDueSubscription | contracts/tipz/src/subscription.rs:191-227 | refused while paused or without a record; an inactive record or one not due is left alone and the call succeeds |
| Subscriptions.Book.ChargeIfDue | contracts/tipz/src/subscription.rs:158-186 | an entry of a sweep is charged exactly when it is active, due, unpaused and its tip goes through |
| Subscriptions.Book.ExecuteSubscriptions | contracts/tipz/src/subscription.rs:148-189 | each record is charged at most once per sweep, only if due, unpaused and payable; all others keep their record and change; below the limit every payable record is charged |
| Subscriptions.Book.SetLimit | contracts/tipz/src/storage.rs:859-863 | lowering the limit touches no record |
| Pauses.PausedIffAnyFlag | contracts/tipz/src/storage.rs:400-404 | whichever area is asked about, the answer is whether any flag at all is set |
| Pauses.OnePausePausesAll | contracts/tipz/src/storage.rs:463-478 | pausing one area of a running contract pauses every area |
| Pauses.BitsAreSeparate | contracts/tipz/src/types.rs:92-100 | each area has a bit of its own |
| Pauses.SetIsKept | contracts/tipz/src/types.rs:108-111 | setting a flag sets it and undoes no other |
| Indexer.Poller.PollOnce | backend/src/indexer/poller.ts:45-124 | rolls back exactly on a divergence newer than the newest match, to that match or below the oldest checkpoint; otherwise reads on to exactly `depth` behind the head. Capped or not, cursor and checkpoints then follow one history. A tick within its page cap leaves exactly this chain's rows if and only if the rows below its first ledger were this chain's; exact rows hold the first of every event as it came |
| Indexer.SettledTick | backend/src/indexer/poller.ts:45-124 | on a chain that contradicts nothing indexed, shorter or longer than it, a tick does not roll back, whatever its rows and however capped; what is indexed grows to the chain's final part or stays |
| Indexer.ShallowReorgsNeverRollBack | backend/src/indexer/reorg.ts:1-9 | over a run of any length, with heads rising and falling, in which no chain reorganises an earlier one deeper than the finality depth, no tick rolls back, capped or not; what is indexed only grows and is all but the last `depth` ledgers of one of the chains, and when every tick fits its pages the rows stay exact |
| Indexer.FreshIndexerNeverRollsBack | backend/src/indexer/poller.ts:29-124 | the same from the first start on, with no assumption about the store |
| Indexer.StepwiseIsShallow | backend/src/indexer/reorg.ts:1-9 | while heads do not fall it is enough that each chain agrees with the one before it below the finality depth |
| Indexer.OneRollbackIsEnough | backend/src/indexer/reorg.ts:37-125 | after a rollback the next tick on the same chain never rolls back again, however deep the reorganisation |
| Indexer.TwoTicksRecover | backend/src/indexer/reorg.ts:66-125 | if one checkpoint still matches, two ticks after any reorganisation the rows are exactly this chain's, up to the finality ceiling or the fork |
| Indexer.RolledBackOnto | backend/src/indexer/reorg.ts:76-125 | a rollback to a matching checkpoint leaves what is indexed a part of the chain, with exact rows |
| Indexer.AnchoredRunIsExact | backend/src/indexer/poller.ts:45-124 | over any chains whatever, deep reorganisations and rollbacks included, the rows stay exact if every tick fits its pages and had a checkpoint to compare or lost nothing from the chain |
| Indexer.ProjectedIffFirstWins | backend/src/indexer/projections.ts:84-143 | the rows after projecting are exactly those that keep what was there and store the first event of each new key and the first tip of each new transaction, field by field as it came, and nothing else |
| Indexer.ExactIffFirstWins | backend/src/indexer/projections.ts:84-143 | exact rows are just these for all events since the first indexed ledger |
| Indexer.FlatAt | backend/src/indexer/poller.ts:66-79 | the stream is ledger after ledger: each event of each ledger has its place in it |
| Indexer.TickReadsOn | backend/src/indexer/poller.ts:25-117 | in the tables' own terms: where a tick begins and ends, how many events it takes, what it stores of them, and which checkpoints it leaves |
| Indexer.TickKeepsTrace | backend/src/indexer/poller.ts:100-117 | every tick that advances, capped or not, keeps cursor and checkpoints on one history |
| Indexer.TickIsExactIff | backend/src/indexer/poller.ts:60-102 | a tick within its page cap ends with this chain's rows exactly when it began with this chain's rows below its first ledger: it repairs no wrong row and spoils no right one |
| Indexer.AdvanceExactIff | backend/src/indexer/poller.ts:45-102 | the same for the stored rows of a tick, first tick included; nothing lost from the chain means exact rows |
| Indexer.SameAfterIffSameBefore | backend/src/indexer/projections.ts:84-143 | later events never make two different sets of earlier rows equal |
| Indexer.RollbackUndoes | backend/src/indexer/reorg.ts:76-91 | deleting rows above the fork undoes exactly the projection above it, first-wins rows included |
| Indexer.RolledBack | backend/src/indexer/reorg.ts:76-91 | after a rollback cursor and checkpoints follow the shorter history, and rows that were exact are exact for it |
| Indexer.RowsCut | backend/src/indexer/reorg.ts:76-91 | deleting the rows above a fork from a history's rows gives the rows of the history cut there |
| Indexer.NewestMatchIsOnChain | backend/src/indexer/reorg.ts:37-60 | equal hashes: history up to a matching checkpoint is on the chain; with no divergence seen, all of it is |
| Indexer.ReplayIsNoop | backend/src/indexer/projections.ts:84-143 | projecting events changes nothing exactly when each of them is stored already |
| Indexer.ReplayAfterCrash | backend/src/indexer/projections.ts:84-143 | a tick that died after any number of events and is run again ends as if it had never died |
| Indexer.ProjectedGrows | backend/src/indexer/projections.ts:84-143 | no row is ever overwritten or lost by projecting more |
| Indexer.CapLosesIff | backend/src/indexer/poller.ts:60-102 | of finalized events with distinct new keys a tick stores all if and only if there are at most 50 pages of 100 |
| Indexer.CapLosesIffUnstored | backend/src/indexer/poller.ts:60-102 | with repeated keys a capped tick is complete exactly when all it left out was stored by then |
| Indexer.OverfullTickLosesAnEvent | backend/src/indexer/poller.ts:60-102 | a first tick over a ledger of 5001 events moves the cursor past it without the rows of the chain |
| Indexer.StreamOfTick | backend/src/indexer/poller.ts:66-79 | the finalized events are exactly the first ones of the stream |
| Indexer.DetectReorg | backend/src/indexer/reorg.ts:37-60 | finds the newest matching checkpoint, reports the newest divergence, skips ledgers the chain does not have, and falls back to just before the oldest checkpoint |
| Indexer.SeesReorgIff | backend/src/indexer/reorg.ts:37-60 | a rollback happens exactly when some checkpoint's ledger is on the chain with another hash and no newer checkpoint matches |
| Indexer.Poller.CheckAndHandleReorg | backend/src/indexer/reorg.ts:98-125 | rolls back exactly on a seen divergence, to the highest matching ledger, whose history is on the chain; otherwise, and always with a lookback of 0, changes nothing |
| Indexer.Poller.RollbackToLedger | backend/src/indexer/reorg.ts:76-91 | rows, stale checkpoints and cursor move together; exact rows stay exact |
| Indexer.Poller.ProjectPages | backend/src/indexer/poller.ts:60-94 | the paging loop projects exactly the finalized events, in order and each once, up to 50 pages of 100, and stores the first of everything new as it came |
| Indexer.Poller.ProjectPage | backend/src/indexer/poller.ts:69-87 | projects the finalized part of one page, event by event as it came, and skips the rest |
| Indexer.Poller.Advance | backend/src/indexer/poller.ts:100-117 | begins after the cursor, ends at the finality ceiling with its hash as newest checkpoint, and the rows gain the first of everything new up to the page cap |
| Indexer.CheckpointRecorded | backend/src/indexer/ledger-checkpoint.store.ts:20-55 | upsert and pruning keep the checkpoints newest first and all of the indexed history |
| Indexer.UpsertedMembers | backend/src/indexer/ledger-checkpoint.store.ts:19-26 | the recorded checkpoint replaces the one of its ledger and no other, and the list stays newest first |
| Indexer.CheckpointsKept | backend/src/indexer/ledger-checkpoint.store.ts:19-55 | the newest checkpoint joins the others, of which as many as the lookback stay, newest first |
| Indexer.DeletedAboveIsSuffix | backend/src/indexer/ledger-checkpoint.store.ts:58-60 | deleting above a ledger keeps exactly the older checkpoints |
| ChargeWorker.OwnFailuresIffDistinctClocks | backend/src/jobs/subscriptionCharge.worker.ts:107-139 | every counted failure belongs to the claim still held, in all interleavings of runs, crashes and resets, if and only if no two runs share a clock value |
| ChargeWorker.FailuresAreCounted | backend/src/jobs/subscriptionCharge.worker.ts:107-139 | with distinct clocks the stored count is the number of failures since the last reset, and the fourth one is terminal |
| ChargeWorker.SharedClockBreaks | backend/src/jobs/subscriptionCharge.worker.ts:125-136 | a seven-step run of two workers with one clock value counts a failure against the other's claim |
| ChargeWorker.TakeoverIsLate | backend/src/jobs/subscriptionCharge.worker.ts:89-105 | under any clocks a claim is overwritten only by a run at least 15 minutes past it, only on an active row whose charge date, or a past-due row whose retry date, has come by that run's clock, so never on a failed one |
| ChargeWorker.FindsIffDue | backend/src/jobs/subscriptionCharge.worker.ts:152-172 | a run finds the row exactly when it is active past its date or past due past its retry, with no claim of the last 15 minutes |
| ChargeWorker.OverIsOver | backend/src/jobs/subscriptionCharge.worker.ts:155-161 | no interleaving of runs ever moves a failed or cancelled row |
| ChargeWorker.AfterRunIs | backend/src/jobs/subscriptionCharge.worker.ts:145-229 | what one undisturbed run does to a row, by the row's own dates |
| ChargeWorker.StateOkAlways | backend/src/jobs/subscriptionCharge.worker.ts:47-50 | under any clocks PAST_DUE means one to three failures and a retry exactly 1, 3 or 7 days after dunning began |
| ChargeWorker.StepKeepsState | backend/src/jobs/subscriptionCharge.worker.ts:89-139 | each atomic step keeps that, as do outside resets and cancellations |
| ChargeWorker.StepKeepsExclusive | backend/src/jobs/subscriptionCharge.worker.ts:89-139 | while a run holds the claim nobody else moves the dunning state |
| ChargeWorker.ChargeTable.ClaimSubscription | backend/src/jobs/subscriptionCharge.worker.ts:89-105 | wins exactly when the row is as it was found |
| ChargeWorker.ChargeTable.PersistFailure | backend/src/jobs/subscriptionCharge.worker.ts:107-139 | writes exactly when the claim stands: one more failure, a retry 1, 3 or 7 days after dunning began; terminal for a hard failure or after the third retry |
| ChargeWorker.ChargeTable.ProcessDueSubscriptions | backend/src/jobs/subscriptionCharge.worker.ts:145-229 | an undisturbed run charges every row whose date has come, once, and touches no other; failures are those of the rows that failed |
| RateLimit.HitInside | backend/src/realtime/rateLimit.ts:29-34 | a hit in the open window keeps every interval of the window's length within twice the budget |
| RateLimit.HitFresh | backend/src/realtime/rateLimit.ts:24-27 | so does a hit that opens a new window |
| RateLimit.AdmitsIff | backend/src/realtime/rateLimit.ts:20-35 | a hit is refused exactly in an open window in which the whole budget was accepted |
| RateLimit.HitKeepsTable | backend/src/realtime/rateLimit.ts:20-35 | for all keys at once |
| RateLimit.SweepKeepsTable | backend/src/realtime/rateLimit.ts:38-43 | dropping expired entries keeps the bound for all keys |
| RateLimit.SweepIsInvisible | backend/src/realtime/rateLimit.ts:38-43 | however sweeps are spread over a run, every hit is answered as if there were none |
| RateLimit.SlidingWindowLimiter.Consume | backend/src/realtime/rateLimit.ts:20-35 | refuses exactly in an open window that already accepted the budget, else records the hit; keeps the bound |
| RateLimit.SlidingWindowLimiter.DropExpired | backend/src/realtime/rateLimit.ts:38-43 | the loop keeps exactly the entries that have not expired |
| RateLimit.SlidingWindowLimiter.Sweep | backend/src/realtime/rateLimit.ts:38-43 | drops exactly the expired entries; forgets no accepted hit of the bound |
| RateLimit.ContractBoundIff | contracts/tipz/src/validation.rs:275-304 | the same bound holds for the contract in every run of clocks up to a given end if and only if that end is before the last clock value (or the window is 0) |
| RateLimit.ContractTrack | contracts/tipz/src/validation.rs:275-304 | before the last clock value the contract's status tracks the accepted hits |
| RateLimit.ContractCount | contracts/tipz/src/validation.rs:275-304 | the stored count is the number of calls accepted since the window was opened |
| RateLimit.ContractAdmitsIff | contracts/tipz/src/validation.rs:275-304 | before the last clock value the contract refuses a call exactly in an open window in which the allowed number was accepted |
| RateLimit.AllAcceptedAtTheEnd | contracts/tipz/src/validation.rs:292-295 | at the last clock value every call is accepted |
| RateLimit.ContractLimiter.CheckRateLimit | contracts/tipz/src/validation.rs:275-304 | the admin is exempt; a refused call stores nothing |
| Printers.FillDigits | contracts/tipz/src/admin.rs:58-65 | the backward loop never leaves the buffer; what it wrote parses to the number and has no leading zero |
| Printers.U32ToString | contracts/tipz/src/admin.rs:20-34 | parsing the text gives every u32 back; ten bytes suffice |
| Printers.U64ToString | contracts/tipz/src/admin.rs:36-50 | parsing the text gives every u64 back; twenty bytes suffice |
| Printers.I128ToString | contracts/tipz/src/admin.rs:52-71 | parsing gives every i128 back, with its sign; only the smallest value has no text, because negating it overflows |
| Printers.CanonicalIsUnique | contracts/tipz/src/admin.rs:20-71 | a number has one text without leading zeros, so the printers are determined by parsing |
| Printers.RoomForSign | contracts/tipz/src/admin.rs:66-69 | after the digits of an i128 one byte is left for the sign |
| KeyCase.ValueRoundTripIff | frontend-scaffold/src/helpers/format.ts:15-47 | a contract value comes back from the frontend's form exactly when no key at any depth has an upper-case letter |
| KeyCase.KeyRoundTripIff | frontend-scaffold/src/helpers/format.ts:3-7 | the same for a single key |
| KeyCase.FrontendKeyRoundTripIff | frontend-scaffold/src/helpers/format.ts:3-7 | in the other direction: exactly when no underscore stands before a lower-case letter |
| KeyCase.NothingMerges | frontend-scaffold/src/helpers/format.ts:15-27 | converting a contract object keeps every entry in its place, its key in camel case and its value converted |
| KeyCase.ItemsStay | frontend-scaffold/src/helpers/format.ts:15-47 | texts stay as they are and arrays keep their items in place, both ways |
| KeyCase.CamelKeysStayApart | frontend-scaffold/src/helpers/format.ts:3-4 | two different contract keys differ in camel case |
| KeyCase.MixedCaseKeysMerge | frontend-scaffold/src/helpers/format.ts:19-25 | with a mixed-case key one entry does overwrite another |

## Left out

- Composition: the breaker, the boards, the ledger and the subscriptions are proved one by one; a withdrawal takes the
  breaker's answer, and a recurring tip its outcome, as a parameter.
- ExecuteSubscriptions: partial effects of a recurring tip that fails in the middle of a sweep (its rate-limit
  counter, a reentrancy flag) are not part of the model; a failed tip is one that changes nothing.
- Network, database and chain plumbing: RPC, Horizon, Prisma, Redis, queues and sockets; a table is a map and a
  database transaction one step.
- Event parsing in `projections.ts`; decoded tip events are given. Goal, credit and profile projections are out.
- RollbackToLedger: the status of a tip and the refund rows across a reorganisation are not in the model; a refund event
  above the fork for a tip below it is not undone by the code either.
- A projection or lookup that fails inside a tick, a chain that changes during a tick, and a missing checkpoint write:
  the indexer's claims assume none of them. That a tick can die between two events is covered by `ReplayAfterCrash`.
- The order in which a JSON object lists integer-like keys; an object here lists its entries in the order given.
- Other refund calls between two pages of a sweep: an entry may then move behind the cursor, so coverage is claimed per
  page.
- Top-50 after a refund or a removal: the freed slot is not filled again, so only order, distinctness, the cap and
  current amounts are claimed for such runs; the order of ties on the monthly and weekly boards is not claimed either,
  because an update by zero places a creator behind its ties.
- Conservation names three terms that are 0 in ordinary use: fees collected by the contract itself, direct transfers to
  the contract, and debts of removed profiles.
- The contract's own address never signs a call, so no caller equals it.
- A native token whose own transfer fails for reasons other than a short balance (a frozen or missing account).
- Clocks and ledger numbers are taken not to run backwards in the contract, in the realtime limiter and between refund
  calls.
- `Printers` buffers hold characters; the conversion from bytes to text cannot fail for digits and a sign.
- Soft-deleted subscription rows and the notifications of the charge worker.
- Multi-token tips and oracle prices, tips on behalf of others, streaks, credit scores, goals, X metrics, getters,
  events, audit logs, storage migrations, lifetimes of persistent entries, the creator-side subscription index, the
  two-step admin change, and everything in the user interface.
- Encryption, pseudonyms and signatures are assumptions.
