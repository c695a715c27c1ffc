# Verified model of the service layer

This project models the parts of the NestJS service that hold state over time, and proves what they keep: the Kafka event
pipeline, the spending limits and session keys of smart accounts, the constant-product DEX, the NFT marketplace, gas
meters, multi-signature transactions, lending pools and MPC threshold wallets. `dafny verify dfyconfig.toml` checks it.

Every component is written down twice, and the two are tied together.

- A step system on values: a `State`, the `Step`s that can happen, a total function `Next` with the branches of the
  service (a call that throws leaves the state alone unless the service changes something before throwing), and `Run`
  over any sequence of steps. The theorems quantify over all runs, so over all interleavings of the steps.
- A class with the fields the service updates and methods written as the service writes them. Each method ensures that
  the value of the object afterwards is `Next` (or `Run`) of its value before, so the theorems hold for the class; and it
  states the new fields themselves, with the numbers of the service, so the two cannot drift together.

What happens outside appears as an argument of a step: whether Kafka acknowledged, whether the chain confirmed a
transaction, which partition the broker chose, how much time passed, what the hash function is. Fields described as
history (`ghost` in the classes where the service does not have them) record what happened and decide nothing.

| file | component | granularity |
|---|---|---|
| Messages, Publisher, Consumer, Pipeline | `MessagePublisherService`, `TransactionEventConsumer`, and both joined through the topic | every await is a point where other steps may come in; the end of the process, with the publisher's memory and every running handler, is a step |
| SpendLimit | `validateTransaction`, `recordTransaction` and the authorisation consumer | time may pass, midnight may fall and other messages may be validated between validating and recording |
| SessionKeys | session-key table and the permission cache in front of it | creations and refills are suspended until Redis has taken the entry, and other calls run meanwhile; Redis may drop entries |
| Amm, Dex | swap formula; swaps, liquidity positions and the pool ledger | one call is one step |
| Marketplace | `placeBid`, `acceptBid`, `cancelListing` | one call is one step |
| GasMeter | gas meters and the executions checked against and charged to them | check, transaction (with the slot read after it) and charge are separate steps |
| MultiSig | multi-signature accounts and transactions | start and end of an execution are separate steps |
| Lending | supply, borrow, repay, withdraw, health check | one call is one step |
| Mpc (with Sorting) | threshold wallets | one call is one step |

Where code and documentation disagree, or a promise holds only in part, the model follows the code:

- The consumer is documented to give exactly-once semantics by manual offset commits
  (src/modules/transactions/transaction-event.consumer.ts:60). What holds is at-least-once for what reached the topic:
  `Pipeline.AtLeastOnce` balances all copies. `Pipeline.ExactlyOnceWhen` names the steps that spoil exactly-once, all of
  them: a flush that fails after it sent the event, a failed dead-letter publish, a handler cut off after it dealt with
  the event, and a restart then or while the event is still in memory. `Pipeline.PartialFlushRepeats` and
  `Pipeline.RestartRepeats` are runs in which it is spoilt.
- The publisher documents that failed flushes are retried at the next interval
  (src/modules/transactions/message-publisher.service.ts:104-107). A flush of the timer rejects unhandled (lines 129-131),
  which ends the process where unhandled rejections are fatal, and then the batch is gone:
  `Publisher.UnhandledFailureDropsAll`, `Publisher.NothingDroppedExactly`, `Pipeline.NothingDroppedExactly`.
- Publication order is kept as long as flushes do not overlap and the process ends only with nothing to lose. Neither
  the timer nor a publish that fills the buffer waits for the flush before. `Publisher.OverlapReordersExactly` says which
  steps can lead to reordering, `Publisher.OverlappingFlushesReorder` is a run in which events are reordered.
- A `maxDailySpend` of 0 imposes no limit (`SpendLimit.LimitImposedExactly`). Requests validated side by side can exceed a
  limit together: `SpendLimit.OverlapWithinExactly`, `SpendLimit.TwoRequestsExceed`. A frozen account is authorised while
  its rules are cached: `SpendLimit.StalenessIsBounded`, `SpendLimit.FrozenForExactly`.
- A revoked session key is found valid again when a creation or refill of its entry was on its way during the revocation,
  and only then: `SessionKeys.NeverValidAfterRevoke`, `SessionKeys.RevokedFoundValid`.
- A session key can be found valid after its expiry, by the time between computing the TTL and Redis starting to count
  it, in a creation as in a refill. `SessionKeys.TransparentExactlyWhenPunctual` gives the exact condition for both, per
  write; `SessionKeys.LateRefillOutlivesRow` is a late refill of a key that was created in no time.
- The fee rate is documented in basis points (src/modules/cpi/dex-pool.entity.ts:130-136) but multiplied as a fraction
  (src/modules/cpi/dex.service.ts:115-117). `Amm.FeeRateRange` and `Amm.WorkingRates` say which rates work,
  `Amm.BasisPointsOverpay` shows a rate of 30 paying out more than the reserve.
- Removals are not compared with the reserves. `Dex.ProvidersCanLeaveExactly` says when they can do no harm,
  `Dex.RemovalOverdraws` is a run in which one overdraws.
- `checkGasMeter` does not reserve anything. `GasMeter.CheckSuffices` says what may happen between check and charge,
  `GasMeter.SideBySideExactly` when executions side by side all succeed. A confirmed execution goes uncharged when the
  slot cannot be read: `GasMeter.UnchargedUnits`.
- Creating a multi-signature account counts repeated signers: `MultiSig.CompletableExactly`. A premature execute fails a
  transaction for good, and nothing else spoils one that can be completed: `MultiSig.PrematureExecuteKills`,
  `MultiSig.StaysCompletableExactly`. Overlapping executions can both send, and nothing else can make
  a second send possible: `MultiSig.TwoSendsExactly`.
- Repayments and withdrawals are not compared with what is left, nor borrows with what is supplied:
  `Lending.LevelsStayAboveStart` and `Lending.PositionsStayPositive` give the exact conditions,
  `Lending.OverpaymentGoesNegative` and `Lending.NothingBacksBorrows` what happens otherwise.
- The shares of an MPC wallet are declared with cascade (src/modules/mpc/mpc-wallet.entity.ts:125), and `revokeKeyShare`
  saves the wallet it loaded before revoking. With cascade that save writes the revoked share back as active. The model has
  both settings (`Env.cascade`): active means able to sign in all reachable states exactly without cascade
  (`Mpc.StatusExactWithoutCascade`, with `Mpc.RecoveringThatCanSign` as the run that shows it), `Mpc.StatusTellsActiveShares`
  and `Mpc.RevocationSticks` say what holds in each. In both a wallet that lost its quorum never signs again.
- A signing request may name a participant more than once, and each time counts. `Mpc.AloneExactly`: in every wallet the
  owner of an active share can sign alone. `Mpc.ShortQuorumExactly` says when repetitions decide; with different
  participants the quorum is exact (`Mpc.QuorumOfParticipants`).

## Model

| member | source | states |
|---|---|---|
| Publisher.NoEventLostOrInvented | src/modules/transactions/message-publisher.service.ts:252-303 | For every interleaving of publishes, overlapping flushes, emit outcomes and ends of the process: copies published plus copies put back equal copies acknowledged, buffered, about to be sent and dropped; an event was published if and only if it is in one of those places; until an emit fails the buffer is below 100 and nothing is sent twice |
| Publisher.RunConserves | src/modules/transactions/message-publisher.service.ts:265-302 | The same balance, and that nothing is invented, carried from any state over any run |
| Publisher.NothingDroppedExactly | src/modules/transactions/message-publisher.service.ts:126-143 | Nothing is dropped if and only if the buffer is empty and every flush is through whenever the process ends |
| Publisher.UnhandledFailureDropsAll | src/modules/transactions/message-publisher.service.ts:295-302 | If a failed flush ends the process, everything buffered or about to be sent is dropped, and the batch just put back with it |
| Publisher.FirstEmissionsFollowPublication | src/modules/transactions/message-publisher.service.ts:280-302 | If flushes never overlap, the process ends only with nothing to lose and events differ, first emissions are a prefix of publication order however often batches fail and go back, and a flush that sent its batch has emitted everything published before the current buffer |
| Publisher.SerialRunInOrder | src/modules/transactions/message-publisher.service.ts:280-302 | The invariant behind it: what is pending is the end of the publication order, kept by every serial run |
| Publisher.OverlapReordersExactly | src/modules/transactions/message-publisher.service.ts:126-133 | In every state serial flushes lead to, a step of any kind that keeps events distinct lets acknowledgements come out of publication order if and only if it starts a flush, from outside or by filling the buffer, while the suspended flush still owes an event |
| Publisher.OverlappingFlushesReorder | src/modules/transactions/message-publisher.service.ts:126-133 | A concrete run with two suspended flushes in which an event overtakes an earlier one |
| Publisher.FlushedIsRun | src/modules/transactions/message-publisher.service.ts:280-302 | In every state with a non-empty buffer, whoever starts the flush: started, acknowledged and finished without anything in between it empties the buffer, leaves the other flushes alone and appends the buffer to what was emitted, in order; failing at any emit it has emitted what came before and leaves the buffer as it was |
| Publisher.HundredthPublishFlushes | src/modules/transactions/message-publisher.service.ts:252-275 | In every state: with fewer than 99 buffered events a publish only buffers; otherwise it starts a flush of them all and the new one |
| Publisher.MessagePublisherService.constructor | src/modules/transactions/message-publisher.service.ts:121-134 | Starts in the initial state |
| Publisher.MessagePublisherService.PublishEvent | src/modules/transactions/message-publisher.service.ts:252-275 | Buffers one event, or with 99 or more buffered starts a flush of them all in the same turn and awaits it; the whole new state, and the flush whose rejection the call will get |
| Publisher.MessagePublisherService.StartFlushEvents | src/modules/transactions/message-publisher.service.ts:280-287 | Whoever starts it, the buffer is empty afterwards and what was in it is the batch of a new flush; an empty buffer starts none |
| Publisher.MessagePublisherService.OnEmitted | src/modules/transactions/message-publisher.service.ts:289-292 | One acknowledged emit moves the first unsent event of a flush to its sent part and to what was emitted |
| Publisher.MessagePublisherService.OnEmitFailed | src/modules/transactions/message-publisher.service.ts:295-302 | The whole batch, acknowledged part included, goes back to the front of the buffer, and the error is rethrown to whoever started the flush |
| Publisher.MessagePublisherService.OnBatchSent | src/modules/transactions/message-publisher.service.ts:289-294 | A flush whose batch is sent ends |
| Publisher.MessagePublisherService.Restart | src/modules/transactions/message-publisher.service.ts:121-134 | The end of the process: buffer and suspended flushes are gone |
| Publisher.MessagePublisherService.FlushEvents | src/modules/transactions/message-publisher.service.ts:280-303 | The loop of one undisturbed flush against its specification: what is buffered, emitted and put back, when all emits succeed and when number failAt is the first to fail |
| Publisher.MessagePublisherService.GetBufferStatus | src/modules/transactions/message-publisher.service.ts:308-314 | Reports the buffer; in an honest state a full buffer means that some emit has failed |
| Consumer.EachCopyEndsOnce | src/modules/transactions/transaction-event.consumer.ts:106-181 | For every run, crashes included: copies accepted or reopened equal copies processed, dead-lettered, lost or open; without crashes each accepted copy ends in exactly one place or is open |
| Consumer.AtMostFourRunsEach | src/modules/transactions/transaction-event.consumer.ts:115-181 | For every set of events: without failed re-emits and crashes, n accepted copies cause at most 4n handler runs |
| Consumer.RunWithinBudget | src/modules/transactions/transaction-event.consumer.ts:153-180 | The budget behind it: attempts made plus attempts still allowed never exceed four per copy plus those paid for by failures |
| Consumer.FourAttemptsBeforeGivingUp | src/modules/transactions/transaction-event.consumer.ts:115-181 | For every run and event: attempts, and four for each crash after the message was dealt with, are at least four per dead-lettered or lost copy plus one per processed copy |
| Consumer.GivesUpAfterThree | src/modules/transactions/transaction-event.consumer.ts:153-170 | After a failed attempt the only possible steps of the handler are, below three retries, a re-emit that is sent or fails, and from three on a dead-letter publish that is sent or fails |
| Consumer.PoisonMessage | src/modules/transactions/transaction-event.consumer.ts:153-180 | Produced to a partition that is caught up, a message that always fails is re-emitted three times and dead-lettered after exactly four attempts, with all four copies committed |
| Consumer.SettlingLowersRank | src/modules/transactions/transaction-event.consumer.ts:153-181 | Every step other than an arrival, a failed re-emit or a crash strictly lowers a rank |
| Consumer.NeverStuck | src/modules/transactions/transaction-event.consumer.ts:145-180 | Whenever something is uncommitted such a step is possible |
| Consumer.BacklogDrains | src/modules/transactions/transaction-event.consumer.ts:171-180 | So a schedule of such steps is no longer than the rank: even messages that always fail do not block a partition |
| Consumer.HandledIsRun | src/modules/transactions/transaction-event.consumer.ts:106-181 | One handler run, in all its outcomes, is a run of the step system |
| Consumer.RestartShape | src/modules/transactions/transaction-event.consumer.ts:106-181 | After the process ended every uncommitted message is about to be handled again, and nothing else has changed |
| Consumer.TransactionEventConsumer.Emit | src/modules/transactions/transaction-event.consumer.ts:276-284 | Appends one message to one partition |
| Consumer.TransactionEventConsumer.CommitOffset | src/modules/transactions/transaction-event.consumer.ts:171-179 | Commits the offset after the message in hand |
| Consumer.TransactionEventConsumer.HandleTransactionEvent | src/modules/transactions/transaction-event.consumer.ts:106-181 | The whole new state in every outcome: success commits; failure re-emits to the target partition with the count raised if it is below three, else dead-letters, and commits; throws, without a commit, exactly when the re-emit fails |
| Pipeline.AtLeastOnce | src/modules/transactions/transaction-event.consumer.ts:159-180 | End to end, for every interleaving with failed flushes, handlers and re-emits, cut-off handlers and restarts: copies balance, and an event was published if and only if it is buffered, in flight, open at or after a committed offset, processed, dead-lettered, lost with a failed dead-letter publish or dropped by a restart |
| Pipeline.NothingDroppedExactly | src/modules/transactions/message-publisher.service.ts:280-302 | Restarts drop nothing if and only if the publisher's buffer is empty and its flushes are through at each |
| Pipeline.DrainedExactlyOnce | src/modules/transactions/transaction-event.consumer.ts:60-63 | With nothing left to do every published event was processed, dead-lettered, lost or dropped; and exactly-once holds for it if and only if the history shows no copy put back, reopened, lost or dropped |
| Pipeline.ExactlyOnceWhen | src/modules/transactions/transaction-event.consumer.ts:145-180 | A drained system has dealt with an event exactly once if and only if no step of its run was a failing flush that had sent it, a failed dead-letter publish of it, the cutting off of a handler that had dealt with it, or a restart while that was so or it was in memory |
| Pipeline.PartialFlushRepeats | src/modules/transactions/message-publisher.service.ts:290-300 | A flush that fails after its first emit: the drained system has processed that event twice |
| Pipeline.RestartRepeats | src/modules/transactions/transaction-event.consumer.ts:145-152 | A restart between handling and commit: processed twice without any failure |
| SpendLimit.DailySpendStaysWithinLimit | src/modules/smart-accounts/smart-accounts.service.ts:85-113 | For every run, whatever overlaps and wherever midnight falls, the live counter is the sum recorded today; and with amounts that are not negative and messages handled one at a time what is recorded on any day stays within the limit |
| SpendLimit.VerdictExactly | src/modules/smart-accounts/smart-accounts.service.ts:56-106 | In every reachable state, in the terms of the account: valid if and only if the account exists and is active or its rules are cached, maxDailySpend is absent or zero or the sum recorded today and the amount are within it, and allowedPrograms is absent or has the program; each refusal names the first of these that fails |
| SpendLimit.OnlyListedPrograms | src/modules/smart-accounts/smart-accounts.service.ts:100-103 | After any run every authorised request that is not recorded yet names a program its account allows |
| SpendLimit.PendingIsRecorded | src/modules/smart-accounts/smart-accounts.service.ts:108-113 | Recording any one of the pending requests raises the sum of its account on the day it is by its amount, and no other sum, and leaves the others pending |
| SpendLimit.RunExact | src/modules/smart-accounts/smart-accounts.service.ts:56-113 | The invariant of serial runs, per counter: its value mirrors the history, and the limit leaves room for the pending amount |
| SpendLimit.RunMirrors | src/modules/smart-accounts/smart-accounts.service.ts:108-113 | Counters and history agree over every run, serial or not |
| SpendLimit.OverlapWithinExactly | src/modules/smart-accounts/smart-accounts.consumer.ts:88-96 | In every reachable state, requests that are all found valid before the first is recorded leave the account within its limit if and only if what was spent and all of them together are |
| SpendLimit.TwoRequestsExceed | src/modules/smart-accounts/smart-accounts.consumer.ts:88-96 | Two valid requests of 60 side by side against a limit of 100 |
| SpendLimit.StalenessIsBounded | src/modules/smart-accounts/smart-accounts.service.ts:61-83 | In every reachable state a request is found valid if and only if the account exists, its own rules and today's sum allow it, and it is active or its rules are cached; rules of a frozen account stay cached for less than an hour |
| SpendLimit.FrozenForExactly | src/modules/smart-accounts/smart-accounts.service.ts:38-83 | An account frozen right after its creation is judged as if it were active for exactly an hour |
| SpendLimit.LimitImposedExactly | src/modules/smart-accounts/smart-accounts.service.ts:85-97 | Some request is over the limit if and only if maxDailySpend is present and not zero |
| SpendLimit.AuthorizationOutcome | src/modules/smart-accounts/smart-accounts.consumer.ts:88-113 | What the steps of one handled message amount to |
| SpendLimit.SmartAccountsService.CreateSmartAccount | src/modules/smart-accounts/smart-accounts.service.ts:24-54 | Saves a new account and caches its rules; an address that exists throws |
| SpendLimit.SmartAccountsService.ValidateTransaction | src/modules/smart-accounts/smart-accounts.service.ts:56-106 | The verdict; the rules of an active account are cached for an hour if they were not, and nothing else changes |
| SpendLimit.SmartAccountsService.RecordTransaction | src/modules/smart-accounts/smart-accounts.service.ts:108-113 | Adds to the counter of the UTC day, from zero if it has expired, and renews its TTL of a day |
| SpendLimit.SmartAccountsService.HandleAuthorizationRequest | src/modules/smart-accounts/smart-accounts.consumer.ts:77-115 | A message without ids changes nothing; otherwise it is authorised and recorded, or rejected, as validation says |
| SessionKeys.ValidMeansGranted | src/modules/smart-accounts/smart-accounts.service.ts:174-257 | In every reachable state, calls interleaved in any way: a live entry repeats its row's permissions, a valid verdict is one they give, no later after the expiry than the lag of the write; and the row is active if every entry was written for an active row |
| SessionKeys.VerdictExactly | src/modules/smart-accounts/smart-accounts.service.ts:174-257 | In every reachable state and for every use, in the terms of the row: a key that is cached, or active and not expired, gets the verdict of the first restriction the use breaks (amount, programs, operations), and valid if and only if it breaks none; any other key is refused for its row |
| SessionKeys.NewKeyExpiry | src/modules/smart-accounts/smart-accounts.service.ts:140-160 | A new key expires after its time limit, or an hour without one, and its entry is on the way to Redis for just as long |
| SessionKeys.RunCoherent | src/modules/smart-accounts/smart-accounts.service.ts:121-281 | The coherence invariant over every run |
| SessionKeys.CacheIsTransparent | src/modules/smart-accounts/smart-accounts.service.ts:184-224 | In every run whose writes of this key's entry are punctual, the verdict is always that of the table alone, whatever happens to other keys |
| SessionKeys.TransparentExactlyWhenPunctual | src/modules/smart-accounts/smart-accounts.service.ts:140-219 | In every reachable state, after a write of a creation or refill lands, cache and table agree at all later times if and only if the row is still active and the write took at most a millisecond more than rounding had cut off |
| SessionKeys.InTimeExactly | src/modules/smart-accounts/smart-accounts.service.ts:154-219 | A write leaves an entry that does not outlive its row, and belongs to an active one, exactly when punctual; no other step makes one late |
| SessionKeys.LateRefillOutlivesRow | src/modules/smart-accounts/smart-accounts.service.ts:213-219 | Created without lag, evicted, refilled with 5 seconds left and a lag of 50 ms: found valid after its expiry |
| SessionKeys.NeverValidAfterRevoke | src/modules/smart-accounts/smart-accounts.service.ts:259-281 | In every reachable state, after a revocation the key is refused as revoked whatever happens, if and only if no write of its entry was on its way |
| SessionKeys.RevokedFoundValid | src/modules/smart-accounts/smart-accounts.service.ts:152-160 | A creation suspended across the revocation of its key: found valid afterwards |
| SessionKeys.SessionKeyService.CreateSessionKey | src/modules/smart-accounts/smart-accounts.service.ts:121-160 | The row with its expiry, then the entry on its way to Redis; refused for an account that is not active or a key address that exists |
| SessionKeys.SessionKeyService.ValidateSessionKey | src/modules/smart-accounts/smart-accounts.service.ts:174-257 | Verdict from the cache or the table; marks an expired row, or sends a refill for the whole seconds left, exactly on a miss with a second or more to go |
| SessionKeys.SessionKeyService.OnWritten | src/modules/smart-accounts/smart-accounts.service.ts:155-219 | The entry is there, and its TTL counts from now |
| SessionKeys.SessionKeyService.OnWriteFailed | src/modules/smart-accounts/smart-accounts.service.ts:155-219 | The call throws and only the write is gone; a created row stays |
| SessionKeys.SessionKeyService.RevokeSessionKey | src/modules/smart-accounts/smart-accounts.service.ts:259-281 | Marks the row revoked and deletes the cache entry |
| Amm.SwapRaisesProduct | src/modules/cpi/dex.service.ts:115-131 | One swap pays out less than the reserve, keeps both reserves positive and strictly raises their product |
| Amm.QuoteMeaning | src/modules/cpi/dex.service.ts:104-147 | For every pool: which inputs a quote exists for, and that its fee is the rate (0.003 where absent or zero) of the input, its output keeps the product constant for the rest of the input, its price impact is minus the share of that rest in the deepened reserve in percent, and its minimum falls short of the output by the slippage in percent |
| Amm.HealthyQuote | src/modules/cpi/dex.service.ts:104-147 | For healthy pools: fee and price impact within their bounds, and the minimum between 0 and the output exactly for slippages between 0 and 100 |
| Amm.FeeRateRange | src/modules/cpi/dex.service.ts:115-131 | For every rate and input: the payout lies strictly between 0 and the reserve if and only if the rate is below 1, exceeds the reserve if and only if the fee exceeds input and reserve together, and the pool gains if and only if the rate is above 0 and that is not so |
| Amm.WorkingRates | src/modules/cpi/dex.service.ts:115-131 | Every swap pays out less than the reserve and leaves a gain, if and only if the rate is strictly between 0 and 1 |
| Amm.BasisPointsOverpay | src/modules/cpi/dex-pool.entity.ts:130-136 | At the documented rate of 30 a swap of 10 takes more than 152 out of a reserve of 100 |
| Amm.RunRaisesProduct | src/modules/cpi/dex.service.ts:115-131 | For every run of swaps: reserves positive, product grown, not both reserves at or below the start |
| Amm.RoundTripLoses | src/modules/cpi/dex.service.ts:104-147 | Swapping and swapping the proceeds back returns strictly less |
| Amm.TwoPiecesYieldLess | src/modules/cpi/dex.service.ts:104-147 | One swap of a + b yields more than a then b |
| Amm.SplittingNeverGains | src/modules/cpi/dex.service.ts:104-147 | Any number of consecutive pieces yields at most the one swap of their sum, and less if there are several |
| Dex.LedgerBalances | src/modules/cpi/dex.service.ts:281-357 | Over any mix of swaps, additions and removals: per token, pool = start + positions + net inflow of confirmed swaps; each position is its initial amounts and shares times the product of (1 - p/100) |
| Dex.RunBalanced | src/modules/cpi/dex.service.ts:152-357 | The same from any balanced ledger |
| Dex.RemovalSolventExactly | src/modules/cpi/dex.service.ts:319-357 | In every reachable state a removal leaves a reserve positive if and only if it takes less than start, positions and net inflow together |
| Dex.ProvidersKeepStart | src/modules/cpi/dex.service.ts:281-357 | Without swaps, under any additions of no negative amounts and removals of 0 to 100 percent, no reserve falls below its start |
| Dex.ProvidersCanLeaveExactly | src/modules/cpi/dex.service.ts:281-357 | In every state such calls and any swaps lead to, removals of any kind and order leave a reserve positive if and only if its start plus the net inflow is |
| Dex.EmptiedPositions | src/modules/cpi/dex.service.ts:319-357 | Once all positions are empty a reserve is its start plus the net inflow of the swaps |
| Dex.RemovalOverdraws | src/modules/cpi/dex.service.ts:339-357 | A provider takes 900 out of a reserve of which a swap has left 10 |
| Dex.SwapRunIsFormulaRun | src/modules/cpi/dex.service.ts:152-228 | A run of swaps, some failing on the chain, leaves the pool of the confirmed ones, healthy, with a product grown exactly if some was confirmed |
| Dex.DexService.PerformSwap | src/modules/cpi/dex.service.ts:152-228 | Quote, swap record, and balances moved only if the transaction was accepted |
| Dex.DexService.AddLiquidity | src/modules/cpi/dex.service.ts:281-314 | Shares by total liquidity, a new position, balances raised |
| Dex.DexService.RemoveLiquidity | src/modules/cpi/dex.service.ts:319-358 | Amounts, shares and balances lowered by the percentage for the owner; closed without shares |
| Marketplace.OneSalePerListing | src/modules/tokens/tokens.service.ts:777-912 | In every reachable state a listing is sold if and only if it has a sale, it has at most one, and whatever acceptBid accepts is on an active listing |
| Marketplace.RunOneSale | src/modules/tokens/tokens.service.ts:777-912 | The invariant: standing bids are on active listings, accepted bids on sold ones, one each, and every sale is the sale of its accepted bid |
| Marketplace.NeverSoldAfterCancel | src/modules/tokens/tokens.service.ts:890-912 | After a cancellation the listing stays cancelled and has no sale, whatever is called |
| Marketplace.FirstBid | src/modules/tokens/tokens.service.ts:791-815 | In every reachable state, the first bid on a new listing, any time later, is allowed if and only if it is at least the price, or on an auction if and only if the auction has not ended |
| Marketplace.SalesAreSplit | src/modules/tokens/tokens.service.ts:847-870 | In every reachable state every sale is by the seller of its listing, with the royalty and the fee that the listing says |
| Marketplace.AuctionsGoToTheHighestBid | src/modules/tokens/tokens.service.ts:799-885 | For every bid in every reachable state: on an auction bids rise strictly in order of placement, the last one alone stands while it is active, and the standing or accepted one is above all others ever placed; on a fixed-price listing it is at least the price; none stands on a closed listing |
| Marketplace.RunOrder | src/modules/tokens/tokens.service.ts:799-829 | The order invariant over every run |
| Marketplace.BidBeatsAll | src/modules/tokens/tokens.service.ts:805-813 | A bid above the one standing bid is above every bid ever placed on the auction |
| Marketplace.Retire | src/modules/tokens/tokens.service.ts:816-822 | The status update of all standing bids of one listing |
| Marketplace.MarketplaceService.HighestBid | src/modules/tokens/tokens.service.ts:805-809 | A standing bid that is at least as high as every standing bid of the listing, or none if none stands |
| Marketplace.MarketplaceService.PlaceBid | src/modules/tokens/tokens.service.ts:777-830 | Refused exactly when not allowed; outbids what stood on an auction |
| Marketplace.MarketplaceService.AcceptBid | src/modules/tokens/tokens.service.ts:832-888 | Sale with royalty and fee, listing sold, bid accepted, others rejected; refused exactly when the bid does not stand on the listing |
| Marketplace.MarketplaceService.CancelListing | src/modules/tokens/tokens.service.ts:890-912 | Only by the seller and while active; standing bids are cancelled |
| GasMeter.MeterIsDigestOfItsCharges | src/modules/svm/svm.service.ts:501-540 | In every reachable state used, count, mean and peak are those of the charges since the last full reset; used plus remaining is the allocation plus the overdraft a partial reset left, and equal to the allocation exactly if it left none; every charge is of its own successful execution |
| GasMeter.RunMetered | src/modules/svm/svm.service.ts:419-589 | The invariant over every run, executions interleaved in any way |
| GasMeter.CheckSuffices | src/modules/svm/svm.service.ts:542-564 | If the check passes, then after any run without charges to that meter, partial resets, status changes or a new meter the charge of min(units, 100000) is accepted |
| GasMeter.CheckExactly | src/modules/svm/svm.service.ts:542-564 | In every reachable state an execution starts running if and only if its program has no meter, or an active one whose remaining gas and limit per operation both cover its units |
| GasMeter.ConsumptionExactly | src/modules/svm/svm.service.ts:501-540 | What a consumption does to every field of a meter: paid exactly by an active meter with enough gas, with the mean, the peak and the rating that follow; otherwise unchanged, or exceeded |
| GasMeter.SerialExecution | src/modules/svm/svm.service.ts:191-263 | An uninterrupted execution succeeds exactly when the check passes, the transaction is confirmed and the slot can be read, and fails otherwise |
| GasMeter.ExecuteLeaves | src/modules/svm/svm.service.ts:194-263 | The whole state after an uninterrupted execution, in all its outcomes |
| GasMeter.UnchargedUnits | src/modules/svm/svm.service.ts:249-262 | An uninterrupted execution uses units that are not charged exactly when the check passed, the transaction is confirmed and the slot cannot be read |
| GasMeter.TogetherExactlyWhenSumFits | src/modules/svm/svm.service.ts:268-286 | Charges that reach an active meter one after the other are all accepted if and only if their sum fits what remains |
| GasMeter.SideBySideExactly | src/modules/svm/svm.service.ts:268-286 | Executions that passed their checks side by side and were sent all succeed, in whatever order they are charged, if and only if the active meter can pay for their units together |
| GasMeter.SideBySideOverruns | src/modules/svm/svm.service.ts:282-286 | Two executions that both pass the check and are both sent, of which one is not charged |
| GasMeter.SvmService.CreateGasMeter | src/modules/svm/svm.service.ts:419-433 | A fresh meter with all gas remaining |
| GasMeter.SvmService.UpdateGasMeter | src/modules/svm/svm.service.ts:443-453 | Tops up allocation and remaining alike; sets status, limit and auto-pause if given |
| GasMeter.SvmService.ResetGasMeter | src/modules/svm/svm.service.ts:566-589 | Full reset, or a new allocation that keeps what is used and is exceeded if that is more |
| GasMeter.SvmService.DeleteGasMeter | src/modules/svm/svm.service.ts:455-458 | Removes the meter if it exists |
| GasMeter.SvmService.CheckGasMeter | src/modules/svm/svm.service.ts:542-564 | Passes exactly when there is no meter, or it is active with enough gas and a limit that allows it |
| GasMeter.SvmService.ConsumeGas | src/modules/svm/svm.service.ts:501-540 | Updates all aggregates, or refuses and at most marks the meter exceeded |
| GasMeter.SvmService.ExecuteProgram | src/modules/svm/svm.service.ts:191-263 | Check, transaction, slot and charge in order, with the status of the execution |
| MultiSig.SentOnlyWithThresholdSigners | src/modules/signing/signing.service.ts:744-770 | In every reachable state collected signers are different and authorised and at most threshold many, and for whatever is ready, being sent or sent exactly threshold many were collected |
| MultiSig.AtMostOneSend | src/modules/signing/signing.service.ts:784-815 | If no execution of the ready transaction starts beside another, at most one send is confirmed, and executed means one was |
| MultiSig.ExecutionDecides | src/modules/signing/signing.service.ts:784-815 | In every reachable state, a ready transaction that is not on its way is executed and sent once if the network confirms it, and otherwise failed and never sent, whatever follows |
| MultiSig.TwoSendsExactly | src/modules/signing/signing.service.ts:791-806 | In every state such runs lead to, a step of any kind makes a second confirmed send possible if and only if it starts an execution of the ready transaction beside another |
| MultiSig.OverlapSendsTwice | src/modules/signing/signing.service.ts:791-806 | Two overlapping executions of one transaction can both be confirmed |
| MultiSig.CompletableExactly | src/modules/signing/signing.service.ts:651-659 | A pending transaction can still become ready if and only if its account has at least threshold different signers |
| MultiSig.SigningMakesProgress | src/modules/signing/signing.service.ts:760-770 | Every accepted signature lowers what is missing by one, and ready is reached exactly at zero |
| MultiSig.SomeoneMaySign | src/modules/signing/signing.service.ts:744-755 | With distinct configured signers a pending transaction always has someone left who may sign |
| MultiSig.PrematureExecuteKills | src/modules/signing/signing.service.ts:791-814 | Executing a pending transaction fails it for good; nothing is ever sent |
| MultiSig.StaysCompletableExactly | src/modules/signing/signing.service.ts:784-814 | In every reachable state, a pending transaction that can be brought to ready still can after a step of any kind, if and only if that step is not an attempt to execute it |
| MultiSig.SigningService.constructor | src/modules/signing/signing.service.ts:840-844 | Starts empty |
| MultiSig.SigningService.CreateMultiSigAccount | src/modules/signing/signing.service.ts:649-680 | Accepts exactly configurations with 1 <= threshold <= signers <= 11 |
| MultiSig.SigningService.CreateMultiSigTransaction | src/modules/signing/signing.service.ts:688-714 | A pending transaction requiring the account's threshold |
| MultiSig.SigningService.SignMultiSigTransaction | src/modules/signing/signing.service.ts:722-777 | Adds the signer, refused exactly when not allowed; ready at the threshold |
| MultiSig.SigningService.StartExecution | src/modules/signing/signing.service.ts:784-793 | Goes on only when ready; otherwise the transaction is failed |
| MultiSig.SigningService.FinishExecution | src/modules/signing/signing.service.ts:795-815 | Executed or failed by the outcome |
| MultiSig.SigningService.ExecuteMultiSigTransaction | src/modules/signing/signing.service.ts:784-816 | Both in one, undisturbed |
| Lending.ReservesMatchPositions | src/modules/cpi/lending.service.ts:101-346 | From pools without positions, after any run, each reserve's supplied (borrowed) level is its start plus the sum over supply (borrow) positions with a user |
| Lending.RunConserves | src/modules/cpi/lending.service.ts:101-346 | Level less holdings is constant over any run from any backed state |
| Lending.HealthMeaning | src/modules/cpi/lending.service.ts:352-376 | The check passes exactly when collateral times ratio is at least (for negative amounts: at most) 1.2 times the amount |
| Lending.BorrowOpensExactly | src/modules/cpi/lending.service.ts:146-231 | A borrow is opened if and only if the pool has the reserve and the collateral at the reserve's own ratio, or at 0.75 where it has none, is at least (for a negative amount: at most) 1.2 times the amount; and what the position then says |
| Lending.BorrowsStayCovered | src/modules/cpi/lending.service.ts:162-183 | After any run of non-negative repayments every borrow opened for a non-negative amount is covered 1.2 times for what is left of it |
| Lending.OnlyTheUserMoves | src/modules/cpi/lending.service.ts:254-257 | A position changes only through calls of its user; a failed one never |
| Lending.SupplyThenWithdraw | src/modules/cpi/lending.service.ts:101-346 | Withdrawing all that was supplied restores every level and closes the position |
| Lending.LevelsStayAboveStart | src/modules/cpi/lending.service.ts:101-346 | For all pools and runs: a level is at or above its start throughout if and only if no step that goes through takes more than all positions of that reserve hold |
| Lending.PositionsStayPositive | src/modules/cpi/lending.service.ts:275-338 | No user's position ever falls below zero if and only if every step that goes through takes at most what its position holds and opens nothing negative |
| Lending.ModestRunsKeepLevels | src/modules/cpi/lending.service.ts:275-346 | Such runs leave every level at or above its start |
| Lending.OverpaymentGoesNegative | src/modules/cpi/lending.service.ts:275-286 | Overpaying by any excess leaves a borrowed level of minus the excess |
| Lending.NothingBacksBorrows | src/modules/cpi/lending.service.ts:146-224 | From any reserve any positive amount can be borrowed, whatever is supplied |
| Lending.Find | src/modules/cpi/lending.service.ts:96-99 | The first reserve of a mint, or none if there is none |
| Lending.LendingService.FindReserve | src/modules/cpi/lending.service.ts:96-99 | The search as a loop |
| Lending.LendingService.SupplyToPool | src/modules/cpi/lending.service.ts:87-141 | Position first, then user and reserve if the transaction went through, else closed |
| Lending.LendingService.BorrowFromPool | src/modules/cpi/lending.service.ts:146-231 | The same after the health check |
| Lending.LendingService.RepayBorrow | src/modules/cpi/lending.service.ts:236-289 | For the user of a borrow position only; lowers position and reserve, closes at zero |
| Lending.LendingService.WithdrawSupply | src/modules/cpi/lending.service.ts:294-347 | The same for supply positions |
| Sorting.SortIsCanonical | src/modules/mpc/mpc.service.ts:391-394 | Two lists of signature shares sort to the same list if and only if they are the same multiset |
| Mpc.StatusTellsActiveShares | src/modules/mpc/mpc-wallet.entity.ts:147-159 | In every reachable state, for a wallet with shares: without cascade active if and only if at least threshold shares are; with cascade active implies it, and otherwise exactly threshold are; without shares active and unable to sign |
| Mpc.StatusExactWithoutCascade | src/modules/mpc/mpc-wallet.entity.ts:125-159 | Active means able to sign, in all reachable states of all wallets with shares, if and only if saves do not cascade |
| Mpc.RecoveringThatCanSign | src/modules/mpc/mpc.service.ts:263-274 | With cascade, two revocations leave a 2-of-3 wallet recovering with two active shares |
| Mpc.RunSound | src/modules/mpc/mpc.service.ts:81-275 | The invariant over every run, and that every signing had at least threshold valid shares |
| Mpc.NewWalletNumbers | src/modules/mpc/mpc.service.ts:81-152 | A wallet is created exactly for 3, 5 or 7 participants by scheme, active, with a threshold of 2, 3 or 4 and an active share for each, or without shares if one is named twice |
| Mpc.RevocationSticks | src/modules/mpc/mpc.service.ts:247-275 | A revoked share stays revoked if and only if more than threshold were active or the save does not cascade |
| Mpc.NeverSignsAgain | src/modules/mpc/mpc.service.ts:206-208 | Once a wallet is recovering no later call signs with it |
| Mpc.RevokingBelowThresholdCloses | src/modules/mpc/mpc.service.ts:263-274 | In every reachable state, after revoking an active share the wallet is active if and only if it had more than threshold; and if not, nothing is ever signed with it again |
| Mpc.QuorumOfParticipants | src/modules/mpc/mpc.service.ts:201-241 | A request of different participants is signed if and only if the wallet is active and at least threshold of them own an active share and sent a well-formed partial signature, and reports their number |
| Mpc.ShortQuorumExactly | src/modules/mpc/mpc.service.ts:201-241 | For every wallet and request: signed if and only if active and at least threshold participants take part, except exactly when fewer do and repetitions make up for them |
| Mpc.AloneExactly | src/modules/mpc/mpc.service.ts:347-378 | In every wallet, whatever its threshold, a participant can sign alone if and only if the wallet is active and the participant owns an active share |
| Mpc.RepeatedParticipantCounts | src/modules/mpc/mpc.service.ts:347-378 | One participant named twice signs for a 2-of-3 wallet, as an instance |
| Mpc.SigningIgnoresOrder | src/modules/mpc/mpc.service.ts:201-241 | Requests with the same multiset of valid partial signatures are both signed, alike, or neither is, whatever else they contain |
| Mpc.SignatureOfValidShares | src/modules/mpc/mpc.service.ts:380-403 | Whatever the hash: the signature is a function of the multiset of the valid signature shares, whoever sent them |
| Mpc.SignatureIs | src/modules/mpc/mpc.service.ts:380-403 | A signed request has the hash of its valid signature shares, sorted and joined, followed by the data |
| Mpc.SignatureTellsApart | src/modules/mpc/mpc.service.ts:380-403 | Where the hash tells two messages apart: requests with the same valid shares have the same signature if and only if their data are equal, and requests for the same data if and only if their sorted shares join alike |
| Mpc.ReorderedRequest | src/modules/mpc/mpc.service.ts:201-241 | A request in another order gets the same answer, refusals included |
| Mpc.ValidMeans | src/modules/mpc/mpc.service.ts:357-375 | What counts is well formed and of an active share's owner, and nothing that is gets left out |
| Mpc.MarkUsedMeans | src/modules/mpc/mpc.service.ts:405-411 | Signing stamps exactly the shares that took part |
| Mpc.FindActive | src/modules/mpc/mpc.service.ts:361 | An active share of the participant, or none if there is none |
| Mpc.MpcService.CreateMpcWallet | src/modules/mpc/mpc.service.ts:81-152 | Needs as many participants as the scheme has shares; repeated participants leave an active wallet without shares |
| Mpc.MpcService.ValidateParticipantShares | src/modules/mpc/mpc.service.ts:347-378 | The loop that collects what counts |
| Mpc.MpcService.ReconstructSignature | src/modules/mpc/mpc.service.ts:380-403 | Hash of the sorted, joined shares and the data |
| Mpc.MpcService.UpdateShareUsage | src/modules/mpc/mpc.service.ts:405-411 | The loop that stamps the used shares |
| Mpc.MpcService.SignTransaction | src/modules/mpc/mpc.service.ts:201-242 | The answer, with the reason of each refusal; the stamped shares and the receipt if signed, and otherwise nothing |
| Mpc.MpcService.GetActiveSharesCount | src/modules/mpc/mpc-wallet.entity.ts:157-159 | Counts the active shares |
| Mpc.MpcService.RevokeKeyShare | src/modules/mpc/mpc.service.ts:247-275 | Revokes the share and closes a wallet that had no more than threshold active ones, with or without cascade; a share that is revoked already changes nothing |

## Left out

- Races inside one database-backed call: a call of the marketplace, DEX, lending and MPC services is one step, because nothing in the code locks between reading and saving.
- An emit that is reported as failed although the broker stored the event: it would add copies, as a cut-off handler does.
- Whether an unhandled rejection ends the process: that is the runtime's setting, so the end of the process is a step that may follow a failed flush or come at any other time.
- Redelivery of a message whose handler threw or was cut off, before any later offset is committed: this is the framework's behaviour, as is any automatic commit it makes.
- Parsing of the retry-count header (anything that is not a number), and an exception thrown synchronously by a commit call: the header is a count and commits succeed or the handler is cut off.
- Several service instances in front of one buffer, and the 5-second period of the flush timer: a timer flush may come at any step.
- SessionKeys.SessionKeyService.ValidateSessionKey: Redis refusing a TTL of zero makes the call throw; the model gives the verdict and leaves the cache alone.
- What saving a lending or DEX pool does to a row that was added after the pool was loaded: the pool carries the list of positions or swaps it was loaded with (src/modules/cpi/lending.service.ts:62-66, src/modules/cpi/dex.service.ts:76-80), and the mapper may detach the new row or fail; the model saves the pool's own fields.
- A database that fails in the middle of a call.
- Redis dropping a spend counter before its TTL: the day's sum lives nowhere else.
- SpendLimit.SmartAccountsService.CreateSmartAccount: the address is an argument; the service derives it from the owner and the clock.
- SpendLimit.StalenessIsBounded: accounts change status through an operator step, because nothing in the service changes it.
- SpendLimit.DailySpendStaysWithinLimit: the limit is shown for amounts that are not negative, as a negative one recorded today can make room for a request that is recorded after midnight; amounts are integers, as INCRBY takes nothing else.
- Fractional and non-finite numbers as JavaScript has them: amounts of the DEX, the marketplace and lending are exact reals, so rounding, NaN and decimal columns that arrive as strings are not modelled; `Divisible` excludes inputs for which the swap formula divides by zero.
- Dex.DexService.PerformSwap: requires that the formula divides by nothing that is zero; the service would record NaN or infinity.
- Dex.DexService.AddLiquidity: requires a pool that is not empty; for the first deposit the service computes infinite shares.
- createOrUpdatePool of the DEX and of lending: it replaces balances wholesale, so no ledger survives it.
- Lending.BorrowsStayCovered: collateral is compared at the ratio and value the check used, as no later price or ratio is ever read.
- Storing the infinite health factor of a borrow of zero, which a decimal column rejects: such a borrow is accepted as the check accepts it.
- MultiSig.SigningService.SignMultiSigTransaction: keeps who signed, not the signature on the transaction; sending is an outcome. Thresholds are whole numbers.
- GasMeter.SvmService.CreateGasMeter: requires that the identifier has no meter; with several, the look-up may return either.
- GasMeter.SvmService.UpdateGasMeter: reset period, alert threshold and configuration are not kept, as nothing computes with them.
- Gas averages and ratings that an integer column cannot hold, and bigint columns that arrive as strings: the model keeps the computed values.
- Names of meters and of programs: resets and updates find a meter by the identifier executions use.
- Overwriting accounting fields through the update of a gas meter: the request type has no such fields and requests with unknown ones are rejected.
- Ordering of strings beyond the Basic Multilingual Plane: signature shares are compared by character code.
- Unsupported threshold schemes, generation and encryption of key shares: the first is excluded by the type, the second by the hash parameter.
- Listing creation with its ownership check on the chain, and the Expired status, which no code sets.
- Solana RPC, hardware wallets, bcrypt and JWT: outcomes only.
- Controllers, validation of requests, migrations, caches and interceptors, network failover, fee heuristics, event filters, health checks and the esports services: they would only add easy members, or their transitions are not in the code.
