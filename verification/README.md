# Questshop: a Dafny model of its transactions

Questshop sells the completion of quests. It keeps wallets, orders, runner jobs, voucher
payments and outgoing messages as database rows, and changes them in small transactions
that are made by workers which may crash at any time. This project models those
transactions in Dafny and proves what they keep, over every interleaving of every worker.

## How the model is laid out

- `Schema.dfy` holds the row types, the snapshot `Tables` of all tables, and the object
  `Database` whose fields the services write. One `withTransaction` callback is one atomic
  step; a crash is the absence of the steps that would have followed.
- For every transaction there is a specification function on `Tables` (`Wallet.dfy`,
  `Runner.dfy`, `Recovery.dfy`, `Payments.dfy`, `Checkout.dfy`, `Retention.dfy`) and an
  imperative method that writes the database row by row (`WalletService.dfy`,
  `RunnerService.dfy`, `MaintenanceWorker.dfy`, `ReviewService.dfy`, `PaymentService.dfy`,
  `CheckoutService.dfy`, `RunnerWorker.dfy`, `PaymentWorker.dfy`). The method's contract says
  that the new tables are the function's result, or the old tables when it is refused.
- `Machine.dfy` puts all transactions together as one state machine with 35 kinds of step;
  `Safety.dfy` proves that one invariant (`Frames.Inv`) holds in every reachable state.
  The invariant has six parts: money (`Money.dfy`), settlement (`Settlement.dfy`), lockstep
  of jobs and items (`Lockstep.dfy`), payment dispatch (`Payments.dfy`), promotion caps
  (`Promotions.dfy`) and the registry of refunds and customers (`Frames.dfy`).
- `Conservation.dfy`, `CheckoutLaws.dfy`, `FairQueue.dfy`, `MaintenanceLaws.dfy`,
  `PaymentLaws.dfy` and `PaymentFates.dfy` draw the consequences. `Findings.dfy`,
  `BlockedQueue.dfy` and `RunnerWorker.dfy` state where the code does less than its tables or
  comments promise, each with its exact condition.
- `MoneyEffects.dfy`, `SettlementEffects.dfy`, `ReviewEffects.dfy`, `RetentionEffects.dfy`,
  `RunnerEffects.dfy`, `MaintenanceEffects.dfy`, `PaymentEffects.dfy`, `CheckoutEffects.dfy`,
  `MutationEffects.dfy` and `OutboxEffects.dfy` say of each kind of step exactly when it goes
  through and what every row looks like afterwards. They speak about the steps of the machines
  and write states, fields and numbers out, instead of repeating the guards and constants of
  the specification, and so are a second account of each transaction that it is proved
  against.
- `LedgerGrowth.dfy` shows the ledger append-only over every step; `Transparency.dfy` compares
  any run with the same run without its prunes.
- `Story.dfy` reaches, from an empty shop, a fulfilled order and the states in which the
  findings show.
- `Mutations.dfy` is the checkpoint protocol of one job with every worker that ever held
  it; `MutationRuns.dfy` places it inside the whole shop; `Progress.dfy` runs the two
  progress loops on top of it.
- `Outbox.dfy`, `OutboxLaws.dfy` and `OutboxService.dfy` are the message outbox with its two
  nested leases. `Backup.dfy` and `BackupLaws.dfy` are the QSBK1 stream format.
  `Coordinator.dfy` is the per-account request serialiser.

Hashes (SHA-256 of ledger rows, of selections and of backups) are taken as free of
collisions: a digest is the hashed content. Idempotency keys are tagged values instead of
strings. The clock is a counter of seconds that never goes back. The provider, the quest
server, Discord and the operators are parameters of the steps, so every answer of theirs is
covered. A runner's claim is any value at all: the guards of the code decide. A payment
worker presents what it was handed, because recording and marking an attempt are not
fenced, and credits only rows that it saw REDEEMED (`Payments.SeenRedeemed`);
`PaymentWorker.ProcessClaimed` shows that its steps are of this kind.

## What does not hold

The code is kept as it is; each of these is proved with the exact condition.

- A terminal item is not final. Three unguarded writes reopen it while its job is still
  open (`Findings.TerminalItemReopensIff`, reached in `Story.CapturedItemStranded`); the
  reservation, and so the money, is unaffected (`Findings.ReleasedNeverCaptured`).
- A CAPTURE decision on a reopened item whose cents were already captured leaves the item
  SETTLING with its job completed (`Findings.CaptureDecisionStrandsIff`).
- A business failure before execution never releases its item, because FAILED_RELEASED is
  not allowed from LEASED; the job comes back after its lease has run out
  (`Findings.FailedReleaseIff`, `RunnerWorker.IgnoredFailureComesBack`).
- The comment at `src/domain/payments/service.js:180-182` says that a request that may have
  gone out never becomes RETRY_WAIT. It does, when the provider answers RATE_LIMIT
  (`PaymentLaws.RequeuedIffRateLimited`).
- A manual adjustment is idempotent only while its ledger row survives; after pruning a
  replay pays again (`Findings.AdjustmentMovesMoneyIff`, `Findings.PrunedAdjustmentReplayed`).
  Pruning is invisible over a whole run exactly when this does not happen
  (`Transparency.PruningIsInvisibleIff`).
- A mutation left unsettled by a lost worker is never settled, so the job can never prepare
  another one, not even after a RETRY decision (`Mutations.StrandedForever`,
  `Mutations.StrandedReachable`).
- A replayed dead letter whose replay was covered by another delivery stays open
  (`OutboxLaws.LetterResolvedIff`, `OutboxLaws.CoveredReplayStaysOpen`,
  `OutboxLaws.CoveredReplayReachable`).
- A backup stream whose last chunk is empty is refused although its bytes are right
  (`BackupLaws.RoundTripInChunks`).
- A queued job whose item is terminal makes every dispatch that picks it fail
  (`Lockstep.DispatchRefusedIffTerminal`). A worker that dies between releasing its item and
  failing its job leaves such a job behind (`Story.QueueBlocked`); at the head of the queue it
  keeps every worker from every job until its deadline (`BlockedQueue.BlockedUntilDeadline`).
- A payment that may have gone out can end FAILED, with nothing credited and no review: when
  its worker records an error of its own, such as a transaction id that another top-up
  carries (`PaymentFates.SentPaymentFailsIff`, reached in `Story.SpentVoucherFails`).
- `creditRedeemedTopup` would credit a top-up in review, without its owner; that this never
  happens rests on its callers (`PaymentFates.ReviewedCreditableIff`).

## Model

| member | source | states |
|---|---|---|
| `Ledger.PostKeepsBank` | src/domain/wallet/ledger.js:40-69 | posting under a fresh key extends exactly one user's hash chain by one row that links to its last row or newest checkpoint; every other wallet and book is unchanged |
| `Ledger.LinksToHistory` | src/domain/wallet/ledger.js:46-55 | the previous hash taken from the last surviving row or the newest checkpoint is the hash of the last row ever written |
| `Money.NotDueIsFresh` | src/domain/wallet/ledger.js:40-45 | the key lemma: when the guarding row says a movement has not happened, its idempotency key is on no ledger row, so the early return never follows a wallet update |
| `Money.PostKeepsMoney` | src/domain/wallet/service.js:30-56 | a posting whose movement becomes due keeps wallets, reservations and ledger in agreement |
| `Money.BalancesNonnegative` | src/domain/wallet/service.js:30-39 | both balances of every wallet are non-negative |
| `WalletLaws.ReserveOneKeepsMoney` | src/domain/wallet/service.js:86-129 | reserving one item keeps the money invariant and posts exactly its amount |
| `WalletLaws.TotalCheckSuffices` | src/domain/wallet/service.js:86-129 | once the total fits, no guard inside the reserving loop can fail, exactly the requested items become reserved and exactly the total moves from available to reserved |
| `WalletLaws.CaptureKeepsMoney` | src/domain/wallet/service.js:137-196 | capture keeps the money invariant |
| `WalletLaws.CaptureSucceeds` | src/domain/wallet/service.js:137-196 | a capture that its guards admit succeeds and takes exactly the amount from the reserved cents |
| `WalletLaws.ReleaseKeepsMoney` | src/domain/wallet/service.js:204-270 | release keeps the money invariant |
| `WalletLaws.SettleNeverInsufficient` | src/domain/wallet/service.js:137-270 | neither capture nor release is ever refused for lack of reserved cents |
| `WalletLaws.RefundKeepsMoney` | src/domain/wallet/service.js:278-336 | refund keeps the money invariant |
| `WalletLaws.RefundAlwaysPossible` | src/domain/wallet/service.js:278-336 | a captured item without a refund can always be refunded, in full |
| `WalletLaws.AdjustKeepsMoney` | src/domain/wallet/service.js:344-368 | adjustment keeps the money invariant |
| `WalletLaws.CreditKeepsMoney` | src/domain/wallet/service.js:376-481 | crediting a top-up keeps the money invariant |
| `WalletLaws.CreditKeepsBonuses` | src/domain/wallet/service.js:397-438 | a credited top-up's bonus is the one in its usage row, or zero, and every promotion cap still holds |
| `WalletLaws.ReverseKeepsMoney` | src/domain/wallet/service.js:489-536 | reversing a top-up keeps the money invariant |
| `WalletLaws.CaptureKeepsSettlement` | src/domain/wallet/service.js:66-196 | capture keeps the settlement invariant and no settled reservation changes |
| `WalletLaws.ReleaseKeepsSettlement` | src/domain/wallet/service.js:66-270 | release keeps the settlement invariant and no settled reservation changes |
| `MoneyEffects.SameBangkokDayIff` | src/domain/wallet/service.js:393-401 | two moments count for the same day of a promotion iff they lie between the same midnights seven hours ahead of UTC |
| `MoneyEffects.RedeemedIsCredited` | src/domain/wallet/service.js:376-481 | a redeemed top-up is credited iff it is in THB; principal and bonus reach its own user under one TOPUP_CREDIT row about that top-up, the usage is recorded for promotion and day, and nothing else changes |
| `MoneyEffects.AnswerReachesWallet` | src/domain/payments/service.js:172-190 | when the provider says a voucher is worth an amount and the top-up is credited, its user's available cents grow by that amount plus the bonus for it |
| `MoneyEffects.CreditIsReversed` | src/domain/wallet/service.js:489-536 | a reversal needs a reason and a credited top-up; it takes principal and bonus back under one row, or opens the owner's review when the wallet has less |
| `SettlementEffects.ItemIsCharged` | src/domain/wallet/service.js:137-196 | capture goes through iff the job's owner asks and the item is SETTLING with its cents on hold, or was captured before; it takes the amount from the reserved cents under one CAPTURE row, makes the item READY_TO_CLAIM at progress 100, and completes the order iff all its other items have ended; each refusal has its error |
| `SettlementEffects.ItemIsGivenBack` | src/domain/wallet/service.js:204-270 | release goes through iff the end is one of the four, the fence holds and the item's state allows that end, or it was released before; it gives the amount back under one RELEASE row; each refusal has its error |
| `SettlementEffects.ItemIsRefunded` | src/domain/wallet/service.js:278-336 | a refund needs a reason, a captured item at the expected version and no refund yet; the amount becomes available under one row that the refund names |
| `SettlementEffects.BalanceIsAdjusted` | src/domain/wallet/service.js:344-368 | an adjustment needs an amount, a reason and, when cents are taken, that they are there; one whose row is still on a ledger changes nothing |
| `Settlement.SettleKeeps` | src/domain/wallet/service.js:66-84 | settling an item and finalising its order keeps: ready to claim means captured, released states mean released, credential and account lock exist exactly while the order is open |
| `Settlement.ClosedOrderHoldsNothing` | src/domain/wallet/service.js:66-84 | an order whose items are all terminal is completed, has no credential and no lock, and holds no cents |
| `Settlement.OneOpenOrderPerAccount` | src/domain/checkout/service.js:362-385 | no account has two orders that are not completed |
| `Conservation.TripleAgreement` | src/domain/wallet/service.js:30-56 | in every state with the invariant: balances non-negative, reserved cents are the sum of the open reservations, the surviving rows replayed from the newest checkpoint give the wallet, and every row links to the one before |
| `Conservation.CreditedExactlyOnce` | src/domain/wallet/service.js:376-536 | a top-up's credit is on the ledger exactly once iff it is credited or reversed, on its own user's only, for principal plus bonus, and it is reversed at most once |
| `Conservation.TopupNetEffect` | src/domain/wallet/service.js:376-536 | a credited top-up has brought its user principal plus bonus, a reversed one nothing |
| `Conservation.ItemNetEffect` | src/domain/wallet/service.js:86-336 | all rows of an item together cost its customer the price while held or captured, nothing once released or refunded, and nobody else anything |
| `Retention.CandidatesArePrefix` | migrations/0006_secure_ledger_retention.sql:15-31 | the rows chosen for deletion are a prefix of the user's ledger, all older than the cutoff, and none older is left unless the limit ran out |
| `Retention.NewBoundaryAnchors` | migrations/0006_secure_ledger_retention.sql:32-41 | the boundary row always becomes a new newest checkpoint; the unique index never suppresses it |
| `Retention.PruneKeepsMeaning` | migrations/0006_secure_ledger_retention.sql:15-45 | for any cutoff, limit, users and open reviews: same wallets, same full histories, every chain still good |
| `Retention.SurvivorsReplayToWallet` | migrations/0006_secure_ledger_retention.sql:15-45 | replaying what is left from the newest checkpoint gives the wallet |
| `Retention.SurvivorsLinkToCheckpoint` | src/domain/wallet/ledger.js:46-55 | the first surviving row, or the next one appended, links to the checkpoint's chain hash |
| `Retention.PruneBooksUseBudget` | migrations/0006_secure_ledger_retention.sql:29-31 | at most the limit is deleted, and if less, no user it may touch keeps a row older than the cutoff |
| `RetentionEffects.ReviewedRowsStay` | migrations/0006_secure_ledger_retention.sql:17-27 | while a review about one of a user's surviving ledger rows is open, or any financial one, a prune takes none of that user's rows |
| `RetentionEffects.OldRowsAreCut` | migrations/0006_secure_ledger_retention.sql:11-45 | a prune of 1 to 500 rows takes the first rows of each ledger only, all from before the cutoff and none that a refund names, and puts a checkpoint with the last one's id, balances and hash in their place |
| `LedgerGrowth.MoneyMovesWithRow` | src/domain/wallet/service.js:30-56 | in every state with the invariant a settlement, refund, adjustment, credit, reversal or review decision leaves every wallet and ledger alone, or moves one wallet and writes the one row for it under a key that was free |
| `LedgerGrowth.StepAppends` | src/domain/wallet/ledger.js:40-69 | every step but a prune keeps all surviving rows unchanged and adds rows only under keys that no surviving row of any user carries |
| `LedgerGrowth.HistoryOnlyGrows` | src/domain/wallet/ledger.js:40-69 | over any run, prunes included, what was ever written stays the beginning of every user's full history |
| `Transparency.DuePostTwins` | src/domain/wallet/ledger.js:46-68 | on a pruned and an unpruned ledger a due movement posts the same row, previous hash included, or is refused alike |
| `Transparency.StepTwins` | migrations/0006_secure_ledger_retention.sql:15-45 | every other step acts alike on a pruned database and its unpruned twin, as long as both ledgers know an adjustment's key or neither does |
| `Transparency.ReplayIsFinal` | src/domain/wallet/service.js:344-368 | once an adjustment is replayed after its row was pruned, no continuation brings the two databases together again |
| `Transparency.PruningIsInvisibleIff` | migrations/0006_secure_ledger_retention.sql:15-45 | any run with prunes ends in the same tables, wallets and full histories as the run without them iff no accepted adjustment is replayed after its row was pruned |
| `Transparency.WithoutAdjustments` | migrations/0006_secure_ledger_retention.sql:15-45 | runs without manual adjustments meet that condition |
| `Promotions.BestTier` | src/domain/promotions/resolver.js:3-37 | the qualifying tier with the greatest minimum, none iff none qualifies |
| `Promotions.BonusRounding` | src/shared/money.js:21-26 | the percentage is within half a cent of the exact value and at most the principal |
| `Promotions.CreditKeepsCaps` | src/domain/promotions/resolver.js:3-37 | recording the resolved bonus keeps uses per user, bonus per user and day, and bonus at most principal |
| `Promotions.BonusIsGreatestAllowed` | src/domain/promotions/resolver.js:3-37 | no larger bonus would respect both the best tier and what is left of the daily cap |
| `Safety.StepGood` | src/domain/wallet/service.js:86-536 | every one of the 35 kinds of step keeps the whole invariant, settled reservations, fencing tokens and confirmed sessions |
| `Safety.ReachableInv` | src/workers/maintenance-worker.js:193-247 | the invariant holds in every state that any run from an empty shop reaches |
| `Safety.StaleClaimRefusedForever` | src/domain/runner/service.js:88-106 | once a job has been acquired again, no fenced operation of an earlier claim succeeds in any later state |
| `Safety.DispatchSupersedes` | src/domain/runner/service.js:143-149 | each acquisition makes every earlier claim stale |
| `Safety.StalePaymentRefusedForever` | src/domain/payments/service.js:151-162 | a claim of an earlier payment attempt never renews or records anything again |
| `Safety.SettledForever` | src/domain/wallet/service.js:137-270 | a captured or released reservation is the same in every later state |
| `Safety.OneOrderPerSession` | src/domain/checkout/service.js:489-517 | a checkout session yields at most one order in any run |
| `Safety.PromotionCapsHold` | src/domain/promotions/resolver.js:3-37 | over every run: uses per user, bonus per promotion, user and day, and bonus against principal stay within their limits, and a credited top-up's bonus is its usage row's or zero |
| `Lockstep.AcquireKeeps` | src/domain/runner/service.js:108-170 | dispatch keeps jobs and items in lockstep |
| `Lockstep.TransitionRunningKeeps` | src/domain/runner/service.js:332-350 | starting a run keeps the lockstep |
| `Lockstep.TransitionToSettlingKeeps` | src/domain/runner/service.js:352-374 | moving to settling keeps the lockstep |
| `Lockstep.CompleteJobKeeps` | src/domain/runner/service.js:376-384 | completing a job keeps the lockstep |
| `Lockstep.FailJobKeeps` | src/domain/runner/service.js:386-396 | failing a job keeps the lockstep |
| `Lockstep.CheckpointRetryKeeps` | src/domain/runner/service.js:49-72 | the retry checkpoint keeps the lockstep |
| `Lockstep.UpdateProgressKeeps` | src/domain/runner/service.js:303-330 | recording progress keeps the lockstep |
| `Lockstep.MoveToManualReviewKeeps` | src/domain/runner/service.js:539-557 | moving to manual review keeps the lockstep |
| `Lockstep.QueueItemKeeps` | src/domain/runner/service.js:398-433 | giving the next item its job keeps the lockstep |
| `Lockstep.MaintenanceKeeps` | src/workers/maintenance-worker.js:19-70 | a maintenance pass keeps the lockstep |
| `Lockstep.OpenOrderItemReviewKeeps` | src/domain/admin/operations-service.js:55-82 | an administrator's review keeps the lockstep |
| `Lockstep.CaptureDecisionKeeps` | src/domain/reviews/service.js:200-244 | a CAPTURE decision keeps the lockstep |
| `Lockstep.ReleaseDecisionKeeps` | src/domain/reviews/service.js:200-244 | RELEASE, STOP and FAIL decisions keep the lockstep |
| `Lockstep.RetryDecisionKeeps` | src/domain/reviews/service.js:200-244 | a RETRY decision keeps the lockstep |
| `Lockstep.DispatchRefusedIffTerminal` | src/domain/runner/service.js:156-168 | a dispatch is refused for its item's state iff the item is terminal |
| `RunnerEffects.DispatchedIff` | src/domain/runner/service.js:108-142 | a job is dispatched iff it is queued, due, before its deadline and compatible, nobody with such a job was served longer ago than its user, no other such job of the user became available earlier, and its item is queued |
| `RunnerEffects.DispatchGivesJob` | src/domain/runner/service.js:143-170 | a dispatch makes its worker the owner under the next token, with a lease to the clock plus the time to live; job, item, turn and clock change as said and nothing else does |
| `RunnerEffects.DispatchedRuns` | src/domain/runner/service.js:332-350 | the worker that was given the job can begin its run and renew its lease at once |
| `RunnerEffects.ClaimLasts` | src/domain/runner/service.js:88-106 | whatever everybody else commits, maintenance included, a worker owns its job to the end of its lease as long as no step is about that job and its item is not captured |
| `RunnerEffects.JobUntouchedElsewhere` | src/domain/runner/service.js:88-106 | apart from maintenance every one of the 35 kinds of step leaves every job's row that it does not name |
| `RunnerEffects.LiveLeaseSurvivesMaintenance` | src/workers/maintenance-worker.js:19-58 | maintenance leaves the row of a job whose lease still runs |
| `RunnerEffects.Renewed` | src/domain/runner/service.js:172-184 | a heartbeat goes through iff the owner of an open job sends it; then the lease ends at the clock plus the time to live |
| `RunnerEffects.RunBegun` | src/domain/runner/service.js:332-350 | a run begins iff the owner read the job as LEASED or waiting, at its version, and the item is LEASED; job and item are RUNNING then; each refusal has its error |
| `RunnerEffects.SettlingBegun` | src/domain/runner/service.js:352-374 | settling begins iff the owner read the job as RUNNING, at its version, and the item is RUNNING; the job is two versions further |
| `RunnerEffects.Checkpointed` | src/domain/runner/service.js:43-72 | the owner gives a job back: LEASED to the queue, RUNNING and VERIFYING to a retry, anything else to a person with a review |
| `RunnerEffects.MutationPrepared` | src/domain/runner/service.js:198-228 | a mutation is prepared iff the owner asks and none of the job's is IN_FLIGHT, ACCEPTED or UNCERTAIN |
| `RunnerEffects.ReviewOpened` | src/domain/admin/operations-service.js:55-82 | an administrator's review needs a reason and an item that is neither terminal nor only selected; item and open job go to a person |
| `RunnerEffects.NextMaterialized` | src/domain/runner/service.js:398-433 | the order's first reserved item gets a job while fewer than 500 are queued |
| `BlockedQueue.NobodyDispatched` | src/domain/runner/service.js:114-155 | while such a job is at the head of the queue no worker gets any job of any user |
| `BlockedQueue.BlockedUntilDeadline` | src/domain/runner/service.js:156-168 | over any run in which nobody else writes the rows the head depends on, every dispatch is refused until the job's deadline |
| `BlockedQueue.PassQueuesReleasedIff` | src/workers/maintenance-worker.js:19-31 | a maintenance pass queues a job whose item is terminal iff the item was released and the job's lease ran out before its run, or its retry is due |
| `MaintenanceLaws.MaintenanceCompleteAndSafe` | src/workers/maintenance-worker.js:193-204 | after one pass every job is where one decision on the rows before puts it: no expired lease is left, captured items stay and their jobs complete, a crashed job with a mutation IN_FLIGHT, ACCEPTED or UNCERTAIN, or crashed while settling, waits for a person with an open review, and no wallet changes |
| `MaintenanceLaws.PassReopens` | src/workers/maintenance-worker.js:37-58 | of the terminal items a pass takes back exactly the released ones whose job crashed |
| `MaintenanceLaws.ExpiredBeforeRunIsQueued` | src/workers/maintenance-worker.js:19-31 | a job whose worker vanished before running goes back to the queue with its item |
| `RunnerEffects.CrashedGoes` | src/workers/maintenance-worker.js:37-58 | a RUNNING, VERIFYING or SETTLING job whose lease ran out goes to a person, with its review open, if it was settling or has a mutation IN_FLIGHT, ACCEPTED or UNCERTAIN, and otherwise to a retry in five seconds; its item goes with it |
| `RunnerEffects.ExpiredGoesBack` | src/workers/maintenance-worker.js:19-31 | a LEASED job whose lease ran out is queued again at once, with its item |
| `RunnerEffects.RetryGoesBack` | src/workers/maintenance-worker.js:60-70 | a retry is queued again iff it is due |
| `MaintenanceEffects.CapturedCompletes` | src/workers/maintenance-worker.js:32-35 | the job of a captured item is completed, whatever it was doing |
| `MaintenanceEffects.OthersAreLeft` | src/workers/maintenance-worker.js:19-70 | every other job and item is left as it is |
| `MaintenanceEffects.PaymentsAreRecovered` | src/workers/maintenance-worker.js:136-165 | a PROCESSING top-up whose lease ran out goes to review, a retry that is due to the queue, every other one stays |
| `MaintenanceEffects.ReviewsAfterPass` | src/workers/maintenance-worker.js:37-58 | a pass opens a review exactly for each lost payment, the owner's, and for each crashed job that may have done something; the reviews there were stay |
| `FairQueue.SelectedUserHasJob` | src/domain/runner/service.js:114-142 | the user filter and the job filter agree: a selected user always yields a job |
| `FairQueue.DispatchableIffEligible` | src/domain/runner/service.js:114-142 | something can be dispatched iff some user is eligible |
| `FairQueue.NobodyOvertakesTwice` | src/domain/runner/service.js:114-155 | while a user waits with an eligible job, no other user is dispatched twice |
| `FairQueue.BoundedBypass` | src/domain/runner/service.js:114-155 | fewer dispatches than there are users overtake a waiting user |
| `PaymentLaws.AttemptsBounded` | src/domain/payments/service.js:94-118 | at most three attempts; a queued top-up has at most two and its last one is known to have failed |
| `PaymentLaws.RequeuedIffRateLimited` | src/workers/payment-worker.js:50-56 | a payment that may have gone out, or whose worker crashed, goes back to dispatch iff its live attempt is answered RATE_LIMIT with an attempt left |
| `PaymentLaws.NeverSentAgain` | src/domain/payments/service.js:151-224 | in every run without such an answer a payment that may have gone out, or whose worker crashed, never gets another attempt |
| `PaymentLaws.MaintainParked` | src/workers/maintenance-worker.js:136-165 | one maintenance pass puts a lost PROCESSING payment into review, with a review row, and sends no parked payment again |
| `PaymentFates.TopupLife` | src/domain/payments/states.js:19-35 | every change of a top-up's status by any step of anyone, which step writes which attempt, and that a claim once lost is never owned again |
| `PaymentFates.RedeemedStays` | src/workers/payment-worker.js:12-17 | a top-up once seen REDEEMED is redeemed, credited or reversed for ever, so a worker may credit what it saw |
| `PaymentFates.LostEndsIffOwnerDecides` | src/workers/maintenance-worker.js:136-165 | a payment whose lease was lost while PROCESSING, and any top-up in review, leaves that state iff the owner decides its review |
| `PaymentFates.LostUntilOwnerDecides` | src/domain/reviews/service.js:166-198 | over every run it is PROCESSING or in review, and nothing else, until the owner decides |
| `PaymentFates.ReviewedHaveReviews` | src/domain/payments/service.js:205-224 | in every reachable state a top-up in review has an open review |
| `PaymentFates.SentPaymentFailsIff` | src/workers/payment-worker.js:84-90 | a payment that may have gone out ends FAILED iff its live worker records an error of its own, or RATE_LIMIT at the last attempt; then nothing is credited and no review is opened |
| `PaymentFates.RedeemedButFailed` | src/workers/payment-worker.js:92-111 | a voucher redeemed under a transaction id that another top-up carries cannot be recorded, and ends FAILED |
| `PaymentFates.ReviewedCreditableIff` | src/domain/wallet/service.js:376-396 | crediting itself would accept a top-up in review iff it carries an amount in THB; no worker passes one |
| `PaymentFates.ClaimLivesOn` | src/domain/payments/service.js:130-149 | whatever everybody else does, a claim stays issued, its attempt stays as its worker wrote it, and a lost claim stays lost |
| `PaymentEffects.PaymentClaimed` | src/domain/payments/service.js:94-118 | the oldest queued and due top-up is claimed; its worker owns it under the next attempt, to the clock plus the time to live |
| `PaymentEffects.PaymentRenewed` | src/domain/payments/service.js:130-139 | a heartbeat goes through iff the owner of a PROCESSING top-up sends it |
| `PaymentEffects.AnswerRecorded` | src/domain/payments/service.js:151-224 | the live worker's answer is recorded as it stands: amount and provider id as the provider said, the status by reply and attempt, the review when a person must decide; only a used provider id is refused, and no other top-up changes |
| `PaymentEffects.AnswerTooLate` | src/domain/payments/service.js:151-162 | without the lease nothing is recorded |
| `PaymentWorker.RedeemedVoucherPays` | src/workers/payment-worker.js:92-111 | a worker that nobody disturbs, answered with a redeemed voucher under a new provider id, ends with the top-up credited and its user's wallet up by what the voucher was worth plus the bonus |
| `CheckoutLaws.ConfirmSucceedsIff` | src/domain/checkout/service.js:497-517 | a confirmation that its guards admit (`CheckoutEffects.AdmittedIff` writes them out) succeeds iff every line has a price and the balance covers the total; then the tables are given in full: the total moved, one row per line, the first item queued with the order's only job, order, lock, turn and session, and nothing else changed |
| `CheckoutLaws.ConfirmChargesQuote` | src/domain/checkout/service.js:236-333 | the amount charged is the total of the lines the quote was made for, in whatever order |
| `CheckoutLaws.ConfirmGood` | src/domain/checkout/service.js:362-517 | a confirmation keeps the whole invariant |
| `CheckoutLaws.TotalOfMultiset` | src/domain/checkout/service.js:27-31 | selections with the same hash have the same total |
| `CheckoutEffects.QuotedIff` | src/domain/checkout/service.js:236-266 | a quote is given iff the session is active, not over and the caller's, something is selected, and every selected quest is listed, for sale, with time enough, at the line's price and rule |
| `CheckoutEffects.QuoteRefusedFor` | src/domain/checkout/service.js:246-258 | otherwise the first line that is not on offer decides the error |
| `CheckoutEffects.ConfirmedIff` | src/domain/checkout/service.js:298-360 | a confirmation goes through iff the session is active, not over, the caller's and on the present configuration, the account was checked at most 30 seconds ago, the customer is not blocked, fewer than 500 jobs are QUEUED, LEASED, RUNNING or waiting, the selection is the quoted one, the account has no other order, every quest is still to be done and on offer at the quoted price and rule, and the wallet covers the prices |
| `CheckoutEffects.ConfirmRefusedFor` | src/domain/checkout/service.js:298-333 | the first guard that fails decides the error |
| `CheckoutEffects.LineRefusedFor` | src/domain/checkout/service.js:335-360 | then the first line that cannot be had does |
| `CheckoutEffects.OrderIsPlaced` | src/domain/checkout/service.js:362-517 | all that a confirmation writes, field by field: item rows, order, lock, job, turn, session, the total on hold and one RESERVE row per line |
| `CheckoutEffects.SessionsEnded` | src/domain/checkout/service.js:519-537 | exactly the active sessions whose time is over are ended |
| `Findings.TerminalItemReopensIff` | src/domain/runner/service.js:539-557 | exactly three writes reopen a terminal item, and only while its job is open |
| `Findings.ReleasedNeverCaptured` | src/domain/wallet/service.js:145-158 | released cents are never captured in any later state |
| `Findings.CaptureDecisionStrandsIff` | src/domain/reviews/service.js:200-244 | a CAPTURE decision leaves its item SETTLING iff its cents had been captured before |
| `Findings.FailedReleaseIff` | src/domain/runner/service.js:566-586 | a worker's failed release succeeds iff its job is past LEASED |
| `Findings.UnfencedReviewTakesLease` | src/domain/runner/service.js:539-557 | anyone's move to manual review takes the lease from the present owner |
| `Findings.AdjustmentMovesMoneyIff` | src/domain/wallet/service.js:344-368 | an adjustment moves money iff its key is on no surviving row |
| `Findings.PrunedAdjustmentReplayed` | migrations/0006_secure_ledger_retention.sql:41-43 | one adjustment, pruned and replayed, pays twice |
| `RunnerWorker.BusinessFailureBeforeRunIsIgnored` | src/domain/runner/service.js:566-601 | a business failure before execution changes nothing |
| `RunnerWorker.IgnoredFailureComesBack` | src/workers/maintenance-worker.js:19-31 | after its lease has run out the same job is queued again |
| `RunnerWorker.ResolutionIsRun` | src/domain/runner/service.js:566-586 | what a failure commits: nothing when the lease is lost; the checkpoint for a stop and for the first two passing failures; a person for an ambiguity or a broken contract; otherwise release, fail and next item, as far as none is refused |
| `RunnerWorker.Resolve` | src/domain/runner/service.js:566-586 | resolving a failure leaves exactly the tables the decision on its kind says |
| `RunnerWorker.ReleaseJob` | src/domain/runner/service.js:478-496 | release, fail, next item; a refusal stops there |
| `Story.OrderFulfilled` | src/domain/runner/service.js:498-537 | from an empty shop, a customer can pay, order, be served and be charged |
| `Story.CapturedItemStranded` | src/domain/reviews/service.js:200-244 | a run in which a captured item is reopened and then left SETTLING |
| `Story.EarlyFailureRefused` | src/domain/runner/service.js:566-586 | a run in which a worker's failed release is refused |
| `Story.PaymentRateLimited` | src/workers/payment-worker.js:50-56 | a run from an empty shop in which a payment that may have gone out is put back into the queue |
| `Story.SpentVoucherFails` | src/workers/payment-worker.js:92-111 | a run from an empty shop in which a redeemed voucher ends FAILED, uncredited and without a review |
| `Story.QueueBlocked` | src/domain/runner/service.js:478-486 | a run from an empty shop to a blocked queue: the worker dies between releasing the item and failing the job |
| `PaymentWorker.ProcessClaimed` | src/workers/payment-worker.js:92-111 | whatever the provider does, and whatever everybody else and the heartbeat commit between the worker's transactions, processing a payment is exactly this run of the shop's steps |
| `PaymentWorker.RecordOutcome` | src/workers/payment-worker.js:92-111 | the answer, then the credit of a redeemed payment; or the failure that recording raised, in vain when the lease was lost |
| `Mutations.MoveKeeps` | src/domain/runner/service.js:198-301 | every move of every worker keeps the checkpoint invariant |
| `Mutations.CheckpointPromises` | src/domain/runner/service.js:198-301 | at most one mutation is IN_FLIGHT, ACCEPTED or UNCERTAIN, they are numbered one to n, each is sent at most twice, and a verified one carries a fresh read that shows its effect |
| `Mutations.StrandedForever` | src/domain/runner/service.js:230-242 | a mutation left unsettled by a lost worker stays so for ever and no other is ever prepared |
| `Mutations.StrandedReachable` | src/domain/runner/service.js:198-242 | a run in which a worker is lost between sending and marking leads to such a stranded mutation |
| `MutationRuns.StepLives` | src/domain/runner/service.js:198-242 | no other step of anyone touches a job's mutations; only a dispatch raises its token and gives it a new owner |
| `MutationRuns.JobIsCheckpointed` | src/domain/runner/service.js:198-301 | in every state of the whole shop that a job's workers and everybody else reach, the job's rows are those of its protocol, and at most one of them is IN_FLIGHT, ACCEPTED or UNCERTAIN |
| `MutationRuns.TurnsAreRun` | src/domain/runner/service.js:198-301 | those interleavings are runs of the shop |
| `MutationEffects.MutationBegun` | src/domain/runner/service.js:198-228 | a new row is IN_FLIGHT and not sent, and there is one iff the holder asks and none is open |
| `MutationEffects.FirstAnswerMarked` | src/domain/runner/service.js:244-257 | ACCEPTED, UNCERTAIN or FAILED by how the first send ended |
| `MutationEffects.FirstReadJudged` | src/domain/runner/service.js:259-296 | VERIFIED iff the read shows the effect, UNCERTAIN without a read, and one more send otherwise |
| `MutationEffects.SecondReadJudged` | src/domain/runner/service.js:275-301 | the second read verifies or the worker gives up |
| `Progress.ExecuteMutation` | src/domain/runner/service.js:288-301 | one mutation is a run of the checkpoint protocol: at most two sends, success iff verified on a fresh read |
| `Progress.Retry` | src/domain/runner/service.js:275-286 | the controlled retry sends once more and believes only a fresh read |
| `Progress.ReadBack` | src/domain/runner/service.js:259-299 | the first verification and what follows it |
| `Progress.Video` | src/quest-engine/executors/video.js:6-51 | ends against any server; at most eight posts per missing second, two sends per post, and each post exceeds the known progress and stays within target, step and elapsed time |
| `Progress.Desktop` | src/quest-engine/executors/desktop.js:5-38 | ends against any server; at most five heartbeats per missing second and one terminal one, which is the last |
| `Outbox.FindProjection` | src/domain/outbox/service.js:20-31 | the first projection with the key, or none |
| `Outbox.RetryDelay` | src/workers/outbox-worker.js:20-26 | the backoff of the attempt, the last one from then on, unless the service asked for more |
| `OutboxLaws.StepKeeps` | src/domain/outbox/service.js:10-188 | every step keeps the outbox invariant, and tokens and delivered versions never go down |
| `OutboxLaws.ReachableOutbox` | src/workers/outbox-worker.js:67-100 | in every reachable outbox: at most six attempts while retrying, a letter for every dead event, delivered at most desired, projection tokens distinct |
| `OutboxLaws.StaleRefusedForever` | src/domain/outbox/service.js:92-188 | once event or projection was acquired again, the older holder's acknowledgement is refused for ever |
| `OutboxLaws.AcquireSupersedes` | src/domain/outbox/service.js:49-90 | each acquisition makes every other holder of the projection stale |
| `OutboxLaws.OnlyLatestWrites` | src/domain/outbox/service.js:104-126 | only the latest acquirer of a projection sets its message or delivered version |
| `OutboxLaws.DeliveryCoalesces` | src/domain/outbox/service.js:150-157 | a delivery covers every waiting event of its projection and no other |
| `OutboxLaws.LetterResolvedIff` | src/domain/outbox/service.js:158-159 | a replayed letter is resolved iff its own replay event is acknowledged |
| `OutboxLaws.CoveredReplayStaysOpen` | src/domain/outbox/dlq-service.js:6-27 | a letter whose replay was covered stays open for ever |
| `OutboxLaws.CoveredReplayReachable` | src/domain/outbox/dlq-service.js:6-27 | a run of the outbox leads to a replayed dead letter that another delivery covers |
| `OutboxLaws.AtMostOneSummary` | src/workers/outbox-worker.js:102-112 | an order's summary is claimed for sending at most once in any run |
| `OutboxEffects.ChangePut` | src/domain/outbox/service.js:10-47 | a change asks for one version more of its message, or for the first of a new one, and its event is recorded once |
| `OutboxEffects.EventTaken` | src/domain/outbox/service.js:49-90 | an event is taken iff it waits and is due or its worker is gone, its gate is open and its message is not being refreshed; both leases end at the clock plus the time to live, both tokens go up, and the worker holds both |
| `OutboxEffects.LeasesExtended` | src/domain/outbox/service.js:164-188 | a heartbeat goes through iff the holder of both sends it, and moves the end of both leases |
| `OutboxEffects.DeliveryLasts` | src/domain/outbox/service.js:49-188 | over any run in which nobody acknowledges, extends or fails this delivery, its worker holds event and projection to the end of the lease |
| `OutboxEffects.DeliveryRecorded` | src/domain/outbox/service.js:92-162 | a delivery goes through iff its worker holds both: the posted message is remembered, the old one where none was posted, the delivered version is the desired one, both leases are given up, the event and all that waits for the message are delivered, its letter is resolved, and nothing else changes |
| `OutboxEffects.DeliveryFailed` | src/workers/outbox-worker.js:67-100 | a failure goes through iff the worker holds the event: tried again after 1, 5, 15, 60, 300 or 900 seconds, dead after six attempts or when forbidden, never again for a summary; the message is forgotten only when it is missing and the worker holds the projection too |
| `OutboxEffects.SummaryClaimed` | src/workers/outbox-worker.js:102-112 | a summary is claimed iff the event's holder asks and it was not attempted before |
| `Backup.Writer.EncryptedBody` | src/adapters/s3/backup.js:54-74 | the pieces yielded are the encoding, and hash and size run over exactly them |
| `Backup.Reader.ReadExact` | src/adapters/s3/backup.js:104-113 | the next bytes of the stream, or truncated iff there are too few |
| `Backup.Reader.ReadCiphertext` | src/adapters/s3/backup.js:133-146 | exactly the announced ciphertext is fed and hashed, however it is cut |
| `Backup.Reader.ReadHeader` | src/adapters/s3/backup.js:114-120 | magic, length and header, with each fault in the code's order |
| `Backup.Reader.Download` | src/adapters/s3/backup.js:100-154 | the streaming reader computes the decoding of the whole stream, and its hash covers all of it |
| `BackupLaws.AcceptedIff` | src/adapters/s3/backup.js:100-154 | a stream is accepted iff it is laid out as magic, four length bytes, a header of at most 65536 bytes, ciphertext and sixteen tag bytes, at its own length and checksum |
| `BackupLaws.RoundTripInChunks` | src/adapters/s3/backup.js:50-154 | every cut of an encoding is read back, unless it ends in an empty chunk |
| `BackupLaws.OtherStreamsRefused` | src/adapters/s3/backup.js:128-151 | every truncation, extension or change is refused |
| `BackupLaws.WriteThenRead` | src/adapters/s3/backup.js:50-154 | writer and reader composed give back header, ciphertext and tag |
| `Coordinator.NextKeeps` | src/quest-engine/rate-limits/coordinator.js:52-75 | every event keeps the serialisation invariant |
| `Coordinator.Serialised` | src/quest-engine/rate-limits/coordinator.js:52-75 | over any interleaving: executions of one account never overlap and start in call order, tails stand exactly for accounts with outstanding calls, and the counter is their number, at most the maximum |
| `Coordinator.OldestMoves` | src/quest-engine/rate-limits/coordinator.js:61-63 | the oldest outstanding call of an account is never stuck |
| `Coordinator.RequestCoordinator.Enter` | src/quest-engine/rate-limits/coordinator.js:52-59 | the part of schedule before its first suspension |
| `Coordinator.RequestCoordinator.Exit` | src/quest-engine/rate-limits/coordinator.js:70-74 | the finally block |
| `Coordinator.RequestCoordinator.Resume` | src/quest-engine/rate-limits/coordinator.js:61 | a call gets its turn when the one before is over |
| `Coordinator.RequestCoordinator.Execute` | src/quest-engine/rate-limits/coordinator.js:64-67 | a call with its turn executes |
| `WalletService.UpdateWallet` | src/domain/wallet/service.js:19-56 | balances change as asked, or not at all when one would be negative |
| `WalletService.AppendRow` | src/domain/wallet/ledger.js:24-91 | a used key writes nothing, a fresh one appends the linked row |
| `WalletService.Finalize` | src/domain/wallet/service.js:66-84 | the order is completed iff none of its items is active |
| `WalletService.SumCents` | src/shared/money.js:28-30 | the sum of the amounts |
| `WalletService.ReserveBalance` | src/domain/wallet/service.js:86-129 | all requested items are reserved, or nothing changes |
| `WalletService.Capture` | src/domain/wallet/service.js:137-196 | leaves exactly the tables of `Wallet.CaptureReservation`, which `SettlementEffects.ItemIsCharged` writes out; refused, it changes nothing |
| `WalletService.Release` | src/domain/wallet/service.js:204-270 | leaves exactly the tables of `Wallet.ReleaseReservation`, for which `ReleaseKeepsMoney` and `ReleaseKeepsSettlement` are proved; refused, it changes nothing |
| `WalletService.Refund` | src/domain/wallet/service.js:278-336 | leaves exactly the tables of `Wallet.RefundCapturedItem`, for which `RefundAlwaysPossible` is proved; a half-made refund is undone |
| `WalletService.Adjust` | src/domain/wallet/service.js:344-368 | leaves exactly the tables of `Wallet.AdjustBalance`, for which `AdjustmentMovesMoneyIff` is proved |
| `WalletService.Credit` | src/domain/wallet/service.js:376-481 | leaves exactly the tables of `Wallet.CreditRedeemedTopup`, for which `CreditKeepsMoney` and `CreditKeepsBonuses` are proved |
| `WalletService.Reverse` | src/domain/wallet/service.js:489-536 | leaves exactly the tables of `Wallet.ReverseTopup`; too little money opens an owner review instead |
| `WalletService.PruneWalletLedger` | migrations/0006_secure_ledger_retention.sql:1-47 | the loop over users leaves exactly the tables of `Retention.PruneTables`; refused for a bad limit or a row that a refund pins |
| `RunnerService.AcquireJob` | src/domain/runner/service.js:108-170 | one dispatch, or nothing; what a dispatch gives its worker is `RunnerEffects.DispatchGivesJob` |
| `RunnerService.MoveOwnedJob` | src/domain/runner/service.js:88-106 | the transition table, then owner, token, version and running lease |
| `RunnerService.BeginRunning` | src/domain/runner/service.js:332-350 | job and item start together, or neither |
| `RunnerService.BeginSettling` | src/domain/runner/service.js:352-374 | both transitions of job and item, or none |
| `RunnerService.Complete` | src/domain/runner/service.js:376-384 | the job is completed by its owner |
| `RunnerService.Fail` | src/domain/runner/service.js:386-396 | the job is failed under whoever holds it |
| `RunnerService.CheckpointJob` | src/domain/runner/service.js:49-72 | back to the queue, to a retry or to a review, by the state it was in |
| `RunnerService.ReportProgress` | src/domain/runner/service.js:303-330 | only the owner records progress, a terminal item is left alone and no item's progress falls |
| `RunnerService.MoveToReview` | src/domain/runner/service.js:539-557 | an open job and its item go to review |
| `RunnerService.FindReserved` | src/domain/runner/service.js:402-412 | the first reserved item of the order |
| `Runner.FirstReserved` | src/domain/runner/service.js:405-412 | the first item of the order in sequence that is still reserved, none iff there is none |
| `RunnerService.Materialize` | src/domain/runner/service.js:398-433 | the next reserved item gets a job, within the queue limit |
| `RunnerService.OpenItemReview` | src/domain/admin/operations-service.js:55-82 | item and job go to review together |
| `MaintenanceWorker.RequeueExpiredJobs` | src/workers/maintenance-worker.js:19-31 | expired LEASED jobs and their items are queued again |
| `MaintenanceWorker.CompleteCapturedJobs` | src/workers/maintenance-worker.js:32-34 | the walk over the matching rows completes exactly the jobs that their captured item has outrun |
| `MaintenanceWorker.RecoverCrashedJobs` | src/workers/maintenance-worker.js:37-58 | crashed jobs go to a retry or to a review; which to which is `RunnerEffects.CrashedGoes` |
| `MaintenanceWorker.RequeueRetryJobs` | src/workers/maintenance-worker.js:60-70 | due retries are queued again |
| `MaintenanceWorker.RecoverPayments` | src/workers/maintenance-worker.js:136-165 | crashed payments go to an owner review, due retries to the queue |
| `MaintenanceWorker.Maintain` | src/workers/maintenance-worker.js:193-204 | the phases in the transaction's order |
| `ReviewService.Resolve` | src/domain/reviews/service.js:96-158 | the review walks through its states one version each, the decision is applied, or everything is rolled back |
| `ReviewService.DecideTopupReview` | src/domain/reviews/service.js:166-198 | reject, or redeem and credit in one go |
| `ReviewService.DecideItemReview` | src/domain/reviews/service.js:200-244 | retry, capture or release, or nothing |
| `ReviewEffects.RetryDecided` | src/domain/reviews/service.js:200-218 | RETRY goes through iff the person may decide and item and job are in review; both are queued again |
| `ReviewEffects.CaptureDecided` | src/domain/reviews/service.js:219-234 | CAPTURE charges the item and completes its job; one that was charged before is left SETTLING |
| `ReviewEffects.ReleaseDecided` | src/domain/reviews/service.js:160-164 | STOP ends the item STOPPED_RELEASED, RELEASE and FAIL end it FAILED_RELEASED, its cents are available again and its job fails |
| `ReviewEffects.RejectDecided` | src/domain/reviews/service.js:166-182 | only the owner rejects a top-up in review |
| `ReviewEffects.CreditDecided` | src/domain/reviews/service.js:183-198 | only the owner credits one, with a positive amount under a provider id no other top-up carries; exactly that amount and its bonus are credited |
| `PaymentService.Submit` | src/domain/payments/service.js:27-92 | a voucher is recorded once |
| `PaymentService.AcquireJob` | src/domain/payments/service.js:94-118 | the oldest payable top-up is claimed, none iff none is payable |
| `PaymentService.Record` | src/domain/payments/service.js:151-224 | the result is recorded under the lease; an ambiguous one ends in an owner review; the row it leaves is `PaymentEffects.AnswerRecorded` |
| `CheckoutService.Select` | src/domain/checkout/service.js:178-196 | the selection changes for the session's own customer |
| `CheckoutService.Quote` | src/domain/checkout/service.js:236-266 | the quote is stored iff every line is still offered (`CheckoutEffects.QuotedIff`), else the first line that is not decides the error; its total is the sum of the lines |
| `CheckoutService.PlaceOrder` | src/domain/checkout/service.js:362-445 | order, lock and items, or nothing when the account is busy |
| `CheckoutService.QueueFirstItem` | src/domain/checkout/service.js:447-472 | the first item is queued and its customer enters the scheduler |
| `CheckoutService.Confirm` | src/domain/checkout/service.js:497-517 | all of it or nothing; when, is `CheckoutEffects.ConfirmedIff`, and what, `CheckoutEffects.OrderIsPlaced` |
| `OutboxService.OutboxTables.Put` | src/domain/outbox/service.js:10-47 | one version more is wanted, one event at most is added |
| `OutboxService.OutboxTables.Take` | src/domain/outbox/service.js:49-90 | both leases, both tokens, and the projection's token into the event; the worker then holds both (`OutboxEffects.EventTaken`) |
| `OutboxService.OutboxTables.Deliver` | src/domain/outbox/service.js:92-162 | acknowledged and coalesced under both leases, or refused; the rows it leaves are those of `OutboxEffects.DeliveryRecorded` |
| `OutboxService.OutboxTables.GiveUp` | src/workers/outbox-worker.js:67-100 | retry, dead letter or best effort, by attempts and error, as `OutboxEffects.DeliveryFailed` writes out |

## Left out

- Discord screens, routing, rendering, surfaces and permission drift: no hard state.
- HTTP, S3, pg_dump, Discord and TrueMoney transport: replaced by any answer they could give; of `redeemVoucher` only the difference between written out and not written out is kept.
- Encryption: the cipher of a backup, its key lookup and the authentication by its tag are not modelled; the reader ends where decryption would begin, with header, ciphertext and tag. Voucher secrets and credentials are opaque.
- Row locks, SKIP LOCKED, serialization retries and connection pools: atomic steps replace them. The dispatch query of the outbox may therefore pick any candidate, and version checks that only repeat a row lock are dropped.
- bigint and integer widths: cents, versions and tokens are unbounded.
- Pruning of refund rows by `migrations/0011_operational_retention.sql`: refunds are kept, because a refund is given once only as long as they are.
- Audit rows, state transition rows, metrics, alerts and the messages that transactions enqueue along the way: the outbox is modelled on its own.
- Paging through a selection, selecting all quests at once, and deleting old sessions: they decide nothing that a confirmation does not check again.
- Catalogue ingestion, quest tests, monitor accounts, circuit breakers, feature gates, configuration and customer blocks: they appear as parameters (`blocked`, `receiver`, `catalogue`, `gateOpen`) or not at all.
- The states RECEIVED and VALIDATING of a top-up and WAITING_RATE_LIMIT of a job: no modelled transaction enters them.
- Changes of promotions during a run: the tiers, limits and caps of a promotion stay what they were.
- Reviews about other subjects, resolved reviews and their evidence: only unresolved reviews constrain anything.
- The concurrency limit of the request coordinator's semaphore and the global pause: they delay calls, and a woken waiter counts itself late, so no claim is made about the limit.
- Progress buckets and the messages they trigger: only the recorded progress is kept.
- Leases of `src/db/leases.js`: their token restarts when a lease is released.
- Settlement.SettleKeeps: says nothing about which item state comes next when a terminal item is reopened, because the unguarded writes allow it; see `Findings.TerminalItemReopensIff`.
- Progress.Video: covers servers that report whole seconds; sleeping is not modelled, the clock readings are arbitrary.
- Promotions.BestTier: two tiers with the same minimum are not told apart.
- WalletService.PruneWalletLedger: rows locked by another transaction, which the query would skip, do not occur in an atomic step.
- FairQueue.BoundedBypass: counts dispatches; a dispatch that is refused because its item is terminal is not one.
- RunnerEffects.DispatchGivesJob: the clock moves one second with every dispatch, so that no two dispatches share a reading; a lease of one second is therefore over at once in the model.
