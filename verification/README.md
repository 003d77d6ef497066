# ggumirror-be: verified model of the shard economy

This Dafny project models the parts of the service that move shards (the in-app
currency) or decide who owns what, and proves what their documentation promises
over all inputs, all interleavings and all runs. It needs Dafny 4.11 and nothing
else; `dafny verify dfyconfig.toml` checks everything.

## Components

- **AI generation protocol** - `GenerationModel` (one document and its atomic
  store operations), `GenerationProtocol` (the step relation: document, object,
  ledger, clock, one program counter per caller), `GenerationSafety` (what every
  run keeps), `GenerationTimed` (what delays can break, and the one step by which
  they break it), `GenerationTheorems` (what both mean), `GenerationLimits` (the
  states from which it can be broken, so that each condition is exact),
  `GenerationProgress` (recovery), `GenerationEnds` (how calls end, by what they find
  and how the outside behaves), `GenerationService` (the service and store as classes,
  proved to be the protocol's threads).
- **Shard ledger** - `LedgerModel`, `LedgerInvariant`, `Transactions` and
  `StagedMoves` (caller-owned transactions with undo), `GuestWallets`, `IapModel`
  and `IapLifecycle` (Apple purchases, refunds, reversals), `LedgerRuns` and
  `LedgerTheorems` (whole runs), `LedgerAnswers` (what each operation answers, by the
  history of the ledger), `ShardStore` and `ShardServices` (the classes),
  `OptimisticStore` (the Firestore `apply` with its retries), `Canonical` (the text
  under every id hash).
- **Marketplace** - `MarketModel`, `MarketInvariant`, `MarketBooks`,
  `MarketTakedowns` (which takedowns are compensated), `MarketTheorems`,
  `MarketLimits`, `MarketAnswers` (when each operation succeeds, by the fields of the
  listing), `MarketTransactions`, `MarketStore` (the class).
- **Around them** - `SnapshotAssets` (uploads), `Delivery` (marketplace and uploads
  together, from upload to download), `PackageCheck` (the manifest validator) and
  `PackageMeaning` (what it accepts, by the document alone), `AccountDeletion`,
  `KeyCache` (calls one after the other) and `KeyFlights` (calls that overlap).

Code that changes things step by step is a class or a method with loops
(`GenerationService`, `ShardStore`, `ShardServices`, `Transactions`, `MarketStore`,
`KeyCache.KeyProvider`, `AccountDeletion.AccountDeletionService`,
`SnapshotAssets.SnapshotService`, the collecting loops of `PackageCheck`). Each such
method is proved equal to an operation on values. The theorems are about those: what
runs of them keep, and, in the modules named `Ends`, `Answers` and `Meaning`, how each
of them ends in terms of its input alone.

## How the world enters

- Clocks, luck of external calls (works, raises without effect, raises after the
  effect), parsed JSON and verified Apple transactions are parameters. Times are
  integers; the generation protocol counts microseconds.
- An upload of a generation's object that raises has stored nothing
  (`app/ai/storage.py:84-87`); deletions, probes, debits and credits may also raise
  after taking effect.
- A store call is one atomic step, as the locks of the in-memory stores make it. A
  caller that never steps again has crashed.
- SHA-256 is taken to be free of collisions, so a hashed key is the datatype value
  that is hashed; `Canonical` proves the hashed text injective. Texts built in
  different ways (an identifier handed in, the refund of a generation, the
  ownership of a buyer) are taken to differ. Ids made with `uuid4` are new.
- `IAP_PURCHASE`, `IAP_REFUND`, `IAP_REFUND_REVERSED` and `GUEST_CLAIM` entries are
  written by their own operations only, and marketplace reasons by the marketplace
  only, as in the repository.
- In `OptimisticStore` an attempt reads a snapshot taken when it begins; its commit
  fails if a document it read has changed or one it creates exists
  (`app/shards/models.py:272-274` states the same reading of the library).
- In `KeyFlights` reading a time and comparing it, setting a time to now, and storing
  fetched keys with their time are one step each.

## Where the code and its comments differ

The model follows the code.

- `app/ai/models.py:107-109` says that creating the document and debiting are one
  transaction. They are two steps (`app/ai/service.py:154-172`). A crash between
  them, or a debit that raises without effect, is later refunded although it was
  never paid (`GenerationLimits.CrashBeforeDebitRefundsUnpaid`,
  `GenerationLimits.RaisingDebitRefundsUnpaid`). A refund answers a debit as long
  as no pending generation past its grace is unpaid, and from every state with such
  a generation the next caller refunds it (`GenerationLimits.UnpaidIsRefunded`,
  `GenerationLimits.HazardsAreExact`).
- "Never both the result and the refund" and "a success has its object" hold under
  the timing that `RECOVERY_GRACE` is chosen for
  (`GenerationTheorems.PunctualRunsAreExact`) and fail without it, because the
  refund is credited before the compare-and-set (`app/ai/service.py:243-248`) and
  the clean-up reads before it deletes (`app/ai/service.py:226-234`). The exact
  conditions are separate: the first fails from every state past the grace in which
  a pending generation is about to be uploaded, the second from every such state in
  which it is about to be confirmed, and neither fails in a run that meets no such
  state (`GenerationLimits.HazardsAreExact`, `GenerationLimits.NoHazardNoBreak`).
- `app/marketplace/store.py:685-688` says that lifting one block leaves other
  takedowns of the same source in force. A second takedown renames the block, so
  restoring that listing frees the source of the first one
  (`MarketLimits.RestoreFreesAnothersSource`);
  `MarketTheorems.CoverIsLostExactlyThere` gives the exact condition.
- `app/shards/firestore_store.py:201-206` says that a rerun after `AlreadyExists`
  takes the duplicate branch. It ends in an answer unless the claim is an orphan,
  that is, the caller's own while its event is not in the ledger
  (`OptimisticStore.RerunCommitsOnlyForOrphans`); with an orphan the call is given
  up after a second `AlreadyExists` (`OptimisticStore.OrphansAreGivenUp`). While
  purchases are the only ledger traffic of their documents there are no orphans
  (`OptimisticStore.OneRerunSuffices`); an account deletion makes one of a purchase
  that commits between its two halves (`app/auth/deletion.py:76-77`,
  `AccountDeletion.LatePurchaseIsOrphaned`); the call that meets it is that purchase
  handed in again under the same user id (`app/iap/service.py:176-183`).
- `app/marketplace/assets.py:45-46` calls asset ids UUIDs; the pattern also accepts
  a UUID followed by one newline (`PackageCheck.NewlineIsAccepted`), and a package
  that uses such an id is accepted (`PackageCheck.NonUuidIsAccepted`).
- `app/marketplace/store.py:593-601` compensates a takedown in one transaction with
  it. The in-memory listing, block and log are written before the commit, so a
  notification that raises drops the compensation alone. That is lost exactly when
  the log does not yet name the listing
  (`MarketTakedowns.CompensationIsLostExactlyThere`), and can be made up for exactly
  while the seller has not deleted the listing, by a restore and a new takedown
  (`MarketTakedowns.CompensationCanStillCome`).
- `app/auth/jwks.py:109-114` says that a failed refresh lives on the keys there are.
  An answer that is JSON but no object raises an exception that the `except` does not
  name; a lookup raises it exactly when it makes such a fetch
  (`KeyCache.OutagesDoNotShow`, `KeyCache.OddAnswerShows`).

## Model

| member | source | states |
|---|---|---|
| GenerationSafety.RunKeepsInv | app/ai/service.py:131-350 | In every state of every run - any number of callers, any interleaving, crashes anywhere, calls that raise with or without effect - document, object, ledger and every thread are consistent |
| GenerationSafety.RunEvolves | app/ai/store.py:92-145 | Between any two moments of a run the document only moves along allowed transitions and its lease only forward |
| GenerationTheorems.TerminalIsAbsorbing | app/ai/models.py:127-139 | SUCCEEDED and REFUNDED are never left and no field of the document changes afterwards |
| GenerationTheorems.LeasesOnlyGrow | app/ai/store.py:125-145 | A document that is pending now was pending all along, and each new lease is strictly later than the one it replaced |
| GenerationTheorems.OneThreadMayFinish | app/ai/store.py:92-123 | At any moment at most one caller carries the lease with which a pending generation can be finished |
| GenerationTheorems.ProviderRunsAtMostOnce | app/ai/service.py:131-217 | However often a request is repeated, the paid provider runs at most once and at most one object is uploaded |
| GenerationTheorems.SuccessWasPaidAndUploaded | app/ai/service.py:154-217 | Without any timing assumption a success has exactly one debit, of exactly the price, and one upload |
| GenerationTheorems.AtMostOneEntryEach | app/ai/models.py:202-205 | No generation is ever debited twice or refunded twice, summed over the whole ledger |
| GenerationTheorems.RefundedIsNeverShort | app/ai/service.py:241-275 | A refunded generation never leaves its owner short: one debit is answered by exactly one equal refund |
| GenerationTimed.RunKeepsTimed | app/ai/models.py:65-72 | In every run, until the grace of a generation has passed only its creating worker acts on it: nobody else closes, re-leases or refunds it, and an upload about to be confirmed is there |
| GenerationTimed.RunKeeps | app/ai/service.py:131-350 | Five guarantees that delays can break hold in every state of every run without their one slip: an unpaid generation being taken over; an object stored after the grace, while the document is pending or at all; a worker losing the compare-and-set to a pending document, or at all after the grace |
| GenerationTimed.PunctualIsSteady | app/ai/models.py:65-72 | A creating worker that uploads and confirms only within the recovery grace (it may crash anywhere) makes none of the timing slips, however slow everybody else is |
| GenerationTheorems.RefundAnswersDebit | app/ai/models.py:107-109 | If no unpaid generation is ever taken over, a refund answers exactly one debit and nobody gains a shard |
| GenerationTheorems.SuccessIsExact | app/ai/models.py:65-72 | If no object is stored after the grace into a pending generation and no worker loses the compare-and-set to a pending document, a success has exactly one debit, no refund, and its object is stored |
| GenerationTheorems.NobodyHasBoth | app/ai/service.py:389-399 | The upload half alone: picture and refund are never together |
| GenerationTheorems.SuccessHasItsObject | app/ai/service.py:219-239 | The confirmation half alone: a success has its object |
| GenerationTheorems.RefundLeavesNoResult | app/ai/service.py:321-338 | If no object is stored after the grace, a refund leaves no object behind |
| GenerationTheorems.PunctualRunsAreExact | app/ai/models.py:65-72 | With a punctual worker a success costs exactly the price and has its object, and a refund goes with neither an object nor a success |
| GenerationTheorems.AbandonNeverDeletes | app/ai/service.py:219-239 | With a punctual worker no caller ever reaches the clean-up that could delete a confirmed result |
| GenerationLimits.HazardsAreExact | app/ai/service.py:131-350 | The exact condition of each guarantee: while it is kept, it can come to be broken if and only if its hazard can be reached - past the grace, a pending generation that is unpaid, or being uploaded, or being confirmed by its worker (an upload, or a confirmation, of any generation for the two that concern closed ones) |
| GenerationLimits.NoHazardNoBreak | app/ai/service.py:131-350 | A run that meets no hazard of a guarantee does not break it |
| GenerationLimits.UnpaidIsRefunded | app/ai/service.py:292-328 | From every reachable state in which a pending generation past its grace is unpaid, the next caller refunds what was never paid |
| GenerationLimits.LateUploadGivesBoth | app/ai/service.py:243-248 | From every reachable state in which a worker is about to upload for a pending generation past its grace, the run can go on to a success with picture, debit and refund |
| GenerationLimits.LateObjectStays | app/ai/service.py:330-338 | From every reachable state with an upload still under way after the grace, the run can go on to a refund whose object stays |
| GenerationLimits.LateConfirmationLosesObject | app/ai/service.py:226-234 | From every reachable state in which a worker is about to confirm a pending generation past its grace, the run can go on to a paid success whose object is deleted |
| GenerationLimits.LateWorkerCleansUp | app/ai/service.py:219-239 | From every reachable state in which a worker is about to confirm after the grace, it can be made to reach the clean-up |
| GenerationLimits.EveryHazardIsMet | app/ai/service.py:131-217 | Every hazard is met by a run from any ledger in which the owner can pay |
| GenerationLimits.GuaranteesCanBreak | app/ai/service.py:131-350 | So each of the five guarantees fails in some run |
| GenerationLimits.RaisingDebitRefundsUnpaid | app/ai/service.py:154-172 | A debit that raises without effect is enough: its call has ended with an error, nobody has crashed, and the next call after the grace refunds what was never paid |
| GenerationLimits.CrashBeforeDebitRefundsUnpaid | app/ai/service.py:154-172 | So is a crash between the document and the debit: a reachable state that is refunded although it was never debited |
| GenerationProgress.CallsEnd | app/ai/service.py:279-350 | Every step of an unfinished call brings it closer to its end, so no call loops |
| GenerationProgress.StatusSettlesPending | app/ai/service.py:292-328 | From every reachable PENDING state past grace with an expired lease one undisturbed status call ends in SUCCEEDED if the object is there and in REFUNDED, with the refund in the ledger, if it is not |
| GenerationProgress.StatusSettlesFailed | app/ai/service.py:340-350 | From every reachable FAILED state one undisturbed status call ends in REFUNDED with the refund in the ledger |
| GenerationProgress.NothingStaysStuck | app/ai/service.py:279-290 | Whatever state crashes left an unfinished generation in, there is a time from which one status call finishes it |
| GenerationEnds.FirstCallEnds | app/ai/service.py:131-275 | How a first call ends for every ledger and every behaviour of the outside: REFUNDED, nothing paid and an exception if the owner cannot pay; SUCCEEDED with one debit, one upload and its object if all goes well; REFUNDED, or FAILED, if the drawing fails; nothing at all if the service is not ready |
| GenerationEnds.PoorOwnersLeaveNothing | app/ai/service.py:173-178 | Who cannot pay is told so, pays nothing, and leaves nothing that a later call could refund |
| GenerationEnds.StatusCallEnds | app/ai/service.py:279-350 | What an undisturbed status call makes of any document, whatever it finds and however the outside behaves; its answer is the document it leaves |
| GenerationEnds.SettledIsAnswered | app/ai/service.py:279-285 | A finished generation, and one that is pending within its grace or under a lease, is answered as it is and nothing changes |
| GenerationEnds.RepeatedCallIsStatus | app/ai/service.py:142-145 | Asking again for a generation that exists is asking for its status: the provider is not called |
| GenerationEnds.AnswersWereTrue | app/ai/service.py:131-350 | In every run, however calls disturb each other: every answer was the document at some moment between the call's arrival and its end, and an answer that says SUCCEEDED or REFUNDED still is |
| GenerationService.GenerationStore.CreatePending | app/ai/store.py:85-90 | Inserts once; a second creation answers with the first document and changes nothing |
| GenerationService.GenerationStore.Finish | app/ai/store.py:92-123 | Compare-and-set on the lease behind the transition gate; refusal changes nothing |
| GenerationService.GenerationStore.StealExpired | app/ai/store.py:125-145 | Re-leases exactly the pending documents whose lease is over |
| GenerationService.Outside.Put | app/ai/storage.py:84-87 | A put that raises has stored nothing |
| GenerationService.AIStickerService.Generate | app/ai/service.py:131-186 | Run alone, the method has exactly the effect and answer of the protocol thread that the theorems speak about; a first call ends as the fields of the world before it and the luck of its calls to the outside say |
| GenerationService.AIStickerService.Charge | app/ai/service.py:166-186 | The same for the debit and what follows from it |
| GenerationService.AIStickerService.RunJob | app/ai/service.py:188-217 | The same for provider and upload |
| GenerationService.AIStickerService.Abandon | app/ai/service.py:219-239 | The same for the worker that lost the compare-and-set |
| GenerationService.AIStickerService.Fail | app/ai/service.py:241-256 | The same for refund-then-close |
| GenerationService.AIStickerService.Refund | app/ai/service.py:258-275 | One credit under the deterministic key; an exception is reported as not yet refunded |
| GenerationService.AIStickerService.Resume | app/ai/service.py:279-290 | The same for resuming an existing document |
| GenerationService.AIStickerService.Reconcile | app/ai/service.py:292-328 | The same for stealing, probing and settling |
| GenerationService.AIStickerService.SweepOrphan | app/ai/service.py:330-338 | The same for the best-effort clean-up |
| GenerationService.AIStickerService.RetryRefund | app/ai/service.py:340-350 | The same for the repeated refund |
| GenerationService.AIStickerService.Status | app/ai/service.py:381-387 | The same for the status call of the owner: it answers the document that it leaves, a finished one as it is; for anybody else the generation is missing and nothing changes |
| GenerationService.AIStickerService.Result | app/ai/service.py:389-407 | The image is handed out exactly to the owner of a SUCCEEDED generation within its retention, while the object is there; REFUNDED is answered as not made and PENDING within the grace as pending |
| LedgerInvariant.WriteKeepsCore | app/shards/store.py:305-318 | Appending one entry under a fresh key keeps wallets, entries, running balances and key index consistent |
| LedgerInvariant.ApplyKeepsCore | app/shards/store.py:252-318 | Every outcome of the general movement keeps that consistency |
| LedgerInvariant.ProjectBalances | app/shards/models.py:94-110 | balance = sum of entries = earned - spent - refunded + refund reversed |
| LedgerInvariant.KeyLabelsOneEntry | app/shards/store.py:236-237 | A key labels exactly one entry if it is applied and none otherwise |
| LedgerInvariant.MovedUnderKey | app/shards/store.py:270-274 | The ledger moved the applied entry's amount under a key, once |
| LedgerRuns.StepKeepsSound | app/shards/store.py:252-562 | Every ledger operation keeps the joint invariant of wallets, hand-over pairs and Apple transactions |
| LedgerRuns.RunKeepsSound | app/shards/store.py:222-562 | So does every run of operations in any order with any repetition |
| LedgerTheorems.WalletsMatchLedger | app/shards/models.py:83-110 | After every run each wallet is the projection of the ledger, is not negative, and its totals add up |
| LedgerTheorems.BalanceAfterIsRunningTotal | app/shards/models.py:113-133 | Each balance_after is its owner's running total at that entry and never negative |
| LedgerTheorems.KeyAppliesAtMostOnce | app/shards/store.py:270-274 | After every run each event of a user is in the ledger at most once |
| LedgerTheorems.LedgerIsAppendOnly | app/shards/models.py:3-7 | Nothing written is changed or removed by whatever comes later |
| LedgerTheorems.QuotaCountsItsCredits | app/shards/store.py:276-310 | A quota counter is exactly the number of credits it let through; duplicates and refusals use nothing up |
| LedgerTheorems.QuotaIsNeverPassed | app/shards/models.py:136-150 | No run gets more credits through a quota than its limit |
| LedgerAnswers.OthersLeaveTheQuota | app/shards/service.py:70-76 | A gated credit leaves the counter of every other user, reason and period as it was: a counter moves by that user's own credits for that reason in that period only |
| LedgerAnswers.QuotaIsWentThrough | app/shards/service.py:70-76 | After any run a counter is the number of credits of its user, reason and period that went through |
| LedgerAnswers.CreditAnswers | app/shards/service.py:80-110 | After any run a credit goes through if and only if its amount is in range, the user's ledger has no entry of this event for this reason, and fewer than the limit of the user's credits went through in the period; it then books one entry, and every refusal has its own error and changes nothing |
| LedgerAnswers.DebitAnswers | app/shards/service.py:112-120 | After any run a debit goes through if and only if its amount is in range, its event is new and the entries of the user add up to the amount; otherwise nothing changes |
| LedgerTheorems.BalancesAddUpToLedger | app/shards/store.py:305-318 | The balances of everybody add up to the sum of all entries |
| LedgerTheorems.OtherFeaturesAreElsewhere | app/shards/store.py:252-562 | Every operation of another feature is an environment step of the generation protocol: it keeps the invariant and the generation's two keys |
| LedgerTheorems.OtherOperationsAreCommits | app/shards/firestore_store.py:85-216 | Hand-overs, Apple notices and staged batches are commits that the interleavings of the optimistic store allow for |
| GuestWallets.HandOverOutcome | app/shards/store.py:531-562 | A hand-over never fails (the broken-pair error is unreachable) and moves the whole guest balance the first time, nothing for a pair handed over before |
| GuestWallets.HandOverConserves | app/shards/store.py:543-562 | What the guest loses the owner gains, the guest ends empty, nobody else is touched |
| GuestWallets.HandOverKeepsPairs | app/shards/store.py:543-562 | Of a pair's two keys both are applied or neither |
| GuestWallets.HandOverKeepsCore | app/shards/store.py:531-540 | A hand-over keeps the ledger consistent |
| LedgerTheorems.HandedOverOnce | app/shards/store.py:531-562 | After a hand-over that moved something, neither direction ever moves anything again, whatever happens in between |
| LedgerTheorems.ClaimsKeepTheirOwners | app/shards/store.py:252-455 | A claim is never removed and never changes hands, whatever runs on any ledger |
| IapModel.RequestedIsRoundedShare | app/iap/refunds.py:57-77 | The prorated amount is the floor of the exact milliunit share, at least 1, at most the purchase; a full refund is the purchase |
| IapModel.RequestedIsMonotone | app/iap/refunds.py:57-77 | A larger percentage never takes back less |
| IapLifecycle.PurchaseKeepsAt | app/iap/service.py:161-195 | A pay-out keeps claim, key and net amount of every Apple transaction in agreement |
| LedgerAnswers.PurchaseAnswers | app/iap/service.py:122-195 | After any run a purchase is paid out if and only if nobody was paid for it yet; its owner is answered with the entry there is, everybody else is refused |
| IapLifecycle.RefundKeepsAt | app/shards/store.py:320-392 | A refund keeps 0 <= reversed <= recovered <= requested <= original and the net amount in agreement with the documents |
| IapLifecycle.RefundKeepsCore | app/shards/store.py:349-374 | A refund keeps the ledger consistent |
| IapLifecycle.ReversalKeepsAt | app/shards/store.py:394-455 | A reversal keeps the same bounds and agreement |
| IapLifecycle.ReversalKeepsCore | app/shards/store.py:422-446 | A reversal keeps the ledger consistent |
| IapLifecycle.EarlyReversalLosesNothing | app/iap/refunds.py:175-229 | A reversal before its refund is refused without a trace; repeated right after the refund it restores the very balance there was |
| IapLifecycle.RefundTakes | app/shards/store.py:349-392 | A first valid refund lowers the balance by the smaller of balance and request, never below zero, and records exactly that |
| IapLifecycle.RefundAnswers | app/iap/refunds.py:84-229 | A REFUND is acted on if and only if the purchase was credited to the account of its token, product and environment agree and its share is usable; it is skipped exactly when it names no account or kind to act on or an unknown purchase; it is a mismatch exactly when account, product or environment differ |
| LedgerAnswers.RefundAmounts | app/shards/store.py:349-392 | What a REFUND that is acted on answers and does: the first takes the smaller of balance and share, as a refund and not as spending; a repetition changes nothing and tells again what was taken |
| IapLifecycle.ReversalGivesBack | app/shards/store.py:410-455 | A reversal raises the balance by exactly what the record still owes and records it |
| LedgerAnswers.ReversalAmounts | app/iap/refunds.py:175-229 | When a REFUND_REVERSED is skipped, an error or acted on, and that it then gives back and answers what was taken and not yet given back |
| LedgerTheorems.AppleTransactionIsBounded | app/iap/refunds.py:84-229 | Under any duplication and order one Apple transaction credits at most one user once and its net contribution stays between 0 and the purchase |
| LedgerTheorems.EarlyReversalIsMadeUp | app/iap/refunds.py:175-229 | A reversal before its refund is refused without a trace; repeated after the refund and after any other operations it succeeds, gives back what is still due, and nothing of the purchase is missing |
| LedgerTheorems.RefundsFollowTheToken | app/iap/service.py:122-195 | The REFUND of a credited purchase, whenever it comes, is acted on if and only if the purchase was credited to the account its token names; one credited through a claimed guest is a mismatch for ever |
| ShardServices.IapService.Credit | app/iap/service.py:122-195 | A verified transaction whose token names the user, or a guest the user has claimed, is paid out under one global claim, as the Apple theorems assume; any other is refused without a trace |
| ShardServices.OnlyOwnersAreCredited | app/iap/service.py:123-161 | A purchase is paid out to a user if and only if its token names that user, or a guest whose wallet went to that user |
| ShardServices.IapService.Handle | app/iap/refunds.py:84-170 | Notifications that cannot be acted on, and unknown purchases, change nothing and raise nothing; all others are the refund of the theorems |
| ShardServices.IapService.HandleReversal | app/iap/refunds.py:175-229 | Unknown purchases change nothing; a refund not yet seen is an error so that the notice comes again; all others are the reversal of the theorems |
| ShardServices.ShardLedgerService.Credit | app/shards/service.py:80-110 | Amounts outside 1..100000 are refused; the key is made of user, reason and event, the quota of user, reason and period; the rest is the movement of the run theorems, under the claim if one is given |
| ShardServices.ShardLedgerService.Debit | app/shards/service.py:112-120 | The same for spending |
| Transactions.AllOrNothing | app/shards/store.py:207-219 | A commit applies every write or leaves the state exactly as it was, wherever a write raises |
| Transactions.InMemoryTransaction.Commit | app/shards/store.py:207-219 | Forward loop and reverse undo loop compute that outcome, empty the write list and count only successes |
| Transactions.CommitThenLast | app/shards/store.py:207-219 | The last write needs no undo |
| StagedMoves.StagedRefinesSerial | app/shards/store.py:470-527 | A staged batch is accepted exactly when no wallet is changed twice and every movement would succeed one by one, and then writes the same ledger and answers alike |
| StagedMoves.StagedFailsAlike | app/shards/store.py:470-527 | A batch is refused because it changes a wallet twice or for want of shards; if for want of shards, it fails one by one for the same reason |
| StagedMoves.BatchCommitsSerially | app/shards/store.py:459-527 | Committing an accepted batch gives the serial ledger |
| StagedMoves.FailedCommitLeavesNothing | app/shards/store.py:207-219 | If any other write raises, before, between or after the shard writes, no part of the ledger changes |
| StagedMoves.WriteIsReversible | app/shards/store.py:510-524 | The undo of a shard write restores the exact ledger |
| StagedMoves.ClaimPreventsLostUpdate | app/shards/models.py:268-277 | The wallet claim refuses a second movement of one wallet; without it the first movement would be lost |
| ShardStore.ShardTransactionContext.Claim | app/shards/models.py:268-277 | A wallet can be claimed once per attempt |
| ShardStore.InMemoryShardStore.Apply | app/shards/store.py:252-318 | Claims owned by others are refused first, then duplicates answered without writing, then the full quota, then an overdraft; only then entry, wallet, key, counter and claim are written together - exactly the movement of the run theorems |
| ShardStore.InMemoryShardStore.Refund | app/shards/store.py:320-392 | Takes back what is there up to what was requested and records both amounts; a second notification changes nothing - exactly the refund of the Apple theorems |
| ShardStore.InMemoryShardStore.ReverseRefund | app/shards/store.py:394-455 | Gives back what a recorded refund still owes, once; without a record it is an error - exactly the reversal of the Apple theorems |
| ShardStore.InMemoryShardStore.ApplyInTransaction | app/shards/store.py:470-527 | Stages one movement against the committed state and leaves the store as it is |
| ShardStore.InMemoryShardStore.ClaimGuestWallet | app/shards/store.py:531-562 | Both sides staged and committed through the transaction give exactly the hand-over that conserves shards |
| OptimisticStore.CommitIsSerial | app/shards/firestore_store.py:107-194 | A commit computed from a snapshot whose documents are unchanged writes and answers what the in-memory movement would now |
| OptimisticStore.CommitNeedsOnlyItsDocuments | app/shards/firestore_store.py:107-194 | An attempt can commit if and only if its wallet and its quota are as it read them and its event and its claim are still missing; no other commit disturbs it |
| OptimisticStore.LoneCallIsServed | app/shards/firestore_store.py:85-216 | A call that nobody disturbs commits in its first attempt, and its ledger and answer are those of the in-memory store |
| OptimisticStore.OvertakenCallIsRerun | app/shards/firestore_store.py:85-216 | A call that another commit overtakes can be aborted, run again and is then answered from the new ledger |
| OptimisticStore.RunKeepsInv | app/shards/firestore_store.py:85-216 | Every interleaving of attempts, aborts, collisions and reruns keeps the committed history in order |
| OptimisticStore.AnswersAreLinearizable | app/shards/firestore_store.py:85-216 | Every answer is the in-memory answer in a state between the call's arrival and now |
| OptimisticStore.RunsSerialize | app/shards/firestore_store.py:196-212 | The ledger is what the committed calls leave behind one after the other, in commit order |
| OptimisticStore.ExactlyOneApplies | app/shards/firestore_store.py:109-113 | Of all calls with one key exactly one answers that it applied, once the key is in the ledger, and none before |
| OptimisticStore.RerunCommitsOnlyForOrphans | app/shards/firestore_store.py:201-210 | The rerun after AlreadyExists goes on to commit if and only if the claim is the caller's own while its event is missing; otherwise it answers |
| OptimisticStore.OrphansAreGivenUp | app/shards/firestore_store.py:196-212 | From every ledger with such a claim a run in which the call collides, is rerun, collides again and is given up with nothing written |
| OptimisticStore.OrphanedPurchaseIsGivenUp | app/shards/firestore_store.py:196-212 | Such calls exist among purchases, for every user, transaction and amount |
| OptimisticStore.OrphansNeverCommit | app/shards/firestore_store.py:176-187 | In that case the rerun can never commit |
| OptimisticStore.OneRerunSuffices | app/shards/firestore_store.py:201-210 | For purchases, whose claim and key go together, no run reaches a second AlreadyExists |
| MarketBooks.StepKeepsInv | app/marketplace/store.py:233-702 | Every seller, buyer and operator operation, a takedown whose notification raises included, and every other ledger operation, keeps titles, counters, relations, blocks, log, keys and sums in agreement |
| MarketBooks.RunKeepsInv | app/marketplace/store.py:233-702 | So does every run |
| MarketTheorems.EconomyIsClosed | app/marketplace/store.py:306-622 | Over any run the marketplace changes the number of shards by one fee per listing ever published and one compensation per listing that was taken down with its seller told - per listing ever taken down, if no notification raises - and by nothing else |
| MarketTheorems.CompensationsAreExact | app/marketplace/store.py:573-622 | After every run exactly the listings are compensated that some takedown with a working notification took down; they were all down, and are all that ever were if no notification raises |
| MarketTheorems.BalancesAreAccounted | app/marketplace/store.py:306-622 | After every run all balances together are what came from outside the marketplace, plus the compensations paid, less the fees; the compensations are those of all takedowns if no notification raises |
| MarketTheorems.BalancesFollowFees | app/marketplace/store.py:573-622 | With nothing else running, all balances together are the compensations paid less the fees |
| MarketTheorems.PurchaseIsExact | app/marketplace/store.py:417-482 | A purchase moves exactly the price from buyer to seller, touches no other wallet, and brings ownership and notice with it |
| MarketAnswers.AcquireAnswers | app/marketplace/store.py:401-482 | A purchase succeeds if and only if the listing is PUBLISHED, dated and not removed, is not the buyer's own nor owned yet, and the balance covers the price; each refusal has its own answer and changes nothing; a success moves exactly the price, in two entries and two wallets, counts one download and adds ownership and notice |
| MarketAnswers.OwnersBoughtVisibly | app/marketplace/store.py:401-482 | Over any run, whoever comes to own a listing bought it in a step at which it was published and not removed |
| MarketAnswers.PublishAnswers | app/marketplace/store.py:306-384 | A publication succeeds if and only if it is the seller's own draft or unlisted listing, active, of an unblocked source, under a name no other published listing has, and its fee is paid or the balance covers it; what it then changes, and each refusal |
| MarketAnswers.DraftAnswers | app/marketplace/service.py:70-111 | A draft is made exactly of the seller's own snapshot at a price from 0 to 999, with nothing published, paid or counted |
| MarketAnswers.SnapshotAnswers | app/marketplace/store.py:549-554 | A snapshot is stored once and never replaced |
| MarketAnswers.UnpublishAnswers | app/marketplace/store.py:386-397 | Unpublishing does something exactly to the seller's published listing, and frees its name |
| MarketAnswers.DeleteAnswers | app/marketplace/store.py:286-304 | Deleting does something exactly once to the seller's listing, and frees its name if it was published |
| MarketAnswers.LikeAnswers | app/marketplace/store.py:497-517 | A like succeeds if and only if the listing can be seen, is not the user's own and is not liked yet; it then counts one more |
| MarketAnswers.UnlikeAnswers | app/marketplace/store.py:519-542 | A like can be taken back exactly while it is there, whether or not the listing can still be seen |
| MarketAnswers.TemplateAnswers | app/marketplace/service.py:355-368 | The template is given exactly to the seller and to owners, whatever the status of the listing |
| MarketAnswers.TakedownAnswers | app/marketplace/store.py:573-622 | A takedown does something exactly to an active listing: removed, its known source blocked in its name, logged, and compensated once |
| MarketAnswers.UnnoticedAnswers | app/marketplace/store.py:573-622 | A takedown whose notification raises does the same but for the compensation, and ends in an error |
| MarketAnswers.RestoreAnswers | app/marketplace/store.py:624-645 | A restore does something exactly to a removed listing that is not deleted: active again, its own block lifted and no other, logged |
| MarketAnswers.OtherFeaturesRunAlike | app/marketplace/store.py:233-702 | A run of other features only is a run of the ledger and leaves the marketplace alone |
| MarketTheorems.OnlyPovertyStopsAPurchase | app/marketplace/store.py:425-436 | The ledger refuses a purchase only for want of shards; WalletAlreadyChanged does not occur |
| MarketTheorems.OnlyPovertyStopsPublication | app/marketplace/store.py:345-359 | The ledger refuses a publication only for want of the fee |
| MarketTheorems.TakedownsAlwaysSucceed | app/marketplace/store.py:573-602 | A takedown is never refused by the ledger |
| MarketTheorems.ChargesHappenOnce | app/marketplace/store.py:604-622 | Fee, compensation and both sides of a price are in the ledger exactly once each, exactly when due; a compensation is due to a takedown whose notification works, which is every takedown of a run in which none raises |
| MarketTheorems.PublishedTitlesAreUnique | app/marketplace/models.py:97-116 | No two published listings share a name |
| MarketTheorems.TitleClaimsAreExact | app/marketplace/store.py:299-302 | A name is claimed by a listing exactly while it is PUBLISHED under it |
| MarketTheorems.CountersAreExact | app/marketplace/store.py:468-542 | download_count and like_count are the numbers of ownerships and likes |
| MarketTheorems.LikesNeverDisagree | app/marketplace/store.py:497-542 | LikeCountInconsistent is unreachable |
| MarketTheorems.RunEvolves | app/marketplace/models.py:227-254 | DELETED is final, a paid fee stays paid, published_at is written once, identity never changes, ownerships and snapshots stay |
| MarketTheorems.OwnersKeepTheirCopy | app/marketplace/service.py:355-368 | Whatever sellers and operators do later, an ownership stays and the template stays available to its owner |
| Delivery.OwnersDownloadForEver | app/marketplace/service.py:258-377 | Across any interleaving of trading and of uploads that fail or stop: an owner of a listing downloads the manifest bytes and each image its seller uploaded, and no other image, at once and for ever |
| Delivery.OnlyOwnersDownload | app/marketplace/service.py:355-368 | At every moment of such a run exactly the seller and the owners of a listing can download it |
| Delivery.EveryPackageCanBeDelivered | app/marketplace/service.py:258-389 | For every package, seller, buyer and price there is a run in which the package is uploaded, listed, bought and downloaded by its buyer exactly as it was uploaded |
| Delivery.RunKeeps | app/marketplace/service.py:258-368 | Marketplace and storage know the same complete snapshots in every state, and what is documented or bought stays |
| MarketTheorems.OnlyOperatorsModerate | app/marketplace/models.py:60-71 | Without an operator no run changes a moderation status, a block or the log |
| MarketTheorems.LogAgreesWithStatus | app/marketplace/store.py:690-702 | Each listing's log alternates takedown and restore and agrees with its status |
| MarketTheorems.BlockOwnersAreRemoved | app/marketplace/store.py:669-688 | A block belongs to a listing that is removed and was made from that very source |
| MarketTheorems.BlockedSourcesStayDown | app/marketplace/store.py:313-343 | A listing enters PUBLISHED only by its seller's publication, never removed or deleted, never while its source is blocked |
| MarketTheorems.CoverIsLostExactlyThere | app/marketplace/store.py:685-688 | Removed listings keep their sources blocked under every operation, except exactly a restore of the listing a shared block is named after |
| MarketLimits.RestoreFreesAnothersSource | app/marketplace/store.py:676-688 | A run that reaches that exception: the source of a listing still removed is published again under a new listing |
| MarketTakedowns.CompensationIsLostExactlyThere | app/marketplace/store.py:593-601 | A takedown and its compensation go together under every operation, except exactly a takedown whose notification raises of a listing that the log does not yet name |
| MarketTakedowns.StepCompensates | app/marketplace/store.py:604-622 | A listing gets its compensation by a takedown whose notification works and by no other operation |
| MarketTakedowns.CompensationCanStillCome | app/marketplace/store.py:624-645 | A removed listing that was not compensated still can be, in some later run, if and only if its seller has not deleted it |
| MarketTakedowns.RestoreLetsPay | app/marketplace/store.py:604-645 | The next takedown after a restore pays it |
| MarketLimits.UnnoticedTakedownPaysNothing | app/marketplace/store.py:593-601 | After a first takedown whose notification raises the listing is down and logged, the compensation is not paid, and taking the listing down again changes nothing; after a restore the next takedown pays, and for a deleted listing no later run does |
| MarketTransactions.PublishIsAllOrNothing | app/marketplace/store.py:348-379 | Every publication, the first and later ones, commits fee if due, listing and title together, or none of them wherever a write raises |
| MarketTransactions.PurchaseCommits | app/marketplace/store.py:423-475 | A purchase, free or not, commits its movements, ownership, counter and notice together |
| MarketTransactions.FailedPurchaseLeavesNothing | app/marketplace/store.py:455-475 | If any write of it raises, the notification included, nothing of it remains |
| MarketTransactions.TitleClaimIsReversible | app/marketplace/store.py:374-376 | Undoing a title claim is exact because the title was free |
| MarketStore.InMemoryMarketplaceStore.Publish | app/marketplace/store.py:306-384 | The checks in their order, then fee, listing and title through one commit: the publication of the run theorems |
| MarketStore.InMemoryMarketplaceStore.Unpublish | app/marketplace/store.py:386-397 | Takes a published listing down, releases only its own title, leaves everything else |
| MarketStore.InMemoryMarketplaceStore.Delete | app/marketplace/store.py:286-297 | Ends a listing for good, releases only its own title, leaves everything else |
| MarketStore.InMemoryMarketplaceStore.Acquire | app/marketplace/store.py:401-482 | Owners change nothing, sellers are refused, and a purchase commits movements, ownership, counter and notice together: the purchase of the run theorems |
| MarketStore.InMemoryMarketplaceStore.Like | app/marketplace/store.py:497-517 | Relation and counter change together, once per user, never for one's own listing |
| MarketStore.InMemoryMarketplaceStore.Unlike | app/marketplace/store.py:519-542 | Relation and counter change together; without a relation nothing changes |
| MarketStore.InMemoryMarketplaceStore.CreateSnapshot | app/marketplace/store.py:549-554 | A snapshot id is never overwritten |
| MarketStore.InMemoryMarketplaceStore.Takedown | app/marketplace/store.py:573-602 | A second takedown changes nothing; a first one removes, blocks, logs and compensates: the takedown of the run theorems - unless the notification raises, which drops the compensation only |
| MarketStore.InMemoryMarketplaceStore.Restore | app/marketplace/store.py:624-645 | Never revives a deleted listing; otherwise reactivates, lifts only its own block and logs |
| MarketStore.InMemoryMarketplaceStore.BlockSource | app/marketplace/store.py:669-676 | The last takedown of a source names its block |
| MarketStore.InMemoryMarketplaceStore.UnblockSource | app/marketplace/store.py:678-688 | Only a block named after this very listing is lifted |
| KeyCache.FetchRateIsBounded | app/auth/jwks.py:70-98 | Whatever key ids are asked for and however fetches fail, calls that follow one another make at most 2 * (floor(T / interval) + 1) fetches in a span T |
| KeyCache.FetchRateIsTight | app/auth/jwks.py:70-124 | For every n there are calls over a span of n intervals that fetch 2 * (n + 1) times: the bound is met |
| KeyFlights.FetchesAreBounded | app/auth/jwks.py:70-124 | The provider has no lock: with at most k calls in flight at any moment, however they interleave, a span T sees at most 2 * k * (floor(T / interval) + 1) fetches |
| KeyFlights.RunKeepsInv | app/auth/jwks.py:70-124 | In every state of every interleaving any k + 1 fetches for one reason span at least the interval |
| KeyFlights.BoundIsMet | app/auth/jwks.py:70-124 | For every k a run of k overlapping calls makes 2 * k fetches at one moment |
| KeyFlights.LoneCallIsALookup | app/auth/jwks.py:70-124 | A call that meets no other does, step by step, exactly what one whole lookup does |
| KeyCache.CacheNeverEmpties | app/ads/verifier.py:122-143 | Once there are keys there always are; a fetch that fails or brings none changes nothing |
| KeyCache.OutagesDoNotShow | app/auth/jwks.py:100-124 | While there are keys no lookup reports an outage; an exception reaches the caller if and only if a fetch it makes raises one that the cache does not catch |
| KeyCache.OddAnswerShows | app/auth/jwks.py:100-124 | An answer that is JSON but no object raises out of the lookup of a key that the cache has |
| KeyCache.LookupAnswers | app/auth/jwks.py:70-124 | When a lookup answers a key, and which; when it fails, and with which exception; which fetches it makes and what it leaves in the cache - by the age of the cache, the two throttles and what the fetches bring |
| KeyCache.RotatedKeyIsFound | app/auth/jwks.py:84-98 | A key that was rotated in is answered by the first lookup that may look for it, and kept |
| KeyCache.FreshCacheIsServed | app/auth/jwks.py:70-83 | Within its lifetime a cache answers the keys it has, fetches nothing and stays as it is |
| KeyCache.KeyProvider.Find | app/auth/jwks.py:70-87 | The method is the modelled lookup and makes exactly its fetches |
| KeyCache.KeyProvider.Reload | app/auth/jwks.py:100-124 | The refresh replaces keys and lifetime only by a non-empty fetch |
| AccountDeletion.DeletionIsResumable | app/auth/deletion.py:16-18 | After any writes of an interrupted deletion a full one ends where an uninterrupted one would have |
| AccountDeletion.DeletionIsIdempotent | app/auth/deletion.py:71-72 | A second deletion changes nothing |
| AccountDeletion.WhatIsLeft | app/auth/deletion.py:91-222 | What a deletion leaves, document by document: the user's listings deleted and nobody's, every counter lowered by the user's likes, the user's likes and personal documents gone, every claim kept and the user's under the owner mark, everything else as it was |
| AccountDeletion.DeletionEnds | app/auth/deletion.py:71-89 | However its writes are ordered, a deletion that has nothing left to do has reached the final state, and it issues at most as many writes as there were documents |
| AccountDeletion.SomethingToDo | app/auth/deletion.py:71-89 | As long as something of the user is left, some write has something to do |
| AccountDeletion.OthersAreUntouched | app/auth/deletion.py:154-206 | Documents of others stay and every payment claim survives |
| AccountDeletion.CountsStayExactThroughout | app/auth/deletion.py:116-150 | After every single write like counters equal the like documents there are |
| AccountDeletion.ReownedPurchaseIsRefused | app/auth/deletion.py:154-160 | A re-owned claim refuses the purchase to whoever submits it |
| AccountDeletion.ReownedPurchaseStaysRefused | app/auth/deletion.py:154-160 | ... after whatever else the ledger does |
| AccountDeletion.LatePurchaseIsOrphaned | app/auth/deletion.py:74-77 | A purchase that commits after the claims were re-owned keeps its claim in the user's name while its entry is deleted |
| AccountDeletion.AccountDeletionService.Delete | app/auth/deletion.py:71-89 | The four passes end in exactly the final state, and the result counts exactly what there was |
| AccountDeletion.AccountDeletionService.RetireListings | app/auth/deletion.py:93-114 | No listing of the user is left, and the count is right |
| AccountDeletion.AccountDeletionService.RemoveLikes | app/auth/deletion.py:116-128 | No like of the user is left, and the count is right |
| AccountDeletion.AccountDeletionService.AnonymizeClaims | app/auth/deletion.py:154-169 | No claim is lost and none is the user's |
| AccountDeletion.AccountDeletionService.DeleteWhere | app/auth/deletion.py:208-222 | The paged loop ends with no matching document left and deletes nothing else |
| Canonical.DecodeUndoesEncode | app/shards/models.py:332-334 | A decoder undoes the length-prefixed encoding of every list of byte strings |
| Canonical.EncodingIsInjective | app/marketplace/models.py:526-551 | Different part lists never encode alike, whatever colons and bars they contain |
| Canonical.KeyTextIsInjective | app/shards/models.py:317-335 | Equal key texts name the same user, reason and event |
| Canonical.ReasonValuesDiffer | app/shards/models.py:32-80 | No two reasons are stored under one value |
| SnapshotAssets.RunKeepsInv | app/marketplace/service.py:258-327 | Every interleaving of uploads that fail or stop anywhere keeps objects and documents in agreement |
| SnapshotAssets.DocumentedSnapshotsAreComplete | app/marketplace/service.py:258-327 | A documented snapshot has its manifest, preview and exactly its assets stored, and neither changes ever after |
| SnapshotAssets.LuckyUploadIsDocumented | app/marketplace/service.py:258-327 | From every reachable world an upload that meets no failure is documented with all its objects; if only the document fails, the objects stay and nothing refers to them |
| SnapshotAssets.RefusedUploadIsSwept | app/marketplace/service.py:258-327 | An upload refused at any object ends with nothing of it left, if the deletions work |
| SnapshotAssets.AllUploaded | app/marketplace/service.py:291-304 | The uploads in their order are exactly the objects of the snapshot |
| SnapshotAssets.AssetStorage.PutNew | app/marketplace/assets.py:140-143 | Storage is create-only |
| SnapshotAssets.SnapshotService.CreateSnapshot | app/marketplace/service.py:258-327 | Success stores everything and documents it; a failed upload documents nothing, touches no other snapshot and, if raising means not stored and the clean-up works, leaves no trace; a document never exists without all its objects |
| SnapshotAssets.SnapshotService.UploadAll | app/marketplace/service.py:300-308 | The upload loop with its clean-up |
| PackageCheck.WalkIsExact | app/marketplace/assets.py:438-456 | The recursive walk accepts exactly the documents in which every place is within the depth and free of forbidden references unless it is prose |
| PackageCheck.PassesMeansEveryPlace | app/marketplace/assets.py:438-456 | An accepted document is fine at every path |
| PackageCheck.FaultHasPlace | app/marketplace/assets.py:438-456 | A rejected document has a path at fault |
| PackageCheck.AssetIdIsAlmostUuid | app/marketplace/assets.py:45-46 | An accepted asset id is a UUID if and only if it does not end in a newline, which the pattern also lets through |
| PackageCheck.NewlineIsAccepted | app/marketplace/assets.py:45-46 | Every UUID followed by a newline is an accepted asset id and no UUID |
| PackageCheck.NonUuidIsAccepted | app/marketplace/assets.py:233-274 | For every UUID a package is accepted whose one asset is named by it and a newline |
| PackageCheck.AssetIdsStayInPlace | app/marketplace/assets.py:379-387 | No accepted asset id contains a path or URL character |
| PackageCheck.DesignAssetIds | app/marketplace/assets.py:354-376 | The two loops fail exactly on malformed references and otherwise collect exactly the referenced ids |
| PackageCheck.ReferencedAssetIds | app/marketplace/assets.py:277-305 | Exactly the assets a mirror or sticker manifest refers to |
| PackageCheck.CheckedPackage | app/marketplace/assets.py:233-274 | Accepts exactly the packages that meet all declared conditions |
| PackageMeaning.ReferencedMeans | app/marketplace/assets.py:277-305 | An asset id is referenced if and only if some sticker's source has kind "photo" and that assetID, or some artwork has that assetID, or it is the finalAssetID of a sticker |
| PackageMeaning.ReferencesOkMeans | app/marketplace/assets.py:277-351 | Which documents are in order for each label, by the fields they have |
| PackageMeaning.DesignOkMeans | app/marketplace/assets.py:354-376 | A design is in order if and only if both lists are lists or missing, every sticker has an object as its source, and every photo and every artwork names an asset id; a sticker of any other kind needs none |
| PackageMeaning.AssetsAreShown | app/marketplace/assets.py:354-376 | The assets of a design are those of its photo stickers and of its artworks |
| PackageMeaning.OneStickerPackage | app/marketplace/assets.py:233-274 | For every UUID: a mirror with one photo sticker is accepted with its image and rejected without; with a sticker of any other kind it is the other way round |
| PackageMeaning.ImagesAreExact | app/marketplace/assets.py:262-269 | Of an accepted package no image can be left out and no other can be added |
| PackageMeaning.SizesAreExact | app/marketplace/assets.py:233-274 | Which sizes accepted packages have, and that a mirror without images is accepted with every manifest of 1 byte to 256 KiB and every PNG preview of up to 2 MiB |
| PackageMeaning.UuidIsFiveGroups | app/marketplace/assets.py:45-46 | The id pattern: five groups of 8, 4, 4, 4 and 12 hexadecimal digits |
| PackageMeaning.FineMeans | app/marketplace/assets.py:438-456 | Text under any key but "name" and "text" is fine exactly when no part of it reads like a forbidden reference, in whatever case |
| PackageMeaning.ProseMeans | app/marketplace/assets.py:438-456 | Text in a list is judged by the key of the list |
| PackageMeaning.DepthIsBounded | app/marketplace/assets.py:438-456 | Nesting is accepted up to a depth of exactly 32 |
| PackageCheck.AcceptedUnderOneType | app/marketplace/assets.py:333-351 | No package is accepted under both content types |
| PackageCheck.AcceptedAssetsAreUsed | app/marketplace/assets.py:262-269 | The stored assets are exactly those the manifest shows |

## Left out

- GenerationService.AIStickerService.Result: whether the seven days of retention are over is a parameter, and an error names no stored failure reason.
- IapLifecycle.PurchaseKeepsAt: signature, bundle, product and environment checks in front of the pay-out are not modelled; the user and the amount are taken as verified. The check of the account token is part of `ShardServices.IapService.Credit`.
- OptimisticStore.AnswersAreLinearizable: models `apply`; the Firestore versions of refund, reversal and guest hand-over appear as other commits that keep the ledger consistent. An attempt reads all its documents at one moment, and a commit that takes effect although its answer is lost is not modelled.
- MarketStore.InMemoryMarketplaceStore.Takedown: whether the notification raises is a parameter; its content is not modelled.
- MarketTheorems.TitleClaimsAreExact: Unicode folding of titles is an abstract key; two titles are the same name when their keys are equal.
- PackageCheck.WalkIsExact: lower-casing is modelled for ASCII letters only, and JSON parsing is a parameter.
- AccountDeletion.DeletionIsResumable: nobody else acts between the interrupted and the full run; for whatever state others left behind, `Delete` itself ends in the final state of that state.
- AccountDeletion.AccountDeletionService.Delete: other users do not act during the deletion, but for a purchase that commits in between; titles of retired listings are not released, as in the code.
- The sweep over a user's pending generations looks at ten documents at most and only repeats `reconcile`.
- HTTP endpoints, configuration, logging and command-line scripts.
- Signature and certificate verification, push notifications, cloud storage and image provider clients.
- The Firestore implementation of the marketplace, which differs from the in-memory one in releasing titles and flushing the compensation.
- Ids and timestamps of ledger entries, notification wording, sorting for display, pagination.
- AI mirror generation, mirror capacity, catalogue templates, attendance, display names, preferences and devices: they repeat the ledger or the create-once argument.
