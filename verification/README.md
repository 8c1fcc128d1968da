# Proofs about the ad server's money machine and the daemon's turn machine

The project models how money moves through an ad network for coding terminals, and how the client
measures what it reports:

- the double-entry ledger (postings, idempotency keys, reversal, audit, in-flight payouts);
- serving: eligibility filters, the stage tour, the second price, frozen rates and nonces;
- reporting and delayed verification of impressions;
- withdrawals phase by phase against a chain that answers late or not at all, and crash recovery;
- sponsor pools with budgets and daily caps;
- the client: the turn machine with its machine-wide mutex, the append-only queue, the lossy link to
  the server, the line that is printed;
- supporting parts: token bucket, deposit scan, amount text, the queue in front of the hot wallet.

Check everything with `dafny verify dfyconfig.toml`.

## How it is built

- `World.dfy` is one state with atomic steps: serve, ingest, verify, each phase of a withdrawal between
  two awaits, recovery, deposits, pool and campaign changes, time, the chain deciding, crashes at every
  point between two durable writes, restarts, and the clearing of old records. `Run` applies any list of
  events from the empty state, in any order, so every theorem about runs covers every interleaving.
- The ledger's entries are `Expand(journal)`: the journal lists the groups that were written together.
- Objects the program updates in place are classes (`LedgerBook`, `AdServer`, `PayoutDesk`, `PoolBook`,
  `TurnMachine`, `Queue`, `RateLimit`, `Deposits`, `Link.Sync`). Each method's contract ties the new
  state to the specification function of that step; the lemmas about runs are about these functions.
- `RailWorld.dfy` puts the payment rail's readings of chain and clock in front of that machine; `LinkRuns.dfy`
  puts the client's queue and the network in front of it. Behind either the server goes through a run, behind the
  rail as long as its readings are sound.
- `Commitments.dfy` follows, for any weighting of a stake, what each step does to live deliveries and to
  pending impressions not billed yet. Money, block counts and pools are three weightings of the same lemmas.
- `TurnsRules`, `WorldServing`, `WorldVerdicts`, `WorldWithdrawals`, `WorldToday`, `WorldMarket` and the second half of
  `Serving` say what each operation does in terms of the state it finds, without the functions that compute it.
- Every lemma carries `{:induction false}`: each induction is written out.

## What the proofs say about the code

Most claims hold as the comments promise. Where they hold only under a condition, the condition is stated:

- A verified impression pays its own publisher when impression ids are unique across publishers; the
  ledger's keys leave the publisher out. `WorldWitness.SharedIdPaysOnlyTheFirst` is a run where they are not.
- "A rejected impression is never billed" is lost exactly when an impression is rejected whose approval
  reached the ledger before a crash lost the mark; `WorldWitness.CrashAndBanRejectsWhatWasBilled` is such a run.
  The same rejection is the only step that can uncover a sponsor's pool reserve, by an amount stated exactly;
  `WitnessPool.CrashAndBanUncoversThePool` is a run where it does.
- A payout left in flight by a crash can still be resolved if and only if its record was written after the
  ledger entry; otherwise the money is safe and stays in flight for ever, as in `WitnessPayout.CrashStrandsThePayout`.
- The rail's "expired was never applied" holds exactly when the chain was seen at or after the time bound,
  or the clock had not passed it; exactly then no run pays twice (`RailWitness.RailIsSafeExactlyWhen`), and
  `RailWitness.UnsoundReadingPaysTwice` is a run that does otherwise.
- Totals stay within 64 bits while deposits and budgets do, except that nothing bounds a sponsor's pledges
  together: `WorldTotals.PledgesMayNotAddUp` makes `poolReserve` throw.
- After a torn append, the record appended next is glued to the torn one and lost with it. Over any run,
  being torn, being glued and the size limit are the only ways an unsent record is lost (`QueueRuns.PendingAfterTears`).
- `toStroopBigint` and `fromAmountString` differ exactly on negative amounts with a fraction.
- The daily budget of a campaign is not an invariant and is not claimed: `spentToday` leaves out live deliveries.

## Model

| member | source | states |
|---|---|---|
| WorldAudit.AdvertisersStaySolvent | packages/server/src/pipeline.ts:135-168 | in every run of all steps and crashes, an advertiser's ledger balance covers live unreported deliveries plus pending impressions not yet billed, so verification and withdrawal never push it below zero |
| WorldAudit.GoodStep | packages/server/src/pipeline.ts:254-314 | every step keeps the whole invariant: catalogue, offers, reports, payout links, reservation, solvency of all internal accounts |
| WorldAudit.Reachable | packages/server/src/pipeline.ts:254-314 | the invariant holds in every reachable state |
| WorldAudit.AuditAlwaysClean | packages/server/src/ledger/ledger.ts:395-431 | the audit's three rules hold of the entries in every reachable state |
| WorldAudit.NoMoneyError | packages/protocol/src/money.ts:30-46 | while deposits fit in 64 bits, no running total inside balance, audit, inFlightFrom or a posted group leaves the range |
| WorldTotals.PromisesWithinDeposits | packages/server/src/pipeline.ts:149-168 | in every run what `spendable` subtracts, live and all pending, is at most what was ever deposited |
| WorldTotals.SpendingWithinBudgets | packages/server/src/pipeline.ts:207-219 | in every run whose budgets keep to a limit, spentOn every pool keeps to it, budget cuts included |
| WorldTotals.TotalsAddUp | packages/server/src/pipeline.ts:149-219 | while deposits, each budget and each sponsor's pledges fit in 64 bits, no range check inside spendable, spentOn a pool or poolReserve fires in any run |
| WorldTotals.PledgesMayNotAddUp | packages/server/src/pools/reserve.ts:27-34 | a run of two pools whose budgets together leave the range, so that poolReserve throws |
| WorldDaily.CountedWithinDeposits | packages/server/src/pipeline.ts:183-195 | with globally unique impression ids, everything pending or verified of an advertiser is within his deposits |
| WorldDaily.DailyTotalsAddUp | packages/server/src/pipeline.ts:183-195 | then spentToday of every campaign is within the deposits and its range checks never fire |
| WorldDaily.EveryTotalFits | packages/protocol/src/money.ts:30-46 | all together: no range check of serving or of a withdrawal's ceiling ever fires |
| WorldToday.ReportSpends | packages/server/src/pipeline.ts:183-195 | an accepted report adds the price of its ad to what its campaign spent today, and no other report counts |
| WorldToday.VerdictRefunds | packages/server/src/pipeline.ts:183-195 | a rejection takes today's price back, and being verified changes nothing |
| WorldToday.NothingSpentYet | packages/server/src/pipeline.ts:183-195 | a campaign without counted impressions of today has spent nothing today |
| WorldToday.ServedTodayCounts | packages/server/src/pipeline.ts:239-251 | what a member was served today is the number of his live ads and of his reports of today that were not rejected |
| WorldAudit.InFlightAlwaysPartitioned | packages/server/src/ledger/ledger.ts:145-159 | in every run inFlightFrom is exact for each source account and sums over them to the shared box |
| WorldMoney.ReservedStep | packages/server/src/ads/selector.ts:188-219 | no step takes an advertiser's free balance below zero, although verification debits without a check |
| WorldMoney.SpendableIsFree | packages/server/src/pipeline.ts:149-168 | spendable never exceeds what is really free, and equals it when no pending impression is already billed |
| WorldMoney.ServeAffords | packages/server/src/pipeline.ts:254-274 | what a served ad commits is covered by spendable, by pool budget and cap, and by the blocks bought, read before the step |
| WorldMoney.WrittenAffords | packages/server/src/payouts/withdraw.ts:181-192 | a payment posting lowers an account only by what it holds, an advertiser's only by what is free beyond the pool reserve |
| WorldShape.OffersStep | packages/server/src/pipeline.ts:260-272 | deliveries keep the terms frozen when served, nonces stay unique, and an unconsumed one backs no impression |
| WorldShape.ReportsStep | packages/server/src/impressions/ingest.ts:108-137 | every counted impression is the one its nonce was accepted for, at the frozen terms |
| WorldShape.CatalogueStep | packages/server/src/pools/pool-store.ts:94-156 | campaign and pool identities stay unique and a pool's projects are billed to its sponsor |
| WorldMarket.NewCampaignsWait | packages/server/src/ads/campaign-store.ts:102-140 | a new campaign is shown to nobody until it is activated, and then at the terms it was created with |
| WorldMarket.ProjectTerms | packages/server/src/ads/campaign-store.ts:146-176 | a member's project joins an open pool at once, at the pool's price, paid by the sponsor, and is not shown to its author |
| WorldMarket.NobodyJoinsUnasked | packages/server/src/ads/campaign-store.ts:146-176 | who is in no pool adds no project |
| WorldMarket.StatusIsSet | packages/server/src/ads/campaign-store.ts:179-190 | setting a status touches one campaign and nothing else of it |
| WorldMarket.PoolsOpenUnderRules | packages/server/src/pools/pool-store.ts:94-124 | a pool opens exactly under a new name and within the limits on price, cap and budget |
| WorldMarket.BudgetIsSet | packages/server/src/pools/pool-store.ts:147-156 | an open pool's budget becomes what is asked, a closed one's and every other stays |
| WorldMarket.MembersComeAndGo | packages/server/src/pools/pool-store.ts:133-184 | whoever joins an open pool is in it and nowhere else, whoever leaves is in none, nobody is in a closed one, and a budget moves nobody |
| WorldMarket.BansAreLifted | packages/server/src/pipeline.ts:328-340 | a ban is of one publisher, and lifting it undoes it |
| WorldMarket.DepositCredits | packages/server/src/ledger/ledger.ts:188-210 | a positive deposit in range raises its advertiser's balance by its amount, once per top-up, and no other internal balance |
| WorldMarket.TimeExpiresAds | packages/server/src/pipeline.ts:149-168 | time alone does nothing but let deliveries expire |
| WorldMarket.RestartForgets | packages/server/src/pipeline.ts:112-131 | a restart forgets running withdrawals and recent picks, remembers tours, and takes expired ads as given back |
| WorldMarket.ClearingKeeps | packages/server/src/store/db.ts:265-271 | clearing keeps every pending impression and every recent one |
| WorldShape.ServeCases | packages/server/src/ads/selector.ts:163-230 | a serve step either only gives slots back or adds one delivery for a campaign that passed every filter |
| WorldServing.ServedExactlyWhen | packages/server/src/ads/selector.ts:163-212 | something is served exactly when the publisher is not banned and some campaign is active, of the publisher's open pool or of none as he is, not his own, positively priced, affordable, and within pool budget, member cap, daily budget and blocks |
| WorldServing.ServedTerms | packages/server/src/ads/selector.ts:214-266 | what is served is an ad of such a campaign at its own terms for five minutes, at the pool's price, or at the second price among the campaigns that may be shown |
| WorldShape.IngestCases | packages/server/src/impressions/ingest.ts:100-137 | what one report changes: consumes exactly its own live delivery, or records a rejection, or nothing |
| WorldShape.VerifyCases | packages/server/src/pipeline.ts:283-314 | one verification round posts first and then marks, and rejects exactly when the verdict is a denial |
| Commitments.IngestCommits | packages/server/src/impressions/ingest.ts:129-134 | an accepted report moves its stake from deliveries to impressions, and a crash in between loses exactly that stake |
| Commitments.VerifyCommits | packages/server/src/pipeline.ts:289-310 | what one verification round bills or releases, for any weighting of stakes |
| WorldBilling.ExactlyOnceBilling | packages/server/src/impressions/ingest.ts:42-64 | in every run each debit is the charge for one served ad at the frozen advertiser, publisher, rate and share, and no two debits or counted impressions share a nonce |
| WorldBilling.VerifiedIsBilled | packages/server/src/ledger/ledger.ts:244-265 | a verified impression was billed under its id, and to its own publisher at its own terms when ids are globally fresh |
| WorldBilling.ApprovalPays | packages/server/src/ledger/memory-store.ts:28-51 | approving pays exactly the split of the rate if no impression of that id was billed before, else nothing |
| WorldBilling.RejectedIsUnbilled | packages/server/src/pipeline.ts:293-310 | no rejected impression is billed after a step if and only if the step does not reject one already billed |
| WorldBilling.RejectedStayUnbilled | packages/server/src/pipeline.ts:293-310 | over runs that clear no records, no rejected impression is billed at any moment if and only if the run never rejects one already billed |
| WorldWitness.SharedIdPaysOnlyTheFirst | packages/server/src/ledger/ledger.ts:249-264 | a run in which two publishers use one id and only the first is paid |
| WorldWitness.CrashAndBanRejectsWhatWasBilled | packages/server/src/pipeline.ts:299-310 | a run in which a crash and a ban reject an impression the advertiser paid for |
| WitnessPool.CrashAndBanUncoversThePool | packages/server/src/pools/reserve.ts:27-34 | a run in which a crash and a ban leave a sponsor's pool reserve uncovered by exactly the rate of one impression |
| WitnessPayout.CrashStrandsThePayout | packages/server/src/payouts/withdraw.ts:192-193 | a run in which a crash between ledger and record leaves a payout that no continuation ever settles or gives back |
| WorldBlocks.NoBlockIsOversold | packages/server/src/ads/selector.ts:202-210 | billed plus pending (counted once) plus live deliveries of a campaign of b blocks never exceed 1000 b |
| WorldBlocks.CommittedCovers | packages/server/src/pipeline.ts:226-236 | committedImpressions is never below what is really used |
| WorldPools.BudgetStep | packages/server/src/pools/pool-store.ts:143-156 | spending stays within every pool budget unless, and only unless, the step cuts a budget below what was spent |
| WorldPools.PoolsKeepToBudget | packages/server/src/main.ts:167-174 | in every run that never cuts below spending, spentOn a pool's campaigns is within its budget |
| WorldPools.MembersKeepToCap | packages/server/src/main.ts:167-174 | in every run servedToday of every publisher is within the member cap of every pool |
| WorldReserve.CoverStep | packages/server/src/pools/reserve.ts:27-34 | free money keeps covering poolReserve through every step that pledges nothing new (lowering a budget included), except the rejection of a billed impression, exactly when it refills more than the slack |
| WorldReserve.CoverLasts | packages/server/src/main.ts:299-302 | over runs that open no pool, raise no budget and clear no records: from covered by spendable to covered by free money, and by spendable itself unless a crash left a billed impression pending |
| WorldReserve.OnePool | packages/server/src/pools/reserve.ts:21-25 | a stake counts in at most one pool, and only one of the advertiser who pays for it |
| WorldSlots.SlotsReturnAtMostOnce | packages/server/src/pipeline.ts:361-383 | a slot given back is never given back again, across clean-up and restarts |
| WorldSlots.SlotsGivenBack | packages/server/src/pipeline.ts:362-372 | exactly the ads of this publisher that expired unseen are marked, each puts one slot of its campaign in front of the tour, and no other tour changes |
| WorldSlots.MarksAreCollected | packages/server/src/pipeline.ts:374-382 | a new ad is stored and those expired for over an hour are collected, each with its mark |
| WorldPayments.NoDoublePayment | packages/server/src/payouts/withdraw.ts:167-233 | in every run no batch is both settled and reversed, settled only if applied, reversed only if failed or dead, and the chain paid an id no more than its unreversed payout debits |
| WorldPayments.ReversedIsNeverApplied | packages/server/src/payouts/runner.ts:157-200 | a batch reversed at some point of a run is not applied on chain at any later point |
| WorldPayments.ResolvableIffRecorded | packages/server/src/payouts/withdraw.ts:192-193 | an unanswered decided payout can still be answered by some continuation exactly when its record was written |
| WorldPayouts.PayoutsStep | packages/server/src/payouts/withdraw.ts:189-233 | every step keeps ledger, records, running withdrawals and signed envelopes linked |
| WorldWithdrawals.OneWithdrawalPerAccount | packages/server/src/payouts/withdraw.ts:115-128 | in every run, at every moment, an account has at most one withdrawal under way |
| WorldWithdrawals.BeginExactly | packages/server/src/payouts/withdraw.ts:130-155 | a withdrawal begins exactly when its account is idle and the amount within the ceiling: the whole balance of a publisher or the platform, what an advertiser can spend beyond his open pools |
| WorldWithdrawals.PreparedExactly | packages/server/src/payouts/withdraw.ts:181-193 | once signed, the money leaves exactly when the ceiling read again covers it; ledger, envelope and record come together, and the ledger's own check never refuses |
| WorldWithdrawals.PreparedCutShort | packages/server/src/payouts/withdraw.ts:189-199 | a crash after the ledger entry loses the record, one after the record only the memory, and the envelope stays unsent |
| WorldWithdrawals.AskedAgainExactly | packages/server/src/payouts/withdraw.ts:201-208 | while the answer is open the chain is asked once and again every two seconds as long as the waiting time lasts |
| WorldWithdrawals.WithdrawalGoesThrough | packages/server/src/payouts/withdraw.ts:130-235 | from any state keeping the invariants an allowed withdrawal goes through: charged and settled if the payment was applied, charged and given back entry by entry if it failed or expired, nothing else changed |
| PayoutLinks.RefundPost | packages/server/src/ledger/ledger.ts:364-387 | what reverse reads back for a failed payout is exactly its submit, and reversing keeps the links |
| PayoutLinks.FateOfAnswer | packages/payments/src/rail.ts:52-60 | a settled or reversed payout tells the fate of its transaction |
| LedgerFacts.RefsSumToZero | packages/server/src/ledger/ledger.ts:398-407 | entries under every reference sum to zero |
| LedgerFacts.KeysAreUnique | packages/server/src/ledger/ledger.ts:423-428 | idempotency keys are unique over all entries |
| LedgerFacts.ReversalIsSound | packages/server/src/ledger/ledger.ts:355-387 | whatever reverse copies forms a balanced group, so the balance check never fires |
| LedgerFacts.InFlightFromIsOpen | packages/server/src/ledger/ledger.ts:145-159 | inFlightFrom equals the account's submitted payouts neither settled nor reversed |
| LedgerFacts.InFlightPartition | packages/server/src/ledger/ledger.ts:134-159 | summed over all source accounts it equals the payouts_in_flight balance |
| LedgerFacts.BoxBalance | packages/server/src/ledger/ledger.ts:272-387 | the shared box is the sum of unanswered payouts and never negative |
| LedgerBounds.BalanceNeverOverflows | packages/server/src/ledger/memory-store.ts:61-67 | every intermediate balance stays within the deposits |
| LedgerBounds.RefTotalNeverOverflows | packages/server/src/ledger/ledger.ts:400-404 | every intermediate reference total of the audit stays in range |
| LedgerBounds.InFlightNeverOverflows | packages/server/src/ledger/ledger.ts:151-158 | every intermediate in-flight total is between zero and the range |
| LedgerBounds.HeldAtMost | packages/server/src/ledger/ledger.ts:395-431 | an internal account holds at most what was deposited and has not left |
| Ledger.BalanceOfEntries | packages/server/src/ledger/memory-store.ts:61-67 | the balance over entries is the balance over postings |
| LedgerBook.MemoryLedgerStore.Append | packages/server/src/ledger/memory-store.ts:28-51 | a new group is appended whole, a repeat returns the stored entries and writes nothing, half a repeat is an error |
| LedgerBook.MemoryLedgerStore.ReadBalance | packages/server/src/ledger/memory-store.ts:61-67 | the sum of the account's entries, or an error exactly when a running total leaves the range |
| LedgerBook.MemoryLedgerStore.ReadRef | packages/server/src/ledger/memory-store.ts:57-59 | the entries of a reference in order |
| LedgerBook.Book.Post | packages/server/src/ledger/ledger.ts:469-480 | a group is checked, the cached count dropped, and the journal grows by the posting unless it was made before |
| LedgerBook.Book.Deposit | packages/server/src/ledger/ledger.ts:188-210 | refuses amounts that are not positive, else posts the deposit once |
| LedgerBook.Book.PostImpression | packages/server/src/ledger/ledger.ts:226-266 | refuses a negative rate or a bad share, else posts the three-way split once |
| LedgerBook.Book.PayoutSubmit | packages/server/src/ledger/ledger.ts:272-327 | refuses to overdraw on a first write, lets a repeat pass, posts once |
| LedgerBook.Book.PayoutSettled | packages/server/src/ledger/ledger.ts:330-353 | posts the settlement once |
| LedgerBook.Book.Reverse | packages/server/src/ledger/ledger.ts:364-387 | fails on nothing to reverse, returns the first reversal on a repeat, else posts the negated copies |
| LedgerBook.Book.BilledImpressions | packages/server/src/ledger/ledger.ts:105-117 | the cached count equals a fresh count over the entries, and the journal's impression postings |
| LedgerBook.BilledEntries | packages/server/src/ledger/ledger.ts:108-113 | counting entries is counting impression postings |
| LedgerAudit.Audit | packages/server/src/ledger/ledger.ts:395-431 | on any entries, an empty list exactly when references sum to zero, internal accounts are not negative and keys are distinct |
| LedgerAudit.Totals | packages/server/src/ledger/ledger.ts:399-413 | per-key totals, failing exactly when a running total leaves the range |
| LedgerAudit.InFlight | packages/server/src/ledger/ledger.ts:145-159 | the two-pass in-flight sum |
| Money.SplitRevenue | packages/protocol/src/money.ts:102-112 | the publisher gets the share rounded down and the platform the rest, both non-negative; errors exactly on a negative rate or a bad share |
| Selector.SelectionIsAffordable | packages/server/src/ads/selector.ts:214-219 | nothing is offered only when nothing is eligible, so the recheck after the auction never burns a slot, and the price is affordable and within the bid |
| Selector.SecondPrice | packages/server/src/ads/selector.ts:254-266 | the price is at most the bid, at least the reserve or the bid, one step over every rival that does not outbid, and not higher than one of these requires |
| Selector.OrderedIsSorted | packages/server/src/ads/selector.ts:287-301 | the tour order is a permutation of the eligible campaigns by descending bid |
| Selector.TiesGoToTheLongestUnseen | packages/server/src/ads/selector.ts:287-301 | of equal bids, whoever was shown longest ago, or never, goes first |
| Selector.RemembersTheLatest | packages/server/src/ads/selector.ts:329-334 | the thirty-two latest picks are remembered, newest last |
| Selector.StageSlotsRound | packages/server/src/ads/selector.ts:142-145 | within the clamp of one to four, the slots are the ratio of the bids to the nearest whole number, halves up |
| Selector.BuiltFromEligible | packages/server/src/ads/selector.ts:287-303 | a new tour names exactly the eligible campaigns, in at most four slots each |
| SelectorTour.OneTour | packages/server/src/ads/selector.ts:268-303 | with fixed eligibility one tour serves every campaign exactly its slots, one after the other also among equal bids, and never a lower bid before a higher one |
| SelectorTour.NoStarvation | packages/server/src/ads/selector.ts:268-280 | a campaign eligible at every select is chosen within the slots left plus four per campaign eligible at the rebuild |
| SelectorTour.RoundIsSelect | packages/server/src/ads/selector.ts:163-230 | the rounds the fairness results speak of are what select does |
| Serving.AcceptedExactlyWhen | packages/server/src/impressions/ingest.ts:140-183 | a report is accepted exactly when it is new, its version not older than the oldest allowed, measurable, long enough, within a day of the clock, and about an ad of this publisher and campaign that is live, unused and was out as long as claimed |
| Serving.VersionsAreOrdered | packages/server/src/impressions/ingest.ts:87-95 | one version is older than another exactly when the first of three parts that differ is smaller, a part left out counting as zero |
| Serving.RefusedByItself | packages/server/src/impressions/ingest.ts:109-156 | a duplicate is told apart first; then a report is refused for the first thing wrong with itself, in order: version, surface, duration, unknown nonce |
| Serving.RefusedForItsAd | packages/server/src/impressions/ingest.ts:158-183 | a report in order by itself is refused for the first thing that does not fit its ad, in order: used, expired, publisher, campaign, longer than out, clock |
| Serving.WrittenForAReport | packages/server/src/impressions/ingest.ts:108-213 | nothing for a duplicate, else one impression with the verdict, at payer, price and share of the ad it names or at nobody's cost; only an accepted report uses its ad up |
| WorldVerdicts.VerifiedLateAndCapped | packages/server/src/impressions/verify.ts:39-63 | in every run, crashes and clean-ups included, nothing is verified before its waiting period is over, and at most the daily cap of one publisher and day is verified |
| WorldVerdicts.VerdictExactly | packages/server/src/impressions/verify.ts:39-104 | a pending impression is verified and charged exactly when not banned, ripe, below the cap and unsuspicious; rejected, for the first reason that holds, exactly when banned, or ripe and one of the others fails; else untouched |
| WorldVerdicts.VerdictCutShort | packages/server/src/pipeline.ts:299-310 | a crash in an approval leaves the charge posted and the impression pending; a crash elsewhere changes nothing |
| WorldVerdicts.VerifiedOnCounts | packages/server/src/pipeline.ts:350-358 | the count behind the cap is the number of that publisher's verified impressions of that day |
| AdServer.AdSelector.NextInTour | packages/server/src/ads/selector.ts:273-280 | takes the first slot of the current tour and leaves the rest |
| AdServer.AdSelector.PutBack | packages/server/src/ads/selector.ts:324-327 | returned slots go to the front of the tour |
| AdServer.AdSelector.RememberPick | packages/server/src/ads/selector.ts:329-334 | the pick is appended and only the latest are kept |
| AdServer.Pipeline.Spendable | packages/server/src/pipeline.ts:149-168 | balance minus live and pending, never below zero, or an error exactly when a balance, an amount or a running total leaves the range |
| AdServer.Pipeline.SpentToday | packages/server/src/pipeline.ts:183-195 | today's pending and verified rates of a campaign, or an error exactly when a running total leaves the range |
| AdServer.Pipeline.SpentOn | packages/server/src/pipeline.ts:207-219 | live plus pending plus verified rates of a set of campaigns, or an error exactly when a running total leaves the range |
| AdServer.Pipeline.CommittedImpressions | packages/server/src/pipeline.ts:226-236 | the loops compute billed plus live plus pending counts |
| AdServer.Pipeline.ServedToday | packages/server/src/pipeline.ts:239-251 | the loops compute a member's live and counted impressions of the day |
| AdServer.Pipeline.PoolReserve | packages/server/src/pools/reserve.ts:27-34 | the unspent parts of a sponsor's open pools, or an error exactly when spentOn throws or the sum leaves the range |
| AdServer.Pipeline.PoolAllows | packages/server/src/main.ts:167-173 | false for an unknown pool, a member at the cap, or a rate over the budget; an error only where spentOn throws |
| AdServer.Pipeline.PassesFilters | packages/server/src/ads/selector.ts:163-212 | the filters agree with the eligibility predicate, which WorldServing.ServedExactlyWhen spells out |
| AdServer.Pipeline.SelectAd | packages/server/src/ads/selector.ts:163-230 | performs select on the object's own totals, touching the tour only when something is eligible |
| AdServer.Pipeline.ReturnExpiredSlots | packages/server/src/pipeline.ts:362-372 | marks and returns each expired unseen delivery of the publisher, in order |
| AdServer.Pipeline.GcDeliveries | packages/server/src/pipeline.ts:374-382 | drops deliveries expired for over an hour together with their marks |
| AdServer.Pipeline.ServeAd | packages/server/src/pipeline.ts:254-274 | performs exactly the serve step of the machine and returns the selection it delivered, or nothing exactly when nothing was delivered; throws only where a total does not fit; keeps the whole invariant of GoodStep either way |
| AdServer.Pipeline.IngestBatch | packages/server/src/impressions/ingest.ts:100-137 | performs the ingest steps of a batch in order (what each does: AcceptedExactlyWhen, RefusedByItself, RefusedForItsAd, WrittenForAReport), keeps the invariant, and lists accepted, rejected and duplicate ids |
| AdServer.EventsAreSorted | packages/server/src/impressions/ingest.ts:108-137 | every event of a batch is listed once, under the verdict it gets after those before it |
| AdServer.Pipeline.RunVerification | packages/server/src/pipeline.ts:283-314 | performs the verify steps over a snapshot (what each does: VerdictExactly), stopping early only where posting throws, and keeps the invariant either way |
| AdServer.JudgedInTurn | packages/server/src/pipeline.ts:283-314 | over a round every impression gets one verdict, from the state its turn finds, and the other rounds leave it alone |
| AdServer.Pipeline.CountToday | packages/server/src/pipeline.ts:350-358 | the loop counts a publisher's verified impressions of a day |
| AdServer.Pipeline.Ban | packages/server/src/pipeline.ts:328-333 | adds the publisher to the bans and changes nothing else |
| PayoutDesk.MemoryPayoutStore.RecordSubmit | packages/server/src/payouts/store.ts:70-112 | a known batch is left alone, a payee without an operation raises an error after the envelope was kept, else one record each |
| PayoutDesk.MemoryPayoutStore.Transition | packages/server/src/payouts/store.ts:122-134 | marks every record of the batch that is not settled, in place, and counts them |
| PayoutDesk.MemoryPayoutStore.Unresolved | packages/server/src/payouts/store.ts:155-161 | lists each undecided batch with a stored envelope exactly once |
| PayoutDesk.SettledIsFinal | packages/server/src/payouts/store.ts:125-130 | marking never changes a settled record or another batch, closes its own batch, and is idempotent |
| PayoutDesk.StateFromSettlement | packages/server/src/payouts/store.ts:167-175 | only settled, failed and expired decide anything |
| PayoutDesk.PayoutDesk.Limit | packages/server/src/main.ts:290-348 | the ceiling of each kind of withdrawal, or an error exactly when one of its totals does not fit |
| PayoutDesk.PayoutDesk.Begin | packages/server/src/payouts/withdraw.ts:115-155 | starts a withdrawal exactly when no other is under way for that kind and owner and the amount is at least one and within the ceiling; nothing else changes |
| PayoutDesk.PayoutDesk.OnPrepared | packages/server/src/payouts/withdraw.ts:163-199 | re-reads the ceiling, then ledger, then record, exactly the machine's step |
| PayoutDesk.PayoutDesk.OnAnswer | packages/server/src/payouts/withdraw.ts:201-233 | settles, refunds, polls again or gives up exactly as the machine's step |
| PayoutDesk.PayoutDesk.ResumeUnresolved | packages/server/src/payouts/runner.ts:157-200 | asks about every open batch once; afterwards the open batches are exactly those whose answer decided nothing |
| PayoutDesk.OneRecordPerBatch | packages/server/src/payouts/withdraw.ts:158-193 | in every run a batch has at most one record |
| PoolBook.PoolStore.Create | packages/server/src/pools/pool-store.ts:94-124 | opens a pool exactly when all rules hold and one of five codes is unused, under the first such code |
| PoolBook.PoolStore.Close | packages/server/src/pools/pool-store.ts:133-141 | only the sponsor's own pool, and closing twice succeeds |
| PoolBook.PoolStore.ChangeBudget | packages/server/src/pools/pool-store.ts:147-156 | only the sponsor's own open pool |
| PoolBook.PoolStore.JoinByCode | packages/server/src/pools/pool-store.ts:163-172 | exactly with the code of an open pool, leaving any earlier one, nobody else affected |
| PoolBook.PoolStore.Leave | packages/server/src/pools/pool-store.ts:174-177 | ends the membership and nobody else's |
| PoolBook.PoolStore.MemberPool | packages/server/src/pools/pool-store.ts:180-184 | a membership counts exactly while its pool exists and is open |
| Rail.DecisionsAreFinal | packages/payments/src/stellar-rail.ts:237-259 | settled and failed are true and repeated by every later answer; expired too when seen past the bound |
| Rail.AnswersComeInTime | packages/payments/src/stellar-rail.ts:237-259 | what was included and seen is told as it ended; past the bound on chain and clock the answer is definite and true; before that nothing is called expired |
| Rail.ExpiredIsTrueExactlyWhen | packages/payments/src/stellar-rail.ts:241-247 | the rail's contract holds for all transactions with a bound exactly when the chain was seen at or after it or the clock had not passed it |
| RailWorld.SoundRunIsARun | packages/server/src/payouts/withdraw.ts:201-233 | while every reading is taken past the bound or before the clock passes it, the server believing the rail goes through a run of the money machine |
| RailWorld.SoundReadingsAreSafe | packages/payments/src/rail.ts:52-60 | so no payout is settled or reversed against what the chain does in the end, and the chain pays nobody more than the ledger took |
| RailWitness.UnsoundReadingPaysTwice | packages/payments/src/stellar-rail.ts:241-247 | for any chain view before and clock after the bound, a run in which a payout is given back and applied as well |
| RailWitness.RailIsSafeExactlyWhen | packages/payments/src/stellar-rail.ts:237-259 | over all runs with one bound and one way of reading, payouts are safe exactly when the chain is seen at or after the bound or the clock has not passed it |
| Serial.OneAtATime | packages/server/src/payouts/withdraw.ts:87-95 | jobs hung on the promise of the one before: at most one runs, in order of submission, and a job may start exactly when it waits and all before it settled, well or badly |
| TurnsMutex.MutexAlways | packages/cli/src/daemon/turns.ts:126-344 | after any events the holder is a session in a turn, none exactly when all are idle, an open show is the holder's, shows opened are emitted or open |
| TurnsMutex.MutexExpire | packages/cli/src/daemon/turns.ts:319-338 | the hand-over inside the expiry loop keeps the mutex |
| TurnsTime.ShownTimeFitsTheClock | packages/cli/src/daemon/turns.ts:286-313 | shown intervals are pairwise disjoint, durations are their lengths, and all together fit in the elapsed time |
| TurnsTime.QuietTurnsAreBounded | packages/cli/src/daemon/turns.ts:80-100 | what is counted for a session after its last hook stays below what its deadline leaves, over any ticks of any sessions |
| TurnsTime.NothingShownPastDeadline | packages/cli/src/daemon/turns.ts:203-261 | a tick shows a session something only before the deadline its hooks allow |
| TurnsTime.DeadlineFollowsHooks | packages/cli/src/daemon/turns.ts:177-184 | a running turn's deadline is its last hook plus the quiet limit |
| TurnsTime.StopLeavesGrace | packages/cli/src/daemon/turns.ts:187-195 | a stop leaves the grace period, whatever follows short of a new turn or the session's end |
| TurnsTime.AlwaysHealthy | packages/cli/src/daemon/turns.ts:126-344 | the invariant behind these results holds after any events in order of time |
| TurnsRules.RotationRule | packages/cli/src/daemon/turns.ts:245-260 | at the holder's tick the open show is recorded and replaced by the next ad exactly when it has been open for the rotation time; until then it stays the same show, seen up to now |
| TurnsRules.RotationKeepsUp | packages/cli/src/daemon/turns.ts:245-260 | in every run, after a counted tick the show on screen is the holder's, is the ad decided on, and has not yet been open for the rotation time |
| TurnsRules.OpeningRule | packages/cli/src/daemon/turns.ts:245-260 | with no show open the holder's tick opens one for the next ad, or hides for want of one |
| TurnsRules.SilentHolderGivesWay | packages/cli/src/daemon/turns.ts:223-233 | a holder silent for more than a minute is forgotten, its show recorded as far as it was seen, and the ticking session counts from now on |
| TurnsRules.LiveHolderKeepsCounting | packages/cli/src/daemon/turns.ts:223-243 | a holder heard of within the minute keeps counting; the other session sees its ad, or one of its own, uncounted |
| TurnsRules.TickIsNoted | packages/cli/src/daemon/turns.ts:217-221 | a tick is noted as the session's last, which is what take-over looks at |
| TurnsRules.HiddenRule | packages/cli/src/daemon/turns.ts:203-221 | what is hidden and for which reason, the first that holds; a blocked tick records the open show and opens none |
| TurnsRules.ExpiryRule | packages/cli/src/daemon/turns.ts:319-338 | exactly the sessions whose time is over drop out; if the holder is one its show is recorded and the mutex ends with the first session still in a turn, else holder and show stay |
| TurnsRules.TickAfterExpiry | packages/cli/src/daemon/turns.ts:203-204 | a tick sees the state after the expiries, so the rules about ticks cover holders that have just dropped out |
| TurnsRules.TurnStartRule | packages/cli/src/daemon/turns.ts:161-175 | a prompt opens the session's turn, takes a free mutex, and opens a show only for the holder and only when none is open |
| TurnsRules.HookRule | packages/cli/src/daemon/turns.ts:181-195 | signs of life and stops touch one showing session and only its own times |
| TurnsRules.SessionEndRule | packages/cli/src/daemon/turns.ts:269-275 | a session that ends is forgotten; if it held the mutex its show is recorded and the first session in a turn takes over |
| TurnsRules.RecordsAreKept | packages/cli/src/daemon/turns.ts:264-313 | in every run each record is numbered, as long as its show was seen, dated by the event that closed it and flagged by the minimum valid then, and what was handed over plus what waits is all that was recorded |
| TurnMachine.TurnMachine.OnTick | packages/cli/src/daemon/turns.ts:203-261 | performs exactly the tick of the event functions (what that does: the rules of TurnsRules) and keeps the mutex |
| TurnMachine.TurnMachine.OnTurnStart | packages/cli/src/daemon/turns.ts:161-175 | opens the turn, takes a free mutex, keeps a running show |
| TurnMachine.TurnMachine.OnActivity | packages/cli/src/daemon/turns.ts:181-184 | renews the quiet limit of a showing session only |
| TurnMachine.TurnMachine.DrainImpressions | packages/cli/src/daemon/turns.ts:264-266 | hands over what was completed since the last call and empties the list |
| TurnMachine.TurnMachine.OnTurnEnd | packages/cli/src/daemon/turns.ts:187-195 | starts the grace period of a showing session only |
| TurnMachine.TurnMachine.OnSessionEnd | packages/cli/src/daemon/turns.ts:269-275 | forgets the session and hands the mutex on |
| TurnMachine.TurnMachine.ExpireCooldowns | packages/cli/src/daemon/turns.ts:319-332 | the loop performs the expiries in order, handing over inside |
| TurnMachine.TurnMachine.CloseShow | packages/cli/src/daemon/turns.ts:296-313 | emits the show with the time between its ticks, flagged when too short |
| Queue.FilesAreAQueue | packages/cli/src/daemon/queue.ts:53-99 | for any finished adds and marks and compactions cut off anywhere, pending is exactly the plain queue: what was added minus what was sent, in order, newest entries over the limit |
| QueueRuns.PendingAfterTears | packages/cli/src/daemon/queue.ts:53-124 | for any run in which adds and marks may also be torn: pending are, in order of adding, records that landed on a line of their own and that no later mark wrote for good; every record that landed and was not marked is there unless a compaction dropped it among the oldest |
| Queue.CompactionKeepsPending | packages/cli/src/daemon/queue.ts:85-99 | at every crash point compaction leaves all that was pending, or the newest entries |
| Queue.TornLosesTwo | packages/cli/src/daemon/queue.ts:105-116 | from any files that end at a line end: a torn append and the next record are lost, and no other of the records added then; PendingAfterTears is the statement over all runs |
| Queue.CompactionMendsTheTear | packages/cli/src/daemon/queue.ts:85-99 | a compaction in between saves the next record, at any limit |
| Queue.TornMarkLosesNothing | packages/cli/src/daemon/queue.ts:77-82 | a torn or glued mark never hides a record that was not marked; which sent ones stay pending is in PendingAfterTears |
| Queue.MarksReadBack | packages/cli/src/daemon/queue.ts:77-82 | a finished mark is read back whole, a torn one as far as it was written and the one lacking only its line end, and after a torn mark the first identifier is lost with the one it is glued to |
| Queue.ImpressionQueue.Enqueue | packages/cli/src/daemon/queue.ts:53-62 | appends and compacts every so often; a failing append leaves what reached the disk and is not counted |
| Queue.ImpressionQueue.Waiting | packages/cli/src/daemon/queue.ts:65-68 | the records on disk not marked as sent |
| Queue.ImpressionQueue.CompactFiles | packages/cli/src/daemon/queue.ts:85-99 | rewrites the files and keeps what was pending, or the newest entries |
| Link.NothingMarkedEarly | packages/cli/src/daemon/sync.ts:178-211 | over lost, late and repeated messages and crashes of both ends, inside an append, a mark, a compaction or a batch, every id marked as sent was judged by the server at some moment of the run |
| LinkRuns.UnjudgedStaysPending | packages/cli/src/daemon/sync.ts:178-211 | end to end: a record that landed and that the server never judged is still pending in its place, unless a compaction dropped it among the oldest |
| LinkRuns.BilledOnceOverTheLink | packages/server/src/impressions/ingest.ts:42-64 | exactly-once billing holds of the server at the end of every run of the link |
| LinkRuns.LinkIsARun | packages/server/src/impressions/ingest.ts:100-137 | the server behind the link goes through a run of the money machine, so every result about runs speaks of the link |
| Link.ResendingYieldsDuplicates | packages/server/src/impressions/ingest.ts:109-116 | a batch sent again later yields duplicates only and changes nothing, while its records are kept |
| Link.EveryEventIsAnswered | packages/cli/src/daemon/sync.ts:191-203 | every event of a batch is in its answer |
| Link.ExchangeDelivers | packages/cli/src/daemon/sync.ts:178-211 | when nothing is lost, one exchange gets the oldest pending records, up to five hundred, judged and off the queue |
| Link.Sync.FlushOnce | packages/cli/src/daemon/sync.ts:178-211 | sends the oldest pending records up to the batch limit and marks what the answer lists, as far as the disk takes it; nothing without an answer |
| Deposits.DepositsExactlyOnce | packages/server/src/advertisers/deposits.ts:71-146 | for any pages and crashes, no payment is credited twice or wrongly, every matching one behind the cursor from a known address is credited, one from an unknown address is not |
| Deposits.ScanCatchesUp | packages/server/src/advertisers/deposits.ts:99-146 | one finished page over the rest of the history brings the cursor to its end, and every matching payment from an address known all along is then credited once |
| Deposits.DepositWatcher.TakePage | packages/server/src/advertisers/deposits.ts:99-146 | credits the matching payments of a page, counts credited and unmatched, moves the cursor last |
| RateLimit.WindowBound | packages/server/src/http/rate-limit.ts:36-53 | in any window of length T a key gets at most capacity plus floor of T over refill grants |
| RateLimit.WaitIsExact | packages/server/src/http/rate-limit.ts:46-49 | the returned wait is exactly the least delay after which the key is granted |
| RateLimit.CollectingIsInvisible | packages/server/src/http/rate-limit.ts:56-60 | collecting buckets never changes any later answer |
| RateLimit.RateLimiter.TakeToken | packages/server/src/http/rate-limit.ts:36-53 | performs the bucket step in place |
| AdLine.TruncateFits | packages/protocol/src/sanitize.ts:110-119 | never wider than the limit, identity when it fits, otherwise the longest fitting beginning and the mark |
| AdLine.LineFits | packages/protocol/src/sanitize.ts:237-291 | width at most the budget or the fixed part plus three, hence columns minus one from 29 columns on, with mark and brand intact |
| AdLine.AnsiIsPlainWithStyle | packages/protocol/src/sanitize.ts:271-291 | removing SGR sequences from the styled line gives the plain line |
| AdLine.RenderAdLine | packages/protocol/src/sanitize.ts:237-291 | the composed line, or an error on unsafe or empty fields |
| AdLine.Truncate | packages/protocol/src/sanitize.ts:110-119 | the loop computes the truncation |
| AdLine.DisplayWidth | packages/protocol/src/sanitize.ts:90-107 | the loop computes the sum of character widths |
| Amounts.AmountRoundTrip | packages/protocol/src/money.ts:57-77 | reading back a printed amount gives it, for every positive amount in range |
| Amounts.PrintedIsCanonical | packages/protocol/src/money.ts:57-65 | at most seven decimals, no trailing zero, no superfluous leading zero |
| Amounts.ReadersAgree | packages/payments/src/stellar-rail.ts:288-292 | the two readers agree on the grammar exactly except for negative amounts with a fraction |

## Left out

- WorldReserve.CoverLasts: opening a pool, raising a budget and clearing old records are set aside; the first two pledge new money and are not checked against it in the source, the last lowers what counts as spent.
- WorldBilling.RejectedStayUnbilled: the clearing of old records is set aside, because it removes the impressions the claim is about.
- Queue.FilesAreAQueue: finished writes and cut compactions only; runs with torn adds and marks are in QueueRuns.PendingAfterTears.
- Queue.TornLosesTwo: one tear and the finished appends after it; any number of tears, marks and compactions is in QueueRuns.PendingAfterTears.
- Queue.TornMarkLosesNothing: one mark; which marks hold for good over a run is in QueueRuns.PendingAfterTears.
- PayoutDesk.PayoutDesk.ResumeUnresolved: one record per batch, as withdrawals write them (OneRecordPerBatch); the batched job that wrote several is no longer scheduled.
- The class methods perform steps without a crash; crashes between durable writes are in the step functions of `World.dfy`.
- Deliveries dropped from memory stay in the database until its own clean-up; after a restart they are expired and can only turn an unknown nonce into an expired one.
- The asset column, entry ids and timestamps, transaction hashes, destination addresses and free-text notes.
- Identifiers are numbers compared for equality; string keys and references are structured values. Nonces, batch ids and entry ids are taken as fresh, the clock as non-decreasing.
- The variance rule and the IP check in `Verifier.evaluate` are arbitrary verdicts; the random tie-break is an arbitrary order of equal bids.
- Version strings are lists of numbers; parts that are not numbers are not modelled.
- Unicode normalisation is a parameter that brings in no escape; join codes come trimmed and upper-cased.
- The serial queue is proved by itself; the payment results allow every interleaving and do not need it.
- Clickable link shapes of the ad line, the spinner verb, `stripUnsafe`, `format`.
- `PayoutJob` and the payout runner's own rounds, the wallet store, the vault, profiles, leaderboard and statistics.
- HTTP routes, login, sockets, shims, settings files and the site: plumbing around the modelled parts.
- SQLite: durable state is the part of a value that survives a restart, written in the same order.
- Signatures, Horizon and the Stellar SDK: only the rail's contract and the choice of its answers.
- Conservation of prefetched ads: a session that does not count may consume one.
