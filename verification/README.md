# Points, commissions and the financial ledger: a verified model

This project models the money-moving core of the backend and proves what it keeps.  It has four linked parts.

* **Points.**  A user's points are USABLE charges with a denormalised balance.  Spend, transfer and expiry read a
  world, decide a plan, and execute it later with compare-and-swap guards; a missed guard rolls everything back.
  `PointCore`, `PointLedger` and `PointStore` follow the source; `PointConcurrency` lets any number of transactions
  read at one time and execute at another, in any order; `PointEffects` and
  `PointFifo` say what each then does to rows and balances, and in which order.
* **The financial ledger.**  Point charge, commission checkout, settlement and withdrawal, each an idempotent command
  with a key, a payload and a subject.  `LedgerTables` and `LedgerUseCases` state the tables and the decisions,
  `LedgerStore` is the imperative store whose every transaction is proved equal to them, `LedgerInvariant` and
  `LedgerKeeps` carry the invariant, and the theorems over whole runs are in `LedgerRuns`, `LedgerSettleable`,
  `LedgerAcceptance`, `LedgerRefusals`, `LedgerEffects`, `LedgerFifo`, `LedgerBalances`, `LedgerFunding`, `LedgerLineage`,
  `LedgerIdempotency`, `LedgerRepeats` and `LedgerKeys`.
* **Advisory locks.**  `Locks` and `LockProtocol` model the registry, the global order and lock-by-lock acquisition.
  `LedgerFrame`, `LedgerConcurrency` and `LedgerGuards` put the ledger's requests under those locks and prove that
  every interleaving is the serial run of its commits, so everything proved of runs holds of concurrent ones.
* **Calendar.**  `KstTime`, `IsoDate` and `Flags` do the deadline arithmetic on integer milliseconds and day numbers.

Together these give every answer of the ledger: `FirstTimeSucceedsIff` with `FirstSuccessWrites` and the `...Refusal`
lemmas for a new key and subject, `UsedKeyAnswers` for a used key, `NewKeyForOldSubject` and `PaymentAlreadyCharged` for a
new key and an old subject.  Their conditions are written out over the rows, not through the program's own checks.

How to read it: a row's id is its position in its table; a lot's or charge's creation instant is data, so the FIFO
order is a real sort (`FifoOrder`, `LotQueue`).  Uniqueness comes from the schema: prisma/schema.prisma:423 (command
key), :259 (reservation binding), :308 (one lot per operation), :350-356 (order link), :362 (one contract per order),
:418 (flow policy) and :470 (one swap per reservation).  The payload hash is the hashed JSON array itself.  Clocks are
parameters.  `LotGuard` also checks the lot's currency and a non-negative remainder: the first is the foreign key of
the allocation row (prisma/schema.prisma:307), the second the unsigned remainder; `GuardsNeverMiss` shows neither ever
decides anything.

Where the code and its documentation disagree, the code is modelled.  CONTEXT.md:14 says that repeating a key returns
the same command.  That is false for one family of point charges: a charge under a new key for a payment that was
already charged is answered without recording the key, so the key can later be spent on another payment
(`KeyIsGivenAway`, with a concrete run in `TheKeyPromiseFails`).  `RememberedIffKept` says exactly when the promise
holds, by a condition on the tables before the call.

## Model

| member | source | states |
|---|---|---|
| ReservationPlans.PlanReservation | src/modules/financial-ledger/financial-ledger.core.ts:26-50 | The loop computes the FIFO reservation decision: a plan exactly when lots cover a positive amount, else the error with the exact total available. |
| ReservationPlans.PlanIncomeWithdrawal | src/modules/income-withdrawal/income-withdrawal.core.ts:55-86 | The withdrawal loop computes the same decision, also refusing unsafe integers. |
| ReservationPlans.PlanIsWaterfall | src/modules/financial-ledger/financial-ledger.core.ts:26-50 | Both planners are one recursive waterfall: they succeed iff 0 < amount <= total, their parts are its non-zero entries and add up to the amount, and the shortfall names the total of all lots. |
| ReservationPlans.DrawsWithinLots | src/modules/financial-ledger/financial-ledger.core.ts:33-44 | Every allocation names a listed lot, assumes its balance, and takes a positive part of it. |
| ReservationPlans.DrawsDistinct | src/modules/income-withdrawal/income-withdrawal.core.ts:64-76 | No lot is allocated twice. |
| Waterfall.PourClosedForm | src/modules/point/point.core.ts:286-304 | Each part of a waterfall is the overlap of its capacity's prefix-sum interval with the amount. |
| Waterfall.PourAdditive | src/modules/point/point.core.ts:286-304 | Pouring x and then y over what is left leaves the remainders of pouring x + y. |
| Waterfall.PourOptimal | src/modules/point/point.core.ts:286-304 | No other feasible way of taking the same amount leaves less in any prefix. |
| Waterfall.PourFillsInOrder | src/modules/point/point.core.ts:286-304 | A capacity gives something only when every earlier one has given all it holds. |
| FifoOrder.OrderSorted | src/modules/point/point.write.repo.ts:57-62 | Loading orders rows strictly by instant, then id. |
| FifoOrder.OrderMembers | src/modules/point/point.write.repo.ts:57-62 | Ordering loses and invents no row. |
| FifoOrder.OrderKeep | src/modules/point/point.write.repo.ts:49-74 | Reloading after some rows left the filter gives the old order without them. |
| KstTime.EndOfDayIsLast | src/foundation/time.ts:76-83 | `kstEndOfDay` is the last millisecond of the KST day of an instant. |
| KstTime.KstDaySpan | src/foundation/time.ts:44-45 | KST day d is exactly the 86 400 000 milliseconds that start nine hours before UTC day d. |
| KstTime.AddDaysMovesTheDay | src/foundation/time.ts:53-55 | Adding days moves the KST day by exactly that number and keeps the time of day. |
| KstTime.DeadlineMonotone | src/foundation/time.ts:53-83 | Later instants never have earlier deadlines. |
| IsoDate.FormatRoundTrip | src/foundation/time.ts:65-67 | Formatting a four-digit-year date yields an accepted string that parses back to it. |
| IsoDate.DayNumberIsCivil | src/foundation/time.ts:65-67 | Every valid date has the day number of one closed formula without month table, leap predicate or recursion. |
| IsoDate.AcceptedIffOnCalendar | src/flags/flags.ts:56-66 | A string is accepted iff it has ten characters, two dashes, digits elsewhere, a month from 1 to 12 and a day from 1 to the difference of two consecutive month starts of that formula. |
| IsoDate.LexicographicIsChronological | src/flags/flags.ts:56-66 | On accepted date strings, string order is the order of the days they name, by day number and by the closed formula `CivilDay` (section 5.1 of RFC 3339). |
| IsoDate.CalendarDateNamesItsDay | src/foundation/time.ts:65-67 | For years 0000-9999 `kstCalendarDate` yields an accepted string whose year, month and day give the instant's KST day by the closed formula `CivilDay`, which uses no month table. |
| IsoDate.EndOfDayKeepsDate | src/foundation/time.ts:65-83 | `kstEndOfDay` carries the same calendar date, and one millisecond later does not. |
| Flags.BuiltRegistriesReport | src/flags/flags.ts:68-80 | Refusing malformed deadlines at declaration gives exactly the registries whose deadlines are all real days, and on those the report is exactly the flags past their day. |
| Flags.ReportedIffPastItsDay | src/flags/flags.ts:176-185 | A temporary flag is reported iff today's day number exceeds its deadline's. |
| Flags.DeclarationOrderKept | src/flags/flags.ts:176-185 | Reports keep declaration order. |
| Flags.EachOverdueOnceInOrder | src/flags/flags.ts:176-185 | The report is the entries past their day, each exactly once, at strictly increasing positions of the registry. |
| PointCore.SumUsableBalance | src/modules/point/point.core.ts:133-150 | The loop computes the charges' paid, free and total sums. |
| PointCore.PlanSpend | src/modules/point/point.core.ts:262-322 | The loop computes the spend decision with its three errors. |
| PointCore.PlanExpiry | src/modules/point/point.core.ts:445-471 | The loop computes which charges are due (by `DueIffYearPassed`, those past the 365th KST day after their own) and the balance without them. |
| PointCore.DueIffYearPassed | src/modules/point/point.core.ts:450-451 | A charge is due iff the next millisecond lies after the 365th KST day following the day it was charged. |
| SpendLaws.PourChargesIsTwoWaterfalls | src/modules/point/point.core.ts:286-304 | One pass over the charges is a paid and a free waterfall side by side, zero pairs dropped. |
| SpendLaws.SpendSucceedsIffCovered | src/modules/point/point.core.ts:262-322 | On an agreeing balance a plan exists iff 0 < amount <= total; the inconsistency error never arises. |
| SpendLaws.SpendClosedForm | src/modules/point/point.core.ts:262-322 | The plan's usages, after-balance and allocations in closed form; depleted marks exactly the touched charges left at zero. |
| SpendLaws.SpendTakesOverlap | src/modules/point/point.core.ts:286-304 | What a plan takes from each charge is the overlap of its prefix-sum interval with the usage, per kind. |
| PointLedger.FifoKeysAre | src/modules/point/point.write.repo.ts:49-74 | The loaded world is exactly the user's USABLE rows, each once, in charging order. |
| PointLedger.LoadedSum | src/modules/point/point.core.ts:133-150 | The sum over the loaded world is the table's own sum. |
| PointInvariant.SpendKeeps | src/modules/point/point.write.repo.ts:106-161 | A committed spend keeps cache agreement, row bounds, USABLE iff something is unspent, and lifetime accounts. |
| PointInvariant.ExpiryKeeps | src/modules/point/point.write.repo.ts:217-263 | The same for a committed expiry sweep, including that balances stay non-negative. |
| PointInvariant.ChargeKeeps | src/modules/point/point.write.repo.ts:266-298 | The same for a lock-free charge with its atomic increments. |
| PointInvariant.TransferKeeps | src/modules/point/point.write.repo.ts:171-180 | The same for a transfer, even to oneself. |
| PointInvariant.TransferConservesEachKind | src/modules/point/point.core.ts:354-368 | A transfer preserves the all-user total of paid and of free points. |
| PointInvariant.NoDrift | src/modules/point/point.service.ts:159-171 | Under the invariant the verify check accepts every user, and balances are non-negative. |
| PointConcurrency.EveryInterleavingAgrees | src/modules/point/point.service.ts:62-144 | In every interleaving of reads and later executions, each user's balance equals the sum of their USABLE charges and equals charged minus spent minus expired, per kind. |
| PointConcurrency.InterleavedTransferConserves | src/modules/point/point.service.ts:125-144 | In every interleaving a transfer, committed or not, leaves the all-user total of each kind. |
| PointConcurrency.CommitsIffCurrent | src/modules/point/point.write.repo.ts:106-263 | In every interleaving a plan, however old, commits iff every charge row it touches and the balance row still hold the values it assumed; otherwise it is a conflict. |
| PointConcurrency.AloneCommits | src/modules/point/point.service.ts:68-144 | A spend, transfer or sweep executed on the ledger it was decided on always commits. |
| PointConcurrency.LosersConflict | src/modules/point/point.write.repo.ts:106-263 | Of two plans (spend, transfer or sweep) that assumed the same value of a charge, once one commits the other ends in a conflict whatever happens in between. |
| PointEffects.InterleavedEffect | src/modules/point/point.write.repo.ts:106-263 | However others' actions fall between a transaction's read and its run, the run changes nothing or has exactly the effect of the request that was read, described on rows and balances: a transfer moves each usage from sender to receiver and adds one charge of the receiver's; a spend takes its usages from its user; a sweep empties only rows past their day. |
| PointFifo.EveryStepTakesOldest | src/modules/point/point.write.repo.ts:49-161 | In every interleaving, with charges of any instant arriving at any time: whichever step takes points of a kind from a charge, by a spend, transfer or sweep, fresh or stale, leaves nothing of that kind in any older charge of the user. |
| PointEffects.SpendNowOldestFirst | src/modules/point/point.write.repo.ts:57-62 | A spend alone takes from a charge only when nothing of that kind is left in any older USABLE charge of the user. |
| FifoOptimality.FifoLeavesLeastDue | src/modules/point/point.write.repo.ts:57-62 | Among all feasible allocations of the same usages, the planned one leaves the least paid and the least free value due at any instant. |
| SpendAdditivity.SpendNowCommits | src/modules/point/point.service.ts:70-76 | A spend alone on a consistent ledger commits iff the amount is positive and covered. |
| SpendAdditivity.SpendingIsAdditive | src/modules/point/point.core.ts:273-322 | Spending a then b leaves the charges, states and balances of spending a + b, under both policies. |
| ExpiryLaws.SweepNowRow | src/modules/point/point.write.repo.ts:217-263 | A sweep alone always commits and touches exactly the user's due USABLE rows. |
| ExpiryLaws.SweepsCompose | src/modules/point/point.core.ts:445-471 | Expiring at t1 and then t2 >= t1 equals expiring at t2, up to the stamp. |
| ExpiryLaws.RepeatedSweepIsInert | src/modules/point/point.write.repo.ts:217-222 | A repeat at the same instant changes nothing. |
| PointStoreModule.PointStore.ApplySpendPlan | src/modules/point/point.write.repo.ts:106-161 | In-place guarded updates succeed iff the specification does and leave its ledger. |
| PointStoreModule.PointStore.ApplyExpiryPlan | src/modules/point/point.write.repo.ts:217-263 | The same for expiry, with the number of expired charges. |
| PointStoreModule.PointStore.ApplyTransferPlan | src/modules/point/point.write.repo.ts:171-180 | The sender's balance becomes the plan's, the receiver's grows by the charge, nobody else's moves; one new row, the receiver's; all as one specification step. |
| PointStoreModule.PointStore.ApplyChargePlan | src/modules/point/point.write.repo.ts:266-298 | A new USABLE row and an upserted balance. |
| PointStoreModule.PointStore.Commit | src/db/uow.ts:83-92 | A decided plan commits whole or leaves the ledger untouched with a conflict. |
| PointStoreModule.PointStore.Charge | src/modules/point/point.service.ts:62-65 | Accepted iff both sides are non-negative and not both zero, with the exact error otherwise; adds one full USABLE row stamped with the instant and raises that user's balance alone. |
| PointStoreModule.PointStore.Spend | src/modules/point/point.service.ts:68-76 | Succeeds iff covered, with the exact error otherwise; paid points go first; only the user's USABLE charges lose points, oldest first per kind, an emptied one is CONSUMED; the balance falls by the usages and one spend row records them. |
| PointStoreModule.PointStore.Expire | src/modules/point/point.service.ts:99-108 | Always succeeds alone: a row becomes EXPIRED, empty and stamped iff it is the user's, USABLE, and `now + 1` ms lies after the 365th KST day following its charge; other users' balances do not move. |
| PointStoreModule.PointStore.Transfer | src/modules/point/point.service.ts:125-144 | Succeeds iff the users differ and the sender covers it, with the exact error otherwise; the sender's balance falls and the receiver's rises by the same usages, which sum to the amount; one new charge, the receiver's, stamped with the instant; the sender's charges are drawn oldest first; all-user totals stay. |
| PointStoreModule.PointStore.VerifyBalances | src/modules/point/point.service.ts:159-171 | Reports no drift iff every user's stored balance is the sum of their charges, which the invariant guarantees. |
| Locks.ComputeStringLockId | src/db/lock-registry.ts:18-25 | The loop computes the 32-bit FNV-1a hash read as a signed integer. |
| Locks.FnvVectors | src/db/lock-registry.ts:18-25 | The hash of the published test vectors "", "a" and "foobar". |
| Locks.RegistryOrder | src/db/lock-registry.ts:31-52 | Locks of different namespaces are acquired in the order of the registry's ten entries, whatever they lock. |
| Locks.OrderLocks | src/db/locks.ts:61-71 | The seen-set loop and sort return exactly the requested keys, strictly ascending. |
| Locks.OrderIsInputIndependent | src/db/locks.ts:61-71 | The order depends only on which keys are wanted. |
| LockProtocol.StepKeeps | src/db/uow.ts:64-69 | No key is ever held by two transactions. |
| LockProtocol.NoWaitCycle | src/db/locks.ts:54-60 | There is no wait-for cycle in any reachable state. |
| LockProtocol.DeadlockFree | src/db/uow.ts:64-69 | A step is enabled iff some transaction is unfinished. |
| LockProtocol.MaximalScheduleFinishes | src/db/uow.ts:129-145 | Schedules are bounded by the initial measure, and one that cannot be extended has finished everybody. |
| LockProtocol.UnorderedAcquisitionDeadlocks | src/db/locks.ts:54-60 | Without the sort, two opposing key pairs reach a state where nobody can step. |
| LockProtocol.LockTable.TryAcquire | src/db/uow.ts:72-81 | Non-blocking acquisition succeeds iff no key is held by another, and never disturbs what others hold. |
| LotQueue.LoadedLots | src/modules/financial-ledger/financial-ledger.repo.ts:46-65 | Loaded lots are distinct rows of the account with something left. |
| LotQueue.PlanIsFresh | src/modules/financial-ledger/financial-ledger.repo.ts:159-186 | A plan made from loaded lots passes every guard on them. |
| LotQueue.FreshTake | src/modules/financial-ledger/financial-ledger.repo.ts:177-186 | The guarded loop on the planned lots never misses and takes exactly the parts. |
| LedgerHistory.ApplyPlanExtends | src/modules/commission-checkout/commission-checkout.service.ts:96-135 | Whatever a use-case writes, rows are only appended and existing ones only move forward. |
| LedgerKeeps.CheckoutKeeps | src/modules/commission-checkout/commission-checkout.service.ts:96-135 | A committed checkout keeps the ledger and product invariant. |
| LedgerKeeps.SettleKeeps | src/modules/commission-settlement/commission-settlement.service.ts:108-137 | A committed settlement keeps it. |
| LedgerKeeps.WithdrawKeeps | src/modules/income-withdrawal/income-withdrawal.service.ts:53-94 | A committed withdrawal keeps it. |
| LedgerKeeps.ChargeKeeps | src/modules/point-charge/point-charge.service.ts:68-90 | A committed point charge keeps it. |
| LedgerKeeps.AliasKeeps | src/modules/transaction-flow/transaction-flow.repo.ts:142-150 | Saving an alias keeps it. |
| LedgerRuns.AliasIsSameCommand | src/modules/commission-checkout/commission-checkout.service.ts:170-186 | An alias row is the completed command under another key: same payload, subject, flow and result. |
| LedgerRuns.RunKeeps | src/modules/transaction-flow/transaction-flow.repo.ts:65-150 | Every run of requests, with any retries and rejections, keeps the invariant and only extends the tables. |
| LedgerRuns.EveryRunConserves | src/modules/financial-ledger/financial-ledger.repo.ts:159-219 | Over every run: POINT issued is available, held or settled; INCOME available plus held by withdrawals is the POINT settled; each lot is its remainder plus its allocations; each transfer is its hold's amount and the sum of its allocations. |
| LedgerRuns.OrderStatesInStep | src/modules/order/order.repo.ts:147-168 | Over every run an order is PAID iff it has a fully formed contract iff exactly one of its payments is PAID iff its slot is OCCUPIED. |
| LedgerRuns.SettledIffSwapped | src/modules/financial-ledger/financial-ledger.repo.ts:428-463 | Over every run a hold is SETTLED iff it has exactly one swap, with equal POINT and INCOME legs and one INCOME lot. |
| LedgerSettleable.EveryCheckoutIsSettleable | src/modules/commission-settlement/commission-settlement.core.ts:70-182 | After any run, a contract whose hold is HELD is settled by its worker's first request as soon as three rows exist (the platform's SETTLED POINT and ISSUER INCOME accounts, the worker's AVAILABLE INCOME account): the hold's escrow pays the platform, the platform issues exactly the commission's price of INCOME to the worker's account, as one lot stamped with the instant. |
| LedgerAcceptance.FirstTimeSucceedsIff | src/modules/commission-checkout/commission-checkout.core.ts:206-268 | On consistent tables a request with a new key and subject succeeds iff conditions written out over the rows hold, for all four use-cases: who asks, each product state, worker, flow, currency and price of a checkout, the covering balance, the existence of holder and account rows, and the flow policy. |
| LedgerRows.AccountsLoadIffTheyExist | src/modules/financial-ledger/financial-ledger.repo.ts:254-287 | A settlement's accounts are found iff the platform's two and the worker's one exist; no other is asked for. |
| LedgerRefusals.CheckoutRefusal | src/modules/commission-checkout/commission-checkout.core.ts:206-268 | The exact reason of every refused first checkout, in order: missing payment or holder, wrong buyer, states and terms, missing account, invalid amount or the exact shortfall, flow policy. |
| LedgerRefusals.WithdrawalRefusal | src/modules/income-withdrawal/income-withdrawal.core.ts:55-86 | The same for a withdrawal: missing holder or account, invalid amount, the exact shortfall. |
| LedgerRefusals.SettlementRefusal | src/modules/commission-settlement/commission-settlement.core.ts:70-182 | The same for a settlement: missing contract, holder or account, wrong actor or hold not HELD, flow policy. |
| LedgerRefusals.ChargeRefusal | src/modules/point-charge/point-charge.service.ts:54-72 | The same for a point charge: missing holder or account, malformed request. |
| LedgerEffects.FirstSuccessWrites | src/modules/financial-ledger/financial-ledger.repo.ts:78-219 | Every row a first-time success of each use-case writes, column by column with fresh ids, and the answer it gives; nothing else changes. |
| LedgerRepeats.UsedKeyAnswers | src/modules/commission-checkout/commission-checkout.service.ts:137-153 | A used key answers exactly the request it was used for, from the stored command and without a write, and refuses every other as a mismatch. |
| LedgerRepeats.NewKeyForOldSubject | src/modules/commission-checkout/commission-checkout.service.ts:155-189 | Paying or settling again under a new key succeeds iff the same person asks and the flow still allows it, and gives the original result under a command id of its own; the exact refusals otherwise. |
| LedgerRepeats.PaymentAlreadyCharged | src/modules/point-charge/point-charge.core.ts:53-85 | A charge of a payment already charged is answered iff payer and amount are the same, without a write; otherwise it is a mismatch. |
| LedgerFifo.EachDrawIsOldestFirst | src/modules/financial-ledger/financial-ledger.repo.ts:46-65 | After any served request, whatever the stamps, every lot older than one it drew on in the same account is empty. |
| LedgerFifo.OldestLotsDrainFirst | src/modules/financial-ledger/financial-ledger.repo.ts:46-111 | Over every run whose instants do not decrease: of two lots of one account and currency, the later one is untouched until nothing is left of the earlier one. |
| LedgerFifo.OldestLotsDrainFirstConcurrently | src/modules/financial-ledger/financial-ledger.repo.ts:46-111 | The same in every interleaving whose requests end in the order of their instants. |
| LedgerAcceptance.LoadedTotal | src/modules/financial-ledger/financial-ledger.repo.ts:46-65 | The loaded lots hold everything left in the account, whatever their order. |
| LedgerBalances.OnlyTheActorIsMoved | src/modules/financial-ledger/financial-ledger.repo.ts:78-219 | A first-time success changes exactly one spendable balance, that of the acting user's holder: plus the charge, minus the price, plus the settled amount, minus the withdrawal; replays and aliases change none. |
| LedgerBalances.EveryBalanceIsExplained | src/modules/financial-ledger/financial-ledger.repo.ts:410-612 | Over every run each balance is where it started plus the changes of its own user's first-time requests. |
| LedgerSettleable.SettlementDecides | src/modules/commission-settlement/commission-settlement.core.ts:70-182 | Every check of the settlement plan passes for such a contract. |
| LedgerLineage.LoadIncomeWithdrawalSources | src/modules/financial-ledger/financial-ledger.repo.ts:509-539 | The map-building loop computes the folded sources in order of first appearance, or fails on an unsourced lot. |
| LedgerLineage.SourcesAddUp | src/modules/financial-ledger/financial-ledger.repo.ts:509-539 | Over every run a withdrawal's sources are distinct flows with positive amounts that sum to the amount withdrawn. |
| LedgerLineage.LineageIsExact | src/modules/financial-ledger/financial-ledger.repo.ts:509-612 | Over every run, what all withdrawals drew from one commission flow is issued minus remaining of its INCOME, so never more than issued. |
| LedgerFunding.FundingAddsUp | src/modules/point-charge/point-charge.core.ts:148-175 | Over every run a POINT hold is traced iff it drew on no lot that was there before the run began; the traced amounts then sum to the hold, and each part is an allocation of the hold with the charge that minted its lot. |
| LedgerFunding.FundingIsExact | src/modules/financial-ledger/financial-ledger.repo.ts:121-158 | Over every run what all holds drew from a lot is issued minus remaining; the traces report all of it iff no untraceable hold drew on the lot. |
| LedgerFunding.ChargesFundEverything | src/modules/point-charge/point-charge.service.ts:39-50 | When all POINT came from charges, the traces of a charge's lot report exactly what has left it. |
| LedgerReceipts.ReceiptLoads | src/modules/commission-checkout/commission-checkout.repo.ts:3-45 | Every committed command can be answered from the tables. |
| LedgerReceipts.ReceiptStable | src/modules/commission-settlement/commission-settlement.service.ts:140-161 | The answer of a committed command never changes. |
| LedgerIdempotency.KeysAreStable | src/modules/commission-checkout/commission-checkout.service.ts:137-189 | After a success under its key and any further run, the same request returns the same command, operation and result with replayed true and changes nothing; a point charge needs its key to have been recorded. |
| LedgerIdempotency.OtherPayloadsAreRejected | src/modules/commission-settlement/commission-settlement.core.ts:199-222 | The key of a success rejects every other payload for ever. |
| LedgerIdempotency.AliasKeepsOperation | src/modules/commission-checkout/commission-checkout.service.ts:170-186 | An alias keeps its own command id, the original operation and result, and writes one command row. |
| LedgerIdempotency.EachPaymentOnce | src/modules/commission-checkout/commission-checkout.service.ts:137-189 | Over every run an order payment gets at most one operation, hold, link and contract. |
| LedgerIdempotency.EachExternalPaymentMintsOnce | src/modules/point-charge/point-charge.service.ts:54-102 | Over every run an external payment mints at most one lot. |
| LedgerIdempotency.LaterChargesReturnTheLot | src/modules/point-charge/point-charge.core.ts:53-85 | Every later successful charge naming a minted payment returns its lot, amount and operation, replayed, and writes nothing. |
| LedgerKeys.RememberedIffKept | src/modules/transaction-flow/transaction-flow.repo.ts:65-150 | For every request that succeeds on consistent tables: its answer is repeated, with no new effect, after any further run iff it is not a point charge under a new non-empty key for a payment already charged. |
| LedgerKeys.KeyIsGivenAway | src/modules/point-charge/point-charge.service.ts:61-66 | In that case a charge of another payment under the same key succeeds, and from then on the first request is refused as a mismatch. |
| LedgerKeys.TheKeyPromiseFails | src/modules/point-charge/point-charge.core.ts:75-85 | A concrete run in which the answered retry of a charge is not remembered. |
| LedgerLocks.NoSharedLockMeansApart | src/modules/commission-checkout/commission-checkout.service.ts:82-93 | Requests that share no lock differ in holder, command key, subject and slot. |
| LedgerLocks.ShareLockIffContend | src/modules/commission-checkout/commission-checkout.service.ts:82-93 | Two requests share a lock iff they concern one holder, one payment, slot or contract, or two of their hashed names collide. |
| LedgerFrame.ExecFootprint | src/modules/commission-checkout/commission-checkout.service.ts:96-135 | A commit writes only its own command rows, its own holder's lots, and its own payment, order, slot or hold. |
| LedgerFrame.DecisionFramed | src/modules/commission-checkout/commission-checkout.service.ts:58-67 | A commit under other locks changes neither a prepared transaction's decision nor what its replay look-ups find. |
| LedgerConcurrency.EveryInterleavingIsSerial | src/modules/commission-checkout/commission-checkout.service.ts:58-189 | Every lock-by-lock interleaving of the four use-cases, with transactions giving up at any point and starting over, leaves the tables of a serial run in commit order, and tells each request what that run tells it. |
| LedgerConcurrency.NobodyGetsInBetween | src/modules/commission-checkout/commission-checkout.service.ts:137-189 | From its empty replay check to its commit, no command with a transaction's key or subject is in the tables. |
| LedgerConcurrency.EachPaymentOnceConcurrently | src/modules/point-charge/point-charge.service.ts:22-37 | Each order payment and each external payment is acted on at most once in every interleaving. |
| LedgerConcurrency.SomebodyCanStep | src/db/uow.ts:129-145 | While a request is unfinished, some transaction can go on; nobody needs to give up. |
| LedgerConcurrency.EverybodyIsServed | src/db/uow.ts:129-145 | No schedule exceeds eight steps an attempt, and one in which nobody can go on has served everybody, however often requests gave up and were sent again. |
| LedgerGuards.ProceedCommits | src/modules/order/order.repo.ts:147-168 | On consistent tables a decision to proceed commits iff the flow's policy admits the command. |
| LedgerGuards.GuardsNeverMiss | src/modules/slot/slot.repo.ts:19-28 | Under the locks no compare-and-swap, lot guard or unique constraint ever misses, whatever committed since the plan. |
| LedgerStoreModule.LedgerStore.StartCommand | src/modules/transaction-flow/transaction-flow.repo.ts:100-105 | Inserts the command unless its key is taken or the flow's policy forbids it. |
| LedgerStoreModule.LedgerStore.ApplyReservation | src/modules/financial-ledger/financial-ledger.repo.ts:159-219 | The guarded loop, hold, escrow account, transfer and allocation rows equal the specified reservation. |
| LedgerStoreModule.LedgerStore.HoldIncome | src/modules/financial-ledger/financial-ledger.repo.ts:541-612 | The same for INCOME, with the withdrawal row. |
| LedgerStoreModule.LedgerStore.ApplyPointChargeLot | src/modules/financial-ledger/financial-ledger.repo.ts:78-111 | One lot per operation: a full POINT lot of the account, sourced by the operation and stamped with the instant. |
| LedgerStoreModule.LedgerStore.ApplyCommissionIncomeSettlement | src/modules/financial-ledger/financial-ledger.repo.ts:410-464 | Swap, both legs, the INCOME lot and the settled hold, or the first constraint that fails. |
| LedgerStoreModule.LedgerStore.ApplyCheckoutPayment | src/modules/order/order.repo.ts:147-168 | Two state compare-and-swaps and the link, in that order. |
| LedgerStoreModule.LedgerStore.ApplySlotOccupation | src/modules/slot/slot.repo.ts:19-28 | The slot's compare-and-swap. |
| LedgerStoreModule.LedgerStore.ExecuteCheckout | src/modules/commission-checkout/commission-checkout.service.ts:96-189 | Replay, alias or full checkout in the source's write order equals the specification. |
| LedgerStoreModule.LedgerStore.ExecuteSettlement | src/modules/commission-settlement/commission-settlement.service.ts:47-138 | The same for settlement. |
| LedgerStoreModule.LedgerStore.ExecuteWithdrawal | src/modules/income-withdrawal/income-withdrawal.service.ts:38-103 | The same for withdrawal, whose command is completed last. |
| LedgerStoreModule.LedgerStore.ExecutePointCharge | src/modules/point-charge/point-charge.service.ts:54-102 | The same for a point charge. |
| LedgerStoreModule.LedgerStore.Transact | src/db/uow.ts:129-145 | A whole transaction, with rollback on failure, equals one served request, and keeps the invariant. |
| LedgerStoreModule.CheckoutReceipt | src/modules/commission-checkout/commission-checkout.service.ts:122-134 | The result a checkout builds from its writes is the one every replay loads. |
| LedgerStoreModule.SettlementResult | src/modules/commission-settlement/commission-settlement.service.ts:129-137 | The same for a settlement. |

## Left out

- GraphQL, HTTP, OAuth, jobs, logging and telemetry: wrappers over libraries.
- SQL, Prisma and PostgreSQL row locks: tables are sequences, a guarded update is a match that must exist, and
  deadlock-freedom is claimed for advisory locks only.  Fairness is not modelled; a timeout is a transaction giving up.
- Interleaving inside one phase: in `LedgerConcurrency` the replay check, the plan and the commit of a transaction are
  one step each.  Others may commit between any two of them, and by `DecisionFramed` a commit in the middle of a phase
  could not have changed what the phase reads.
- Isolation levels: `PointConcurrency` lets a plan be executed on any later ledger, which covers both READ COMMITTED
  and a snapshot taken before the lock grant, so a transaction that the database would abort may still commit here if
  all its guards hold.
- Gaps in id sequences and UUID values: ids are positions.  `createdAt` of a command is its position too; which of
  several completed commands about one subject is found does not matter, because they differ only in their keys.
- Deferred trigger checks: their SQL is not part of this model; lot and transfer conservation is proved of the code.
- Creation of orders, payments, slots, commission types, holders and accounts during a run: they are rows of the initial
  tables, where an unpaid order is inert.  EXTRA_PAY, REFUND and CANCEL have no use-case in the source.
- int4 overflow and unsafe JavaScript integers: amounts are unbounded integers; safe-integer checks are modelled where
  the code makes them.
- Text of errors and debugging labels, user status, the `pointTransfer` gate, flag activation and variable redaction.
- Distinct error classes that the caller cannot tell apart are merged into one `Rejection` each.
- Accounting labels of a lot (issuance reason, category, policy version): they are written together with its charge
  source, so the trace's checks of them are its check of the source.
- SHA-256 and the quality of FNV-1a: a collision of lock ids only adds contention, and the proofs hold with collisions.
- VerifyBalances: does not fix the order in which users are checked, because the source leaves it to the query.
- EveryCheckoutIsSettleable: assumes that the commission's flow admits SETTLE, which whoever creates the flow decides.
- IsoDate.CalendarDateNamesItsDay: years outside 0000-9999 are not covered, where the formatted string is no longer a full-date.
