# The storefront's money core, verified

This project models the parts of the storefront that decide where money goes, and proves what
they keep:

- the wallet: an append-only ledger with one cached balance and one cached reserve per user;
- the order engine: quote, reserve, submit, capture or release, then sync, partial refund, closing
  refund, refill, cancel, review and the stuck-order check;
- deposits: settlement of verified payments from webhooks, the buyer's check, an operator, and
  reconciliation;
- commissions, payouts and the pending forecast, coupons, and the sell-price layers;
- beside it, the sliding-window rate limiter and the provider catalog sync.

The money core is one state machine. `Tables.Db` is the value of the database, `Engine.Event`
names every call with the provider's or gateway's answer as an argument, `Engine.Handle` gives the
new database or the exception, and `Engine.Run` is any sequence of calls, each its own
transaction. The services themselves (`WalletService`, `OrderService`, `PaymentService`,
`ReferralService`, `EngineService`) are methods that change a `Tables.Store` session step by step;
each is proved to end in exactly the state its function gives, and `EngineService.ServeAll` ties
any run of service calls to `Engine.Run`. So what is proved of runs holds for the services.

What each call answers is stated apart from how it is computed: the modules `PlaceRules`,
`OrderRules`, `Receipts`, `SettlementRules`, `QuoteRules`, `WalletRules`, `AccountRules`,
`CatalogRules` and `LimiterRules` say of every main operation exactly when it goes through, what it
leaves behind, and that otherwise nothing changes. The other results are about what follows from that
over whole runs.

## What turned out to be false of the code

Each of these is proved, with the exact condition under which the code does meet the property.

- **Cancelling an order the provider reported as pending.** Sync may write `pending` onto a captured
  order. A cancel then takes the release branch: nothing is refunded
  (`Consequences.PendingCancelCreditsNothing`), and up to the order's charge is taken off the
  owner's other holds. A call keeps the books if and only if it is not such a cancel with something
  held or owed (`EngineKept.StepKeepsBooksIff`, `RunKeepsBooksIff`). The damage stays with that
  order's refund and that owner's reserve: the ledger, every balance and every refund read from an
  order's own events stay right in all runs (`EngineKept.RunKeepsMoney`,
  `Consequences.BalanceIsTheBusiness`, `RefundsFollowTheOrder`), and a user's reserve is the sum of
  the held orders throughout a run exactly when no such cancel is one of that user's
  (`Holds.RunHoldsIff`). `Incidents.SyncedPendingCancelBreaksTheBooks` is a run of seven calls that
  does it.
- **A provider report of `refunded`** credits nothing, although the comment beside the guard
  promises the remaining value (`Consequences.ClosingReportRefundsIff`,
  `Incidents.RefundedReportCreditsNothing`).
- **The cap of three order commissions** looks at the lowest ids among the orders that stand
  completed at that moment. Over all runs an order is paid for exactly if at some moment it completes
  with something to earn while fewer than three lower ids stand completed
  (`CommissionCap.CommissionedIff`), and at most three are paid for if and only if no such completion
  of a further order ever happens when three are paid for already (`CommissionCap.CapOverRuns`). It
  takes an order with a lower id than one paid for, or a refill that took one of those out of the
  completed ones (`WhyTheCapBreaks`). Either way there is no bound at all: for every n there is a run
  of n orders completed from the newest to the oldest, and one in id order with refills in between,
  that pays n commissions (`CapBeaten.EveryDescendingRunBeatsTheCap`,
  `EveryRefillingRunBeatsTheCap`). Without refills the cap holds unless one order overtakes three
  others (`CommissionCap.CapWithoutRefills`).
- **The deposit commission** is documented as being for the first deposit. The paid count is read
  before the deposit at hand is stored, so one earlier paid deposit does not rule it out. Over all
  runs it is for the first paid deposit if and only if that one was settled while the buyer had a
  referrer and 5% of it was at least a paisa; failing that, for the second one under the same
  condition; never for a later one (`DepositRewards.DepositEarnsIff`).
  `Incidents.SecondDepositCanEarn` is a run in which the second one earns.
- **Replaying a client key** returns the same order if and only if that order has not failed. The
  retry is stored under another key, so every further replay stores one more order
  (`Replays.ReplayIsHarmlessIff`, `Incidents.EveryReplayStoresAnOrder`).
- **A reseller discount can raise the price**: without a coupon, exactly when the 10% floor resellers
  are held to costs more at the quantity ordered than the retail rate does
  (`Pricing.ResellerPaysMoreIff`, `Incidents.ResellerIsQuotedMore`).
- **A coupon use** is documented as consumed only by an order that was accepted. An order cancelled
  before any provider had it keeps its use: of the closed orders that no provider ever had, exactly the
  cancelled ones do (`CouponUses.UnacceptedKeepsUseIff`).

## Model

| member | source | states |
|---|---|---|
| Wallet.AppendKeepsLedger | app/wallet.py:148-196 | writing one entry keeps keys distinct, every entry's balance the prefix sum of its user, the hold within the balance, and the cached columns equal to the newest entry |
| Wallet.RunsKeepLedger | app/wallet.py:199-392 | every interleaving of credit, debit, reserve, release and capture across users keeps the ledger replayable |
| Wallet.LedgerOnlyGrows | app/wallet.py:148-196 | no call removes or rewrites an entry or forgets a user |
| Wallet.RepeatsAreInvisible | app/wallet.py:140-217 | repeating a call that once succeeded, at any later point, leaves the whole run's result unchanged |
| WalletRules.WalletAnswers | app/wallet.py:140-392 | each of the five calls goes through exactly for a positive amount that repeats an earlier call or is covered; a repeat changes nothing, and any other moves the two columns by what the call is for and writes the one entry that says so |
| WalletService.Append | app/wallet.py:148-196 | in place: the three refusals, or both cached columns and one appended entry |
| WalletService.Credit | app/wallet.py:199-231 | in place: adds the amount to the balance unless it is not positive or a replay, and nothing else changes |
| WalletService.Debit | app/wallet.py:234-271 | in place: takes the amount off the balance unless it is not available or a replay |
| WalletService.Reserve | app/wallet.py:274-307 | in place: puts the amount on hold unless it is not available or a replay |
| WalletService.Release | app/wallet.py:310-356 | in place: takes the amount off the hold, clamped to what is on hold |
| WalletService.Capture | app/wallet.py:359-392 | in place: takes the amount off hold and balance, refusing more than is on hold |
| EngineKept.StepKeepsBooksIff | app/orders.py:221-701 | from books in order, a call of any kind leaves them in order if and only if it is not a harmful cancel |
| EngineKept.StepKeepsMoney | app/orders.py:221-701 | from any state whose ledger, balances and refunds are right a call of any kind leaves them right, and every call but the cancel of a synced-back pending order also keeps each exact reserve and each full refund |
| EngineKept.RunKeepsMoney | app/orders.py:221-701 | the ledger, every balance and every order's refunds stay right in every run, harmful cancels included |
| EngineKept.PendingCancelOutcome | app/orders.py:584-613 | what the cancel of a synced-back pending order does: it succeeds, takes the charge off the owner's reserve as far as there is one, leaves the reserve exact if and only if it was empty and the order in full if and only if it already was, and spoils no other user and no other order |
| EngineKept.RunKeepsBooksIff | app/orders.py:221-701 | the books are in order in every state of a run if and only if no call of it is a harmful cancel |
| EngineKept.HarmBreaksBooks | app/orders.py:584-613 | a harmful cancel succeeds and leaves holds that match no order, or a closed order short of its refund |
| EngineKept.PlaceKeeps | app/orders.py:221-393 | placing keeps the books whatever the provider answers, a crash after the reserve included, and succeeds for a new request if and only if its order could be stored with its reserve |
| EngineKept.SubmitKeeps | app/orders.py:351-393 | submitting a held order keeps the books, and raises if and only if the provider accepts it while less than its charge is reserved |
| EngineKept.SyncKeeps | app/orders.py:434-470 | every provider report is taken over without an error and keeps the books |
| EngineKept.CloseKeeps | app/orders.py:512-542 | closing a captured order never raises, keeps the books and leaves the order exactly refunded |
| EngineKept.CancelKeeps | app/orders.py:570-614 | a cancel of anything but a synced-back pending order keeps the books |
| EngineKept.ResolveKeeps | app/orders.py:635-675 | closing a review keeps the books either way; releasing always succeeds, attaching if and only if the charge is still reserved |
| EngineKept.SettleKeeps | app/payments/service.py:163-227 | a settlement keeps the books whatever it decides |
| EngineBooks.ReleaseHeldKeeps | app/wallet.py:310-356 | giving back the hold of a held order succeeds, takes the charge off the reserve as far as there is one, and keeps the books |
| EngineBooks.CaptureHeldKeeps | app/wallet.py:359-392 | capturing a held order succeeds if and only if its charge is reserved, and then takes exactly that and keeps the books |
| PlaceRules.PlaceAnswers | app/orders.py:221-393 | a request goes through if and only if user, switches, service, quote and charge allow it, and it replays an order that has not failed or its charge is available and its key free; then exactly one row as asked and answered, and the charge debited, held or left by the answer; a request that raises or replays changes nothing |
| PlaceRules.KnownKeys | app/orders.py:151-167 | a key is known when it is remembered for a stored order, or else when an order carries it |
| OrderRules.SyncAnswers | app/orders.py:434-470 | a report never raises and changes nothing about a closed order or one not at a provider; otherwise the row takes its counters, its status, and refunded after canceled or failed when something was owed, with the events that say so, and no money moves but on completion, closing and partial delivery |
| OrderRules.PartialReportIsFair | app/orders.py:458-509 | the first partial report that says how much is left credits the undelivered share to the nearest paisa, ties to even, or all that is owed when that is less; one without remains, with nothing left, or after another credits nothing |
| OrderRules.CancelAnswers | app/orders.py:570-614 | a cancel goes through if and only if the caller is the owner or staff, the order is cancelable and in one of four statuses, and the provider agrees when it has the order; it then gives the hold back or credits what is owed; otherwise nothing changes |
| OrderRules.RefillAnswers | app/orders.py:545-567 | a refill goes through if and only if refills are open, caller, order and status allow it and the provider agrees; it changes that row only, and a refused one changes nothing |
| OrderRules.ResolveAnswers | app/orders.py:635-675 | a review is closed if and only if exactly one resolution is asked for, and attaching while the charge is reserved; the row, the hold and the debit that each resolution leaves |
| OrderRules.FlagAnswers | app/orders.py:678-701 | the stuck-order check moves an order to review if and only if it was never submitted, is stale and fewer than limit such orders precede it |
| Holds.StepHoldsIff | app/orders.py:221-701 | a call of any kind leaves a user's exact reserve exact if and only if it is not the cancel of that user's synced-back pending order with something reserved |
| Holds.RunHoldsIff | app/orders.py:221-701 | a user's reserve is the sum of the user's held orders in every state of a run if and only if no call of it is such a cancel of that user's own order |
| Holds.HoldsAreTheHeldOrders | app/orders.py:327-393 | from the empty database, for a user no such cancel touched: the reserve is the sum of the held orders, so release never clamps and capture never raises |
| Holds.ReviewHoldsFunds | app/orders.py:635-701 | while no such cancel touches the owner, an order in review stays as it is until its own resolution, at least its charge stays reserved, and both resolutions would succeed |
| Holds.CoverIsLostIff | app/orders.py:584-675 | over arbitrary states: a call takes the cover away from a held order it does not settle if and only if it frees another order of the owner whose charge was not reserved beside this one's |
| Holds.OnlyPendingCancelTakesCover | app/orders.py:584-613 | where the reserve was exact, only the cancel of a synced-back pending order of the owner can do that |
| Consequences.BalanceIsTheBusiness | app/wallet.py:163-195 | in every state of every run a balance is deposits, plus refunds, plus 8% of each commissioned order and 5% of each rewarded deposit of the users referred, plus adjustments and bonuses, less captured charges and payouts, each summed from its own rows |
| Consequences.CommissionsArePercentages | app/referrals.py:183-265 | in every state of every run each commission went to the buyer's referrer, never the buyer, and is 8% of its order or 5% of its deposit rounded down |
| Earnings.OutsideIsEarned | app/referrals.py:183-265 | the commissions in the ledger are the percentages of the order and deposit rows they were earned on, each row once |
| Consequences.RefundsFollowTheOrder | app/orders.py:206-218 | in every state of every run the credits for an order are what its rows say: 0 before capture, never above its charge, and exactly its charge once it was closed after capture in any way but a report of refunded or a cancel from pending |
| Consequences.ClosedOrdersAreRepaid | app/orders.py:434-614 | a captured order closed by a report of canceled or failed, or by a cancel from processing or in progress, has exactly its charge credited in every later state of every run |
| Consequences.PendingCancelCreditsNothing | app/orders.py:584-598 | the one exception: the cancel of a synced-back pending order closes it and credits nothing |
| Consequences.ClosingReportRefundsIff | app/orders.py:455-462 | a closing report returns the whole charge if and only if it says canceled or failed or nothing was owed; refunded credits nothing |
| Incidents.SyncedPendingCancelBreaksTheBooks | app/orders.py:584-598 | a concrete run that ends with an unrefunded cancelled order and a held order that cannot be captured |
| Incidents.RefundedReportCreditsNothing | app/orders.py:455-462 | a concrete run that ends with a captured order closed as refunded and not one paisa credited |
| Lifecycle.RunsKeepTrails | app/orders.py:135-148 | in every run an order's events are a connected path of allowed edges from pending to its status |
| Lifecycle.OrderEvolves | app/orders.py:434-701 | one call keeps a stored order's owner, charge, key, coupon, quantity and events so far, leaves closed orders alone, and reopens a completed one only by refill |
| Lifecycle.ClosedOrdersStayClosed | app/models.py:477-482 | failed, canceled and refunded are never left, over all runs |
| Lifecycle.ReviewStays | app/orders.py:635-701 | in every run an order in review stays exactly as it is until its own resolution |
| Lifecycle.FlagsOldestFirst | app/orders.py:678-701 | the stuck-order check moves exactly the oldest limit of the stale unsubmitted orders |
| Replays.KeysAreRemembered | app/orders.py:151-167 | a request key once known leads to the same order in every later state |
| Replays.ReplayIsHarmlessIff | app/orders.py:271-276 | a replay changes nothing if and only if its order has not failed; otherwise it stores one more order each time |
| Incidents.EveryReplayStoresAnOrder | app/orders.py:271-276 | a concrete run in which one client key, once rejected and twice replayed, ends in two further charged orders |
| Coupons.RunsKeepCoupons | app/orders.py:170-203 | every run keeps a coupon's counter equal to the number of its redemption rows and within its limits, and no redemption belongs to an order that was rejected, from any state in which this holds |
| Coupons.UnusedCoupons | app/orders.py:170-203 | it holds of the empty database with unused coupons |
| CouponUses.RunsKeepUses | app/orders.py:170-203 | in every run an order with a coupon has its redemption row if and only if it was not rejected |
| CouponUses.UnacceptedKeepsUseIff | app/orders.py:170-186 | of the closed orders no provider ever had, exactly the cancelled ones keep their coupon use |
| CouponUses.OnlyCancelCancels | app/orders.py:570-614 | only its own cancel call closes an order as cancelled before a provider has it |
| Coupons.FailKeepsCoupons | app/orders.py:170-186 | a rejected order gives back exactly its own use |
| Coupons.UsedCoupons | app/pricing.py:195-234 | counting the use of a quoted coupon keeps every coupon within its limits |
| OrderService.RecordEvent | app/orders.py:135-148 | in place: appends one event from the old status to the new one and moves the order, nothing else |
| OrderService.GiveCouponBack | app/orders.py:170-186 | in place: removes the order's redemption and takes one use off the counter, or changes nothing |
| OrderService.FailAndReleaseOrder | app/orders.py:189-203 | in place: release, coupon, event, or the error and nothing changed |
| OrderService.SubmitOrder | app/orders.py:351-393 | in place: capture, release, review or nothing, by the provider's answer |
| OrderService.AttachAndCapture | app/orders.py:382-392 | in place: provider id, capture and event, or a rollback |
| OrderService.TakeCounters | app/orders.py:449-454 | in place: takes over the start count and remains a report carries |
| OrderService.CountCouponUse | app/orders.py:335-349 | in place: one use onto the counter and one redemption for the order, or nothing without a coupon |
| OrderService.StoreOrder | app/orders.py:278-349 | in place: order row, remembered key, reserve, event and coupon use, or a rollback |
| OrderService.Place | app/orders.py:221-393 | in place: the same final database as the state machine for every answer, replay and error |
| OrderService.PayPartialRefund | app/orders.py:473-509 | in place: one credit with its record, capped by what is owed, or nothing |
| OrderService.RefundClosedOrder | app/orders.py:512-542 | in place: credits what is owed with its record and moves to refunded, or nothing |
| OrderService.SyncStatus | app/orders.py:434-470 | in place: counters, status and the refund or commission its new status calls for; an error rolls all of it back |
| OrderService.RequestRefill | app/orders.py:545-567 | in place: each refusal in order, or the counted refill |
| OrderService.RequestCancel | app/orders.py:570-614 | in place: each refusal in order, then release or credit, then the event |
| OrderService.ResolveReviewOrder | app/orders.py:635-675 | in place: the refusals in order, then the release or the attached and captured order |
| OrderService.FlagStuckOrders | app/orders.py:678-701 | in place: the loop computes the specified pass over the orders |
| Deposits.RunKeepsDeposits | app/payments/service.py:163-227 | over all runs, harmful cancels included, an invoice is paid exactly when the ledger holds its credit |
| Receipts.SettleAnswers | app/payments/service.py:163-227 | an unpaid invoice becomes paid if and only if the receipt is of its gateway or by hand, contradicts no reference, states its amount and no other currency ignoring case, the owner is known and the amount positive; held if and only if gateway and reference pass and the rest does not; otherwise nothing changes |
| SettlementRules.CallAnswers | app/payments/service.py:231-401 | every notice, buyer's check, operator's confirmation and any other call, seen from every invoice: exactly when it becomes paid, held or expired, and otherwise it stays as it was |
| SettlementRules.NoticeIsRemembered | app/payments/service.py:231-282 | a notice counts as processed afterwards exactly unless settling it raised |
| SettlementRules.ReconcileAnswers | app/payments/service.py:286-333 | reconciliation raises and changes nothing exactly when an invoice fits its answer and has nothing to credit; otherwise each invoice asked about follows its answer and the others stay |
| PaymentRuns.SettlementReachesMaximum | app/payments/service.py:183-218 | after any run without reconciliation an invoice stands at the highest level any event lifts it to, in pending < expired < review < paid |
| PaymentRuns.SettlementIsConfluent | app/payments/service.py:243-272 | two runs with the same events in any order and with any redeliveries leave the same status and the same credit |
| PaymentRuns.ReconcileRises | app/payments/service.py:286-333 | reconciliation only moves an invoice upward |
| PaymentRuns.DepositExactlyOnce | app/payments/service.py:187-218 | the entry under an invoice's key is unique, its owner's, for its amount, and there if and only if the invoice is paid |
| PaymentRuns.DepositsAreCreditedOnce | app/payments/service.py:187-227 | the same in every state any run from the empty database reaches |
| PaymentRuns.PaidIsNeverLeft | app/payments/service.py:268-269 | whatever calls follow, a paid invoice never changes and no invoice sinks |
| Payments.ReconcilesOldestFirst | app/payments/service.py:296-309 | the invoices asked about are the oldest open ones, in order, and one is left out only for lack of room |
| PaymentService.SettlePayment | app/payments/service.py:163-227 | in place: each verdict, the credit, the commission and the paid row, or a rollback |
| PaymentService.ExpirePayment | app/payments/service.py:268-269 | in place: only a pending invoice expires |
| PaymentService.FollowAnswer | app/payments/service.py:317-332 | in place: settles or expires the invoice by the gateway's answer |
| PaymentService.ReceiveNotice | app/payments/service.py:231-282 | in place: a notice is processed exactly once |
| PaymentService.CheckInvoice | app/payments/service.py:363-401 | in place: only the owner's unpaid gateway invoice is asked about |
| PaymentService.ConfirmByHand | app/payments/service.py:336-352 | in place: settles the invoice for its own amount, whatever its gateway |
| PaymentService.ReconcilePending | app/payments/service.py:286-333 | in place: the loop settles or expires each selected invoice by its answer; an error rolls all of it back |
| PaymentService.OpenInvoice | app/payments/service.py:98-159 | in place: a failed checkout leaves no invoice behind |
| AccountRules.DepositRequestAnswers | app/payments/service.py:89-159 | an invoice is opened if and only if user, switch and range allow it, its key is free or its own, and its online checkout succeeded; exactly one pending row, or nothing |
| CommissionRuns.CommissionsAreEarnedOnce | app/referrals.py:183-265 | over all runs every commission goes to the buyer's referrer for exactly its percentage, at most one per order and at most one deposit commission per buyer |
| DepositRewards.DepositEarnsIff | app/referrals.py:227-265 | over all runs: the deposit commission of a buyer is for the first paid deposit if and only if that was settled while the buyer had a referrer and was worth a paisa, else for the second under the same condition, never for a later one |
| DepositRewards.RunKeepsRewards | app/referrals.py:227-265 | the same as an invariant of runs from any state without a reward so far |
| Incidents.SecondDepositCanEarn | app/referrals.py:232-241 | a concrete run in which the second deposit earns the commission |
| CommissionRuns.LedgerAndAttributionOnlyGrow | app/referrals.py:68-88 | over all runs the ledger is append-only and a referrer once set stays |
| CommissionCap.CommissionedIff | app/referrals.py:183-224 | over every run from the empty database, refills included, the orders of a buyer that are paid for are exactly those that at some moment completed while the buyer had a referrer, 8% was a paisa, and fewer than three lower ids stood completed |
| CommissionCap.CapHoldsIff | app/referrals.py:190-217 | for any history of completions and refills, at most three orders are paid for if and only if no completion pays for a further one when three are paid for already |
| CommissionCap.WhyTheCapBreaks | app/referrals.py:190-200 | an order paid for beyond the cap has a lower id than one paid for before, or one of those no longer stands completed |
| CommissionCap.CapOverRuns | app/referrals.py:183-224 | the same over every run from the empty database, for the commissions in the ledger |
| CommissionCap.CapWithoutRefills | app/referrals.py:190-217 | over the runs that send no completed order of the buyer back: at most three unless one overtakes three others, then exactly the earners among the first three; when all had something to earn, if and only if; id order suffices |
| CommissionCap.CompletedBelowIsSize | app/referrals.py:190-200 | the count the cap is checked with is the number of lower ids that stand completed |
| CommissionCap.DescendingOrdersBeatTheCap | app/referrals.py:190-200 | orders completed from newest to oldest all pay, however many |
| CapBeaten.EveryDescendingRunBeatsTheCap | app/referrals.py:190-217 | for every n a run of the engine from the empty database with n orders completed from newest to oldest that pays n commissions |
| CapBeaten.EveryRefillingRunBeatsTheCap | app/referrals.py:190-217 | for every n a run of the engine that completes n orders in id order, with a refill before each from the fourth on, and pays n commissions |
| Forecast.PendingIsWhatCompletionCredits | app/referrals.py:314-345 | any run that completes exactly the downline's open orders in id order and reopens none, whatever other calls come between, credits the pending commission shown beside the deposit commissions it earns |
| ReferralService.CreditCompletedOrder | app/referrals.py:183-224 | in place: each reason to pay nothing, or one credit to the referrer under the order's key |
| ReferralService.CreditFirstDeposit | app/referrals.py:227-265 | in place: each reason to pay nothing, or one credit to the referrer under the buyer's key |
| ReferralService.PayOut | app/referrals.py:532-568 | in place: debit and payout row together, or the error |
| AccountRules.PayoutAnswers | app/referrals.py:532-568 | a payout goes through if and only if the user is known and at least 10,000 paise are asked for and available; it lowers the balance by that and stores one row |
| ReferralService.PendingCommission | app/referrals.py:314-345 | the greedy loop over open orders computes the forecast |
| EngineService.Register | app/wallet.py:62-124 | in place: a first visit stores an empty wallet, a later one changes nothing |
| EngineService.Attribute | app/referrals.py:68-97 | in place: sets the referrer once, never to the visitor |
| AccountRules.VisitAnswers | app/referrals.py:68-97 | a first visit stores an empty wallet, a start link sets the referrer of a user who has none to another known user, and nothing else changes |
| AccountRules.AdjustAnswers | app/bot/handlers/admin.py:350-378 | an adjustment goes through if and only if it is not zero and available when negative; it moves the balance by its amount once |
| AccountRules.WelcomeAnswers | app/bot/handlers/start.py:138-151 | a positive bonus moves the balance of a known user by its amount, once |
| EngineService.AdjustWallet | app/bot/handlers/admin.py:350-378 | in place: credits or debits under the adjustment's key |
| EngineService.GiveWelcomeBonus | app/bot/handlers/start.py:138-151 | in place: one credit per user under the welcome key |
| EngineService.ServeOrder | app/orders.py:221-701 | every call that moves an order ends in the state machine's new state, or raises its error |
| EngineService.Serve | app/orders.py:221-701 | every call on the session ends in the state of the state machine's step |
| EngineService.ServeAll | app/orders.py:221-701 | any run of calls on the session ends in the state of the state machine's run |
| Pricing.QuoteKeepsMargin | app/pricing.py:237-304 | through every layer, reseller discount and coupon the charge covers scaled cost and scaled margin floor, and a coupon is carried if and only if it took something off; the reseller discount shown is the difference to retail |
| Pricing.ResellerPaysMoreIff | app/pricing.py:116-121 | without a coupon both quotes succeed or neither, and the reseller is charged more if and only if the reseller floor scaled to the quantity exceeds the retail rate scaled to it |
| Incidents.ResellerIsQuotedMore | app/pricing.py:116-121 | a concrete quote in which the reseller with 5% off pays 1100 where anybody else pays 1000 |
| Pricing.QuoteIgnoresLowerLayers | app/pricing.py:124-304 | markup rows ranked below the deciding layer never change a quote, whatever its reseller discount, coupon or quantity |
| QuoteRules.QuoteAnswers | app/pricing.py:237-304 | a quote is given if and only if the service is active, the quantity within its limits, and the coupon, if any, usable on the subtotal |
| QuoteRules.QuoteIsLeast | app/pricing.py:104-304 | the retail rate is the least whole number that the first layer set asks, the margin and the cost allow; the reseller rate the least that the discounted retail rate and 10% allow; subtotal and cost the least whose 1000-fold reaches rate times quantity |
| QuoteRules.DiscountIsMost | app/pricing.py:269-304 | the discount is the largest that the coupon promises and the protected margin leaves, and none without a coupon |
| QuoteRules.CouponAnswers | app/pricing.py:195-234 | a coupon is accepted if and only if it is active, not expired, and within minimum order, total and per-user limits, and offers the most it promises within the subtotal |
| QuoteRules.FloorIsLeast | app/pricemath.py:8-11 | the margin floor is the least whole rate that covers the cost and leaves the margin |
| PriceMath.CapIsLargest | app/pricemath.py:20-30 | the capped discount keeps the floor, and any larger allowed one would not |
| PriceMath.SplittingNeverPays | app/pricemath.py:14-17 | splitting a quantity into n orders costs no less and at most n - 1 paise more |
| RateLimiter.AllowMatchesFullHistory | app/ratelimit.py:21-35 | without an emergency clear a call is allowed if and only if fewer than limit accepted hits of its key lie in the window of the full history |
| RateLimiter.WindowBound | app/ratelimit.py:44-53 | with k clears no window holds more than (k + 1) times limit accepted hits |
| RateLimiter.CollectAgrees | app/ratelimit.py:44-51 | collecting stale keys is invisible to every later use |
| RateLimiter.RetryAfterSuffices | app/ratelimit.py:37-42 | a refused caller who returns after exactly the announced seconds is accepted, whatever other keys did |
| LimiterRules.RetryAfterIsLeast | app/ratelimit.py:37-42 | the announced wait is the least whole number of seconds, at least one, after which the oldest hit has expired; 0 without a hit |
| LimiterRules.TableIsBounded | app/ratelimit.py:44-53 | over any run the table never holds more keys than it may |
| LimiterRules.CollectedEachMinute | app/ratelimit.py:21-53 | after a minute, or when the table is full, every other key without a live hit is gone; before that no other key is touched |
| LimiterRules.FloodNeedsManyKeys | app/ratelimit.py:52-53 | an emergency clear happens only when that many keys were let through in the last window |
| RateLimiter.SlidingWindowLimiter.AllowHit | app/ratelimit.py:21-35 | in place: pruning and appending give the specified deques and answer |
| RateLimiter.SlidingWindowLimiter.PopStale | app/ratelimit.py:48-51 | in place: exactly the keys with a live hit are left |
| RateLimiter.SlidingWindowLimiter.MaybeGc | app/ratelimit.py:44-53 | in place: stale keys go at most once a minute or when the table is full, everything goes on a flood |
| RateLimiter.SlidingWindowLimiter.SecondsToWait | app/ratelimit.py:37-42 | the seconds that RetryAfterSuffices is about |
| SyncNormalize.AcceptedRowIsSane | app/sync_normalize.py:81-130 | an accepted row has a valid id, sane quantities and a positive price within half a paisa of the converted rate |
| CatalogRules.RowAnswers | app/sync_normalize.py:81-130 | a row is accepted if and only if id, name, price, conversion rate and limits are within bounds, and is taken over as it reads, the price rounded to the nearest paisa with ties to even |
| CatalogRules.TypesAre | app/sync_normalize.py:52-63 | which raw types become which of the renderable ones, ignoring case and underscores |
| CatalogRules.SyncAnswers | app/sync.py:98-142 | a sync fails if and only if the provider did not answer, and is aborted if and only if no row is valid, more than 30% of at least 10 are not, or at least 20 services would drop below half; then nothing changes |
| CatalogRules.OkSyncKeepsHalf | app/sync_normalize.py:133-142 | a sync that goes through leaves at least half of 20 or more live services |
| CatalogRules.ServicesFollowRows | app/sync.py:144-227 | after a sync that went through each service is as its provider's row says, with an edited name and an operator's choice kept, or withdrawn when there is no row |
| CatalogRules.ReportCounts | app/sync.py:144-227 | each counter of the report is the number of services that are new, gone, back, unchanged, changed or not renderable, read off the catalog before and after |
| CatalogRules.ToggleAnswers | app/cli.py:129-135 | a toggle hides what is chosen and shows of it exactly what can be rendered and is still listed |
| CatalogSync.RowsAreLastValid | app/sync.py:112-130 | the rows taken over are exactly the last valid rows of their ids |
| CatalogSync.SyncAgreesWithUpstream | app/sync.py:144-227 | after a full sync the provider's services agree with its rows, all its others are removed, and other providers are untouched |
| CatalogSync.SyncIsIdempotent | app/sync.py:133-229 | a second sync with the same answer is not malformed, reports no change and moves only timestamps |
| CatalogSync.SyncNeverActivates | app/sync.py:104-109 | no known service is made sellable, edited names stay, and a failed or aborted sync changes nothing |
| CatalogSync.RunsKeepSafe | app/cli.py:129-135 | over all runs of syncs and operator toggles, what is sellable is supported and not removed |
| CatalogSync.Catalog.Normalize | app/sync.py:112-131 | the validating loop computes the specified rows and count |
| CatalogSync.Catalog.RefreshTerms | app/sync.py:181-201 | price, limits and capabilities are taken over, and changed exactly when one differed |
| CatalogSync.Catalog.Refresh | app/sync.py:181-218 | field by field: the specified service, and changed exactly when something differs |
| CatalogSync.Catalog.UpsertAll | app/sync.py:148-218 | the upsert loop and its five counters |
| CatalogSync.Catalog.WithdrawMissing | app/sync.py:220-227 | the removal loop and its counter |
| CatalogSync.Catalog.SyncProvider | app/sync.py:98-229 | the whole sync, report included |
| CatalogSync.Catalog.Toggle | app/cli.py:129-135 | in place: shows or hides the chosen services, refusing to show what is unsupported or removed |

## Left out

- HTTP clients, gateway and panel adapters, signature checks and encryption: their abstract answers are arguments of the calls.
- Bots, menus, mini app, notifications, audit rows, metrics and settings loading: no money depends on them. Switches such as "orders are open" are arguments.
- The parallel second stack (app/orders/, app/wallet/, app/pricing/, app/sync/, app/coupons/, app/reseller/ and the like): it repeats these ideas with less state.
- SQL: a table is a sequence, map or set, a query a function over it, a transaction one atomic step; an exception rolls it back. Interleaving inside one transaction is not modelled.
- Hashed idempotency keys and random public ids: injective terms and positions. The time buckets in derived keys, ages and cut-offs are arguments.
- Floating point: percentages, conversion rates, clock times and refund shares are exact real numbers, rounded where the code rounds.
- Cleaning of texts, link and extra-field validation, category rows and slugs, truncation of service ids to 64 characters: services are identified by provider and external id.
- The change list of a sync report and the timestamps of orders and payments: nothing reads them back. All counters are modelled.
- Reseller order rows, promoter counters and role applications: display data.
- Consequences.BalanceIsTheBusiness: staff adjustments and bonuses are counted from their ledger entries, because no other row records them.
- OrderService.StoreOrder: does not store the reseller order row of app/orders.py:314-325, which no other modelled call reads.
- CatalogSync.Catalog.SyncProvider: does not keep the change list, the run record and the category rows; its counters are all modelled.
- PaymentRuns.SettlementReachesMaximum: runs with reconciliation are covered by PaymentRuns.ReconcileRises and PaymentRuns.PaidIsNeverLeft instead, because its answers are about the invoice as it is at that moment.
- Coupon administration (creating, editing, deactivating) and changes of services or prices between calls: a request carries the offer it was quoted from.
- Workers that catch an error of one order and go on with the next: each order is its own call here.
