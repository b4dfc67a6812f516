# ALKEVA: the money core and the protocols around it, proved

ALKEVA sells gold and platinum by the milligram against Ethiopian birr. Its API keeps an append-only double-entry
ledger; quotes, orders, deposits, payouts, physical deliveries and treasury entries all write through it. This project
models that core as one state machine whose steps are committed database transactions and single statements outside
them, and proves what holds after every run: metal is fully backed, escrow is exact, no customer is negative, daily
limits hold, every row has posted exactly the ledger transactions its status says. A second layer interleaves
transactions at their lock, read and commit steps and proves that it refines the first. A third layer is the services
themselves, as classes that update the tables step by step; each of their methods is proved to take exactly one step
(or the stated few steps) of the state machine, so that whatever the services are asked, the tables stay in a
reachable state, of which every guarantee holds.

Around the core stand emailed withdrawal codes raced by any number of calls, and the weighted-average cost replayed
from it. Four parts do not touch the ledger at all: refresh-token rotation and revocation, the exchange-rate and
price-tick guards of the worker, the notification outbox, and the incremental server-sent-events parser.

## Layout

| file | content |
|---|---|
| `Options.dfy`, `Sums.dfy`, `Calendar.dfy` | optional values; sums over table rows; the Addis Ababa day |
| `Books.dfy` | the tables, the ledger, the two shapes of money movement, the story each row owes the ledger |
| `Journal.dfy` | one transaction as a change; lawful changes keep the books |
| `Quotes.dfy`, `Orders.dfy`, `Payouts.dfy`, `Payments.dfy`, `PhysicalDelivery.dfy`, `TreasuryEntries.dfy`, `EmailCodes.dfy` | each transaction or statement as a decision on what it read, with its own invariants |
| `Platform.dfy`, `Guarantees.dfy` | the atomic state machine, its invariant over every run, and the theorems that follow |
| `Footprints.dfy`, `Interleaving.dfy` | lock sets and frames; the interleaved machine, its refinement, no circular lock wait |
| `Ledger.dfy`, `OrderService.dfy`, `PayoutService.dfy`, `PaymentService.dfy`, `VaultServices.dfy` | the services in their own imperative form |
| `TransferProtocol.dfy`, `TransferLedger.dfy` | one payout against a provider whose answers can be lost or late; the same on the ledger |
| `CodeRaces.dfy`, `CodeSteps.dfy` | emailed codes issued and presented by any number of calls at once; the same on the platform |
| `DepositHistory.dfy`, `DepositRaces.dfy` | when a deposit's history is what its status says; one deposit under any number of overlapping webhooks, settles, reversals and sweeps |
| `CostReplay.dfy`, `CostOrder.dfy`, `LateSell.dfy` | the cost replay, its agreement with the ledger in each order, and a sell it misses |
| `Sessions.dfy`, `PriceWorker.dfy`, `Outbox.dfy`, `EventStreams.dfy` | the four parts that do not touch the ledger |

`dafny verify dfyconfig.toml` checks everything.

## What is assumed

- Each transaction uses one clock value for `createdAt`, `settledAt` and the start of the day, so a transaction
  that straddles midnight is not modelled. No clock is assumed to be monotone in the money core.
- Limits and thresholds are constants of a run, and positive where the environment schema says so.
- The money figures of a quote never change after insert (apps/api/src/orders/orders.service.ts:84-86); an order row
  carries them as the joined columns of its quote.
- Freeze, account gate and the caps of the cached holding tier are what the database answers when a transaction
  asks: an input of each step, never restricted.
- In `DepositRaces` the payment provider is consistent: verify answers what is so when it is asked, and a deposit taken
  back stays so. Nothing is assumed of it anywhere else: the guarantees hold whatever verify answers.
- Payouts run with live keys, not the sandbox branch (apps/api/src/payouts/payouts.service.ts:446-454).
- A JSON refusal with one of the definitive statuses means the provider did not take the transfer, and its transfer
  verify reports only what happened.
- Only account-row locks are claimed free of wait cycles. Foreign-key share locks taken by inserts are outside.
- The turnover an order reads may be higher than the committed one, because rejecting a review takes no account
  lock; it is never lower. The interleaved layer proves this and the atomic layer allows it.
- A SQL statement outside a transaction is one step. A code's hash is written with its row: the statement that does it
  comes before anyone is told the code's id (apps/api/src/auth/email-codes.service.ts:87-105).
- Emailed codes take no lock at all. A payout request is run only by the confirm call whose update consumed the code;
  `Confirm` among the resources of the interleaved layer is that call, since `CodeRaces.SingleUse` leaves room for one.
- `CodeRaces` and `Sessions` read one clock that does not run backwards.
- Secrets and hashes are abstract values: hashing is injective, and a new secret is one the session never had.
- `confirming` in the state is the set of consumed codes whose confirm call has not yet run its payout transaction.

## Where the code and its documentation differ

- "Only forward from `initiated`" and "never regress credited/failed" (apps/api/src/payments/payments.service.ts:216): the
  webhook's update is keyed by id alone (lines 210-219), so a row credited since its read goes back to
  `webhook_received`, which is creditable again (line 45). "Idempotent under webhook retries" (line 41) and "exactly one
  settle wins this UPDATE" (line 406) then fail with a provider that says the truth throughout: one deposit is credited
  twice (`DepositRaces.OverlappedWebhookCreditsTwice`). A refund noticed while the row stands there debits nothing
  (`DepositRaces.RefundOfRegressedIsLost`).
- `reversed` is not terminal for a deposit: a second reversal notice moves it to `failed`
  (apps/api/src/payments/payments.service.ts:265-271), which is creditable too. A settle that got its success before the provider took the money back, and claims after that, credits
  the deposit again (`DepositRaces.HeldSuccessCreditsTwice`).
- These two are all: a deposit is credited twice exactly when a held success claims a row one of them reopened
  (`DepositRaces.CreditedTwiceExactlyWhen`). When no credit commits between a webhook's read and its write, and nothing
  is taken back between a settle's verify and its claim, each deposit is credited at most once
  (`DepositRaces.CalmRaceCreditsOnce`).
- "Until the same reading has repeated" (apps/worker/src/main.ts:130-135): each of the six readings must agree with the
  one before it, not with the first, so the level accepted can lie 257 basis points from the first of the six
  (`PriceWorker.ConfirmationsMayDrift`), and never further (`PriceWorker.DriftIsBounded`). The sixth agreeing reading is
  itself the one accepted.
- "A restart mid-batch never double-sends" (apps/worker/src/dispatcher.ts:41-42): the row is written after the sends
  (apps/worker/src/dispatcher.ts:110 and 179-190), so a pass interrupted in between leaves only its lease, and the mail
  goes out again when that ends (`Outbox.InterruptedMailIsSentAgain`). A row that says sent was accepted once exactly
  when no pass that got its message accepted was interrupted (`Outbox.SentOnceExactlyWhen`).
- "The fifth wrong attempt kills the code" (apps/api/src/auth/email-codes.service.ts:124-128) and "one live code per
  purpose" (line 74): the row is read, compared and only then counted or consumed, and the consuming update rechecks
  nothing but `consumed_at`. With k tries awaiting their increment, up to 5 + k wrong guesses are compared; with k
  issues between their two statements, 1 + k codes are live; with k issues past the rate check, 5 + k are issued in a
  window. All three bounds are reached, for every k (`CodeRaces.GuessBoundIsReached`, `CodeRaces.LiveBoundIsReached`,
  `CodeRaces.IssueBoundIsReached`), and are the documented ones when nothing overlaps. A call that matched in time still
  consumes a code that was locked and retired meanwhile (`CodeRaces.LockedAndRetiredCodeIsConsumed`). Single use holds
  without condition (`CodeRaces.SingleUse`).
- "Cost basis of the grams still held", replayed "in settlement order"
  (apps/api/src/portfolio/portfolio.service.ts:215-217): the replay skips a sell it finds nothing held for (line 256)
  and sorts by `settled_at` (line 241), which is the start of the settling transaction
  (apps/api/src/orders/orders.service.ts:279 and 514), not its commit. A sell that starts before the buy it sells from
  commits is replayed before that buy and skipped, with a clock that never runs backwards
  (`LateSell.QueryOrderCanMissASell`); `CostOrder.ReplayMeetsLedgerExactlyWhen` says exactly when the replay is right.
- "Presenting a secret that was already rotated away" revokes a session (apps/api/src/auth/sessions.service.ts:44-48);
  the code revokes on any secret that is neither current nor just replaced, known or not (`Sessions.VerdictByPlace`).
- The rotation's conditional update does not look at `revokedAt`: a rotation that read the row before the revocation
  still finishes after it (`Sessions.RotationMayFinishAfterRevocation`).
- The backoff comment speaks of 2 to 64 minutes (apps/worker/src/dispatcher.ts:177); a row is given up after five
  errors, so its own backoff never exceeds 16 (`Outbox.BackoffHonoursRetryAfter`).

## Model

| member | source | states |
|---|---|---|
| `Guarantees.MetalIsFullyBacked` | apps/api/src/orders/orders.service.ts:216-224 | in every reachable state and for each metal, vault stock is at least the sum of all customers' metal plus the delivery hold |
| `Guarantees.EscrowIsExact` | apps/api/src/payouts/payouts.service.ts:173-231 | in every reachable state the payout hold is the sum of payouts requested, approved or processing, and each delivery hold the grams of requests approved or scheduled |
| `Guarantees.RevenueIsExact` | apps/api/src/orders/orders.service.ts:245-271 | fees, tax and reforestation are the sums of those figures over settled orders; cash is capital moved plus buy subtotals minus sell subtotals |
| `Guarantees.OutsideIsExact` | apps/api/src/payments/payments.service.ts:404-424 | the external account is payouts sent less what the deposits' own ledger transactions moved in less capital; the vault account is grams delivered less grams issued |
| `Guarantees.AllBalancesSumToZero` | apps/api/src/ledger/ledger.service.ts:124-162 | customers and system accounts of every asset sum to zero in every reachable state |
| `Guarantees.NobodyIsNegative` | apps/api/src/orders/orders.service.ts:168-174 | no customer balance of any asset and no escrow balance is negative, now or after any earlier transaction of the log |
| `Platform.CashStaysAboveHalt` | apps/api/src/orders/orders.service.ts:230-235 | once cash is at or above the halt threshold, no continuation of the run takes it below |
| `Guarantees.DailyLimitsHold` | packages/shared/src/constants.ts:58-69 | per customer and Addis Ababa day, counted payouts stay within amount and number, directly settled orders strictly under the review line; platform sells of the day within the ceiling |
| `Guarantees.NoOrderSlipsUnder` | apps/api/src/orders/orders.service.ts:326-343 | in every reachable state, an order that settled directly stays strictly under the review line together with the same customer's earlier orders of that day that are settled or in review now |
| `Guarantees.OrderUsesItsQuote` | apps/api/src/orders/orders.service.ts:78-153 | every order belongs to its quote's owner and carries its figures |
| `Guarantees.OrderPostsOnceAtQuote` | apps/api/src/orders/orders.service.ts:245-286 | an order has one ledger transaction, equal to the quote's figures, exactly when it is settled, and none otherwise |
| `Guarantees.OneOrderPerQuoteAndKey` | apps/api/src/orders/orders.service.ts:114-153 | at most one order per quote reaches review or settled, at most one order per idempotency key exists |
| `Guarantees.DepositHistoryIsExact` | apps/api/src/payments/payments.service.ts:277-433 | in every reachable state a deposit's ledger transactions are those of its history: every credit for exactly the initialised amount, every debit at most that and directly after a credit; credited rows end with a credit |
| `DepositHistory.CreditedAtMostOnce` | apps/api/src/payments/payments.service.ts:356-433 | in a run where no webhook's update hits a row already credited and no success is claimed for a row recorded as taken back, the deposit is credited at most once and for its amount; what a reversal took back is at most that and is its only other posting, as the status says |
| `DepositHistory.OutsideHoldsEachDepositOnce` | apps/api/src/payments/payments.service.ts:404-424 | when that holds of every deposit, the external account is payouts sent, less each credited deposit once and what its reversal did not take back, less capital |
| `DepositHistory.StepOnDeposit` | apps/api/src/payments/payments.service.ts:117-424 | a platform step changes a deposit by one of its own statements only, each by its own condition on the row as it is then |
| `Guarantees.PayoutHistoryIsExact` | apps/api/src/payouts/payouts.service.ts:462-560 | a payout's postings are hold, then either send or refund, exactly as its status says |
| `Guarantees.DeliveryHistoryIsExact` | apps/api/src/delivery/delivery.service.ts:150-300 | a delivery's postings are escrow, then either handover or return, exactly as its status says |
| `Guarantees.PayoutComesFromItsCode` | apps/api/src/payouts/payouts.service.ts:134-156 | every payout carries the amount and destination of its own consumed code, and no code or key serves two payouts |
| `Platform.ReachableIsOk` | apps/api/src/orders/orders.service.ts:59-65 | every reachable state satisfies every invariant of books, orders, payouts, deposits and deliveries |
| `Platform.RunIsReachable` | apps/api/src/orders/orders.service.ts:59-65 | the states honest runs lead to are reachable |
| `Platform.LogPrefixIsReachable` | apps/api/src/ledger/ledger.service.ts:41-45 | every prefix of a reachable ledger is the ledger of a reachable state, so whatever holds of reachable states held after each earlier transaction |
| `Platform.StepKeepsPlatform` | apps/api/src/ledger/ledger.service.ts:41-45 | each of the twenty-two kinds of step keeps every invariant, and cash at or above the halt threshold |
| `Journal.LawfulKeepsBooks` | apps/api/src/ledger/ledger.service.ts:119-162 | a change whose posting is what the written row now owes, and which breaks no gate, keeps the ledger sound, reconciled, solvent and backed |
| `Journal.BalanceByTable` | apps/api/src/ledger/ledger.service.ts:107-117 | a projected balance splits into what the five tables did to it |
| `Books.ShapeNet` | apps/api/src/ledger/ledger.service.ts:125-132 | dropping zero entries changes no balance: a recorded posting moves what the movement says |
| `Books.ShapeSound` | apps/api/src/ledger/ledger.service.ts:126-138 | every well-formed movement is accepted: balanced per asset, no zero entry, not empty |
| `Orders.ExecuteKeepsOrders` | apps/api/src/orders/orders.service.ts:111-287 | executing a quote keeps one live order per quote, one per key, the review line and the ceiling, for any turnover read that is not below the committed one |
| `Orders.ApproveReviewKeepsOrders` | apps/api/src/orders/orders.service.ts:417-520 | approving a parked order keeps the same invariants |
| `Orders.ExecuteLawful` | apps/api/src/orders/orders.service.ts:209-287 | a settled order passed the funds, backing and float gates on the balances it read, and posts its trade |
| `Orders.ApproveReviewLawful` | apps/api/src/orders/orders.service.ts:449-480 | an approved review passed the funds, backing and float gates again, and posts its trade |
| `Orders.SettlesExactlyWhen` | apps/api/src/orders/orders.service.ts:136-243 | an order settles at once exactly when its quote is open and in time, freeze, account gate, tier caps, funds, reserve, float and ceiling all allow it, and neither it nor the turnover with it reaches the review line |
| `Orders.ReviewSettlesExactlyWhen` | apps/api/src/orders/orders.service.ts:417-480 | an approval settles exactly when the review is recent enough and every one of those money conditions is met now |
| `Orders.ExecuteVerdictIs` | apps/api/src/orders/orders.service.ts:136-243 | parks or settles exactly by totals written over the rows and the Addis Ababa day: placed orders settled or in review, the customer's settled orders, everyone's settled sells |
| `Orders.ReviewVerdictIs` | apps/api/src/orders/orders.service.ts:417-480 | the same for an approval |
| `Orders.RefusalsNameTheirReason` | apps/api/src/orders/orders.service.ts:136-243 | consumed and expired quotes are refused as that, and expiry marked, before anything else; every other refusal names a condition that fails |
| `Orders.DirectWithinTurnover` | apps/api/src/orders/orders.service.ts:330-343 | the orders that settled directly today are among the turnover the review rule reads |
| `Payouts.RequestKeepsPayouts` | apps/api/src/payouts/payouts.service.ts:173-231 | a request keeps the daily limits and the one-to-one match of payouts with consumed codes |
| `Payouts.DailyLimitIs` | apps/api/src/payouts/payouts.service.ts:636-646 | refused by the day's limits exactly when the number or the cents of that day's payouts not refused, with this one, exceed them; the number is named first |
| `PayoutService.RequestHoldsExactlyWhen` | apps/api/src/payouts/payouts.service.ts:158-231 | the request step holds the money exactly when the customer may move money, the amount is not too small, the key is new, the account covers it and the day has room; it is refused on record exactly when one of the last two fails |
| `Payouts.StatusKeepsPayouts` | apps/api/src/payouts/payouts.service.ts:467-497 | moving a payout forward or refunding it never makes it count more |
| `Payouts.RefundLawful` | apps/api/src/payouts/payouts.service.ts:527-560 | a refund puts the held amount back only for a row that still holds it |
| `Payments.SettleLawful` | apps/api/src/payments/payments.service.ts:356-433 | a credit posts the initialised amount as the next line of the row's history, whatever verify answered and whenever |
| `Payments.ReverseLawful` | apps/api/src/payments/payments.service.ts:277-300 | a confirmed reversal debits what is still there, never below zero |
| `Payments.CreditsTwiceExactlyWhen` | apps/api/src/payments/payments.service.ts:404-411 | a row credited before is credited again exactly when it is failed or back at webhook_received and the answer held is a matching success |
| `DepositRaces.RaceIsPlatformRun` | apps/api/src/payments/payments.service.ts:74-433 | any interleaving of webhooks, settles, reversals, sweeps and everything else is an honest run of the platform, so every guarantee holds of it |
| `DepositRaces.EveryRaceIsOk` | apps/api/src/payments/payments.service.ts:198-433 | in every race what a call read is an earlier version of the row, and a take-back is recorded only once the provider says so |
| `DepositRaces.StepReopensExactlyWhen` | apps/api/src/payments/payments.service.ts:203-271 | a credited row becomes creditable again exactly when a webhook that read initiated writes after a credit committed in between, or a reversed row is closed |
| `DepositRaces.CreditedTwiceExactlyWhen` | apps/api/src/payments/payments.service.ts:198-433 | a deposit is credited twice exactly when, after such a step, a settle holding a matching success claims the row |
| `DepositRaces.SecondCreditIsStale` | apps/api/src/payments/payments.service.ts:356-411 | when no credit commits between a webhook's read and its write, a second credit is claimed only on an answer older than the take-back |
| `DepositRaces.CalmRaceIsOrderly` | apps/api/src/payments/payments.service.ts:198-433 | when besides nothing is taken back between a settle's verify and its claim, the race is an orderly run of the platform |
| `DepositRaces.CalmRaceCreditsOnce` | apps/api/src/payments/payments.service.ts:356-433 | in such a race the deposit's ledger transactions are one credit at most and one debit at most after it |
| `DepositRaces.OverlapCreditsAgain` | apps/api/src/payments/payments.service.ts:203-219 | wherever a webhook that read initiated is pending on a row credited meanwhile and the provider goes on saying success, the race can go on to credit the deposit again |
| `DepositRaces.OverlappedWebhookCreditsTwice` | apps/api/src/payments/payments.service.ts:203-219 | in every configuration such a race credits a deposit twice with a provider that says the truth throughout |
| `DepositRaces.HeldSuccessCreditsAgain` | apps/api/src/payments/payments.service.ts:265-271 | wherever a settle holds a success and the row is reversed by now, the race can go on to credit the deposit again, every answer having been true when given |
| `DepositRaces.HeldSuccessCreditsTwice` | apps/api/src/payments/payments.service.ts:356-411 | in every configuration such a race credits a deposit twice |
| `DepositRaces.ReversalDebitsExactlyWhen` | apps/api/src/payments/payments.service.ts:265-300 | a confirmed reversal posts a debit exactly when its read saw the row credited, it still is, and something is left in the account |
| `DepositRaces.RefundOfRegressedIsLost` | apps/api/src/payments/payments.service.ts:265-271 | a confirmed reversal that finds the row not credited, though it was once, only closes it: the credit stays |
| `PhysicalDelivery.DeliverLawful` | apps/api/src/delivery/delivery.service.ts:219-244 | a handover is lawful and lowers vault stock and the ledger's vault debt by the grams of the request, the same amount |
| `PhysicalDelivery.RejectLawful` | apps/api/src/delivery/delivery.service.ts:259-293 | a refusal returns metal exactly when it was held |
| `TreasuryEntries.RecordVaultLawful` | apps/api/src/treasury/treasury-entries.service.ts:90-110 | an outtake leaves at least what is owed |
| `TreasuryEntries.RecordCapitalLawful` | apps/api/src/treasury/treasury-entries.service.ts:125-143 | capital out leaves cash at or above the threshold |
| `Calendar.DayStartIsLastMidnight` | packages/shared/src/constants.ts:67-69 | the start of the day is 21:00 UTC, the latest Addis Ababa midnight not after now |
| `Calendar.WindowIsDayOrLater` | packages/shared/src/constants.ts:58-69 | everything of now's day lies at or after the start the windows use |
| `Footprints.PostsWithinLocks` | apps/api/src/orders/orders.service.ts:95-109 | a transaction posts nothing, and moves no vault stock, outside the accounts it locks |
| `Footprints.Frame` | apps/api/src/ledger/ledger.service.ts:87-102 | a transaction leaves every account, row and key outside its footprint as it was |
| `Interleaving.InterleavedRefinesAtomic` | apps/api/src/ledger/ledger.service.ts:92-162 | every interleaving of lock, read, post and commit steps, single-statement updates of codes and of webhooks among them, leaves the tables of the atomic run of its committed transactions, which is honest, so the state is reachable |
| `Interleaving.ReadsAreStillCommitted` | apps/api/src/orders/orders.service.ts:132-134 | when a transaction is about to post, the balances and vault stock it read are still the committed ones, and it posts only inside its lock set |
| `Interleaving.CommitIsAtomic` | apps/api/src/treasury/treasury-entries.service.ts:90-100 | deciding on what was read is deciding on what is committed |
| `Interleaving.DecidesAlike` | apps/api/src/orders/orders.service.ts:136-243 | no decision differs between the values read under locks and the present tables |
| `Interleaving.NoCircularWait` | apps/api/src/ledger/ledger.service.ts:92-102 | in every reachable world, account lock waits form no cycle of any length |
| `Interleaving.WaitsAscend` | apps/api/src/ledger/ledger.service.ts:93-99 | along a chain of waits the account asked for strictly rises |
| `TransferProtocol.NeverSentAndRefunded` | apps/api/src/payouts/payouts.service.ts:355-560 | for every interleaving of approval, webhook, sweep and crash: one transfer call at most, settled only if sent, refunded in flight only if definitively not sent |
| `TransferProtocol.OutcomeIsFinal` | apps/api/src/payouts/payouts.service.ts:467-478 | a settled or refunded payout stays so under every later event |
| `TransferProtocol.RefundsOnlyOnJsonRefusal` | apps/api/src/chapa/chapa.service.ts:303-320 | the call's answer leads to a refund exactly when it is the provider's JSON refusal with a success status or one of 400, 401, 403, 404, 409, 422, and to a verify exactly when it is a JSON confirmation |
| `TransferProtocol.RunIsSafe` | apps/api/src/payouts/payouts.service.ts:654-680 | every run from a requested payout stays safe |
| `TransferLedger.EventsArePlatformSteps` | apps/api/src/payouts/payouts.service.ts:355-560 | every event of the transfer protocol that writes the payout row is the platform transaction of that name, and no other event writes it |
| `TransferLedger.LedgerAgreesWithProvider` | apps/api/src/payouts/payouts.service.ts:462-560 | in a reachable state holding the row such a run leads to, the ledger says sent only if the provider sent, put back only if it never will have, never both |
| `TransferLedger.HandlerIsARun` | apps/api/src/payouts/payouts.service.ts:307-456 | what a handler does to a payout, by its contract, is a run of protocol events, from its row and transfer to its row and transfer |
| `TransferLedger.ServiceNeverSendsAndRefunds` | apps/api/src/payouts/payouts.service.ts:307-680 | over any sequence of transfers, webhooks, sweeps and refusals the service runs, with a truthful provider: settled only if sent, put back only if never sent |
| `EmailCodes.RunKeepsRequests` | apps/api/src/auth/email-codes.service.ts:74-101 | no statement removes a code or changes its owner, amount, destination, secret, or a consumption |
| `EmailCodes.RateIs` | apps/api/src/auth/email-codes.service.ts:61-72 | not rate limited exactly when fewer than five codes of the customer were issued in the last 15 minutes |
| `CodeRaces.EveryRunIsOk` | apps/api/src/auth/email-codes.service.ts:61-176 | under any interleaving of any number of issues and presentations, the attempts column counts the increments done and a code is consumed by exactly one call |
| `CodeRaces.SingleUse` | apps/api/src/auth/email-codes.service.ts:168-175 | in every interleaving at most one presentation of a code is accepted, and one was as soon as any matching call has lost |
| `CodeRaces.WinsExactlyWhen` | apps/api/src/auth/email-codes.service.ts:168-175 | a call that matched wins exactly when no call has consumed the code, whatever became of its expiry and attempts since |
| `CodeRaces.GuessesWithin` | apps/api/src/auth/email-codes.service.ts:147-164 | at most 5 + k wrong guesses are compared with a code when no presentation is made while more than k await their increment; five when tries do not overlap |
| `CodeRaces.GuessBoundIsReached` | apps/api/src/auth/email-codes.service.ts:147-164 | for every k some such run compares exactly 5 + k wrong guesses |
| `CodeRaces.LockedAndRetiredCodeIsConsumed` | apps/api/src/auth/email-codes.service.ts:147-173 | a run in which a code is locked by five wrong guesses and retired by a new issue, and is then consumed by a call that had matched before |
| `CodeRaces.LiveWithin` | apps/api/src/auth/email-codes.service.ts:74-101 | at most 1 + k codes of a customer are live when no issue retires while more than k others stand between retiring and inserting; one when issues do not overlap |
| `CodeRaces.LiveBoundIsReached` | apps/api/src/auth/email-codes.service.ts:74-101 | for every k some such run leaves exactly 1 + k live codes |
| `CodeRaces.IssuesWithin` | apps/api/src/auth/email-codes.service.ts:61-101 | at most 5 + k codes of a customer lie in any rate window when no issue starts while more than k others are past the check; five when issues do not overlap |
| `CodeRaces.IssueBoundIsReached` | apps/api/src/auth/email-codes.service.ts:61-101 | for every k some such run leaves exactly 5 + k codes in the window |
| `CodeSteps.RaceStepIsPlatformStep` | apps/api/src/auth/email-codes.service.ts:61-176 | from any reachable state with the same codes, each step of the races is at most one platform step to a reachable state with the same codes; a winning call leaves its confirmation pending |
| `CodeSteps.RaceIsReachable` | apps/api/src/auth/email-codes.service.ts:61-176 | every race ends in the codes of a reachable state in which each code won still awaits its one request |
| `Quotes.EtbRequestIsSpentClosely` | apps/api/src/quotes/quotes.service.ts:57-85 | a request in birr is never exceeded and missed by less than one milligram's price plus one cent |
| `Quotes.PriceIsExactly` | apps/api/src/quotes/quotes.service.ts:41-106 | a request gets exactly the figures within these bounds, and exactly when the tick is fresh and vouched for and such figures exist: unit price and grams rounded as the source rounds, the fee its share of the subtotal rounded down plus the service fee, tax and reforestation their shares |
| `Quotes.RoundTripNeverProfits` | apps/api/src/fees/fees.service.ts:32-39 | buying and selling the same grams on one tick never returns more than was paid |
| `Quotes.SplittingSavesUnderOneCentEach` | apps/api/src/quotes/quotes.service.ts:66-75 | splitting one buy into n lowers the subtotal by at most n-1 cents |
| `CostReplay.CostBasis` | apps/api/src/portfolio/portfolio.service.ts:224-265 | the loop computes the replay |
| `CostReplay.SellKeepsProportion` | apps/api/src/portfolio/portfolio.service.ts:252-261 | a sell leaves cost at or above its exact proportion, by less than one cent |
| `CostReplay.CostIsBounded` | apps/api/src/portfolio/portfolio.service.ts:247-264 | cost lies between nothing and everything spent, and is nothing when nothing is held |
| `CostReplay.BuysCostWhatWasPaid` | apps/api/src/portfolio/portfolio.service.ts:247-264 | a history of buys costs exactly the cents the ledger took for them, fees and taxes with it |
| `CostReplay.ReplayMatchesLedger` | apps/api/src/portfolio/portfolio.service.ts:243-265 | in every reachable state, the settled trades replayed in the order the ledger recorded them never sell more than is held, and hold the ledger balance plus grams held for delivery or handed over |
| `CostReplay.LedgerNeverOversells` | apps/api/src/portfolio/portfolio.service.ts:256-257 | in ledger order the oversell clamp is never taken, at any point of any log |
| `CostReplay.TradesFollowLedger` | apps/api/src/orders/orders.service.ts:245-286 | at every point of the log, the trades recorded so far explain a customer's metal up to deliveries |
| `CostOrder.NeverClampedExactlyWhen` | apps/api/src/portfolio/portfolio.service.ts:243-265 | for any sequence of well-priced trades, the replay holds at least their net, and exactly that if and only if it was never clamped, if and only if no prefix sells more than it buys |
| `CostOrder.ReplayMeetsLedgerExactlyWhen` | apps/api/src/portfolio/portfolio.service.ts:224-265 | in every reachable state and for every answer of the query (by settlement, then creation time, ties either way), cost is bounded by what was spent and the grams are at least what the ledger and deliveries say, equal exactly when no prefix of the rows sells more than it buys |
| `CostOrder.InOrderReplayIsExact` | apps/api/src/portfolio/portfolio.service.ts:224-265 | when a customer's trades started in strictly the order they committed, the query gives exactly the ledger's trades, the clamp is never taken and the grams are exact |
| `CostOrder.LedgerSelects` | apps/api/src/portfolio/portfolio.service.ts:225-240 | in a reachable state the ledger's trades are the settled orders the query selects, each once |
| `LateSell.LateSellIsClamped` | apps/api/src/portfolio/portfolio.service.ts:241-257 | whenever a customer's only trades are a buy and a sell of the same grams that started earlier, the query's one answer is sell, buy; the sell is skipped and all bought grams and cost stay |
| `LateSell.QueryOrderCanMissASell` | apps/api/src/orders/orders.service.ts:132-286 | a reachable state of that kind: the customer holds nothing, the query's replay shows 1000 mg at full cost, the ledger's order shows nothing |
| `Ledger.LedgerService.LockAndReadBalances` | apps/api/src/ledger/ledger.service.ts:104-117 | one pass over the entries yields each asked account's projected balance, zero for one without entries |
| `Ledger.LedgerService.PostTransaction` | apps/api/src/ledger/ledger.service.ts:124-162 | appends exactly one transaction of the non-zero entries when they balance per asset and are not empty, and otherwise nothing |
| `Ledger.LedgerService.BalancesForUser` | apps/api/src/ledger/ledger.service.ts:229-246 | a customer's three balances |
| `OrderService.QuotesService.Create` | apps/api/src/quotes/quotes.service.ts:36-106 | stores a quote for the user, open for 30 seconds, exactly when the tick is fresh and vouched for and figures right by it exist, and with those figures; otherwise no row |
| `OrderService.OrdersService.Execute` | apps/api/src/orders/orders.service.ts:75-324 | parks exactly when the key is new, the quote the caller's own, open and in time, standing and funds allow it, and the order alone or with the day's orders settled or in review reaches the line; settles exactly when it does not reach it and tier caps, reserve, float and ceiling allow it; each answer with its order row, its mark on the quote and its posting |
| `OrderService.OrdersService.Settle` | apps/api/src/orders/orders.service.ts:132-287 | the new tables and the answer for every verdict of the gates, in their order |
| `OrderService.OrdersService.MoneyGates` | apps/api/src/orders/orders.service.ts:205-243 | tier, funds, reserve, float and ceiling decide as the specification does |
| `OrderService.OrdersService.ResolveReview` | apps/api/src/orders/orders.service.ts:367-520 | settles exactly when approved by another, still in review, recent enough, and every gate holds now; rejects exactly when it was in review and not that; each answer with its row and its posting, and otherwise nothing changes |
| `OrderService.OrdersService.Approve` | apps/api/src/orders/orders.service.ts:417-520 | an approval of a parked order is one platform step; each answer with its row and its posting |
| `OrderService.OrdersService.TurnoverToday` | apps/api/src/orders/orders.service.ts:330-343 | settled and parked totals of the day |
| `OrderService.OrdersService.CheckTierCaps` | apps/api/src/orders/orders.service.ts:629-672 | the tier caps refuse as specified |
| `OrderService.OrdersService.DailySellbackUsed` | apps/api/src/orders/orders.service.ts:697-710 | platform sells settled in the window |
| `OrderService.OrdersService.PhysicalVaultMg` | apps/api/src/orders/orders.service.ts:675-683 | intakes less outtakes of a metal |
| `OrderService.OrdersService.FindByKey` | apps/api/src/orders/orders.service.ts:594-611 | the order holding an idempotency key, if any |
| `OrderService.OrdersService.LocksTheFootprint` | apps/api/src/orders/orders.service.ts:95-109 | the accounts locked are those of the transaction's footprint |
| `PayoutService.EmailCodesService.Issue` | apps/api/src/auth/email-codes.service.ts:46-122 | refused exactly when five codes of the customer lie in the last 15 minutes; otherwise every live code of the customer expires now, no other changes, and the new one is open for ten minutes |
| `PayoutService.EmailCodesService.Consume` | apps/api/src/auth/email-codes.service.ts:129-176 | accepted exactly when the code is the caller's own, not consumed, in time, tried less than five times and guessed right, and is then consumed; a wrong guess on an open code adds one try; anything else writes nothing |
| `PayoutService.PayoutsService.Confirm` | apps/api/src/payouts/payouts.service.ts:134-156 | a replay changes nothing and answers with its payout; a code that is not accepted is answered with its reason; an accepted one runs exactly one request, and money is held exactly when it answers so |
| `PayoutService.PayoutsService.AnswerRefusedCode` | apps/api/src/payouts/payouts.service.ts:141-146 | the loser of a double submit is answered with the payout of its key when one exists by then, else with the code's refusal |
| `PayoutService.PayoutsService.Request` | apps/api/src/payouts/payouts.service.ts:158-262 | one platform step; a payout row is added exactly when it answers held or refused, and money is held exactly when it answers held |
| `PayoutService.PayoutsService.ClaimAndHold` | apps/api/src/payouts/payouts.service.ts:173-231 | inserts the payout of its code; refused for the stated reason with nothing posted, or held with exactly the hold posted |
| `PayoutService.PayoutsService.RefusalUnderLock` | apps/api/src/payouts/payouts.service.ts:185-191 | refused for funds, then for the day's limits over the other payouts, else not at all |
| `PayoutService.PayoutsService.DailyLimitCode` | apps/api/src/payouts/payouts.service.ts:636-646 | the limits, read with the new row in the table and left out of the count |
| `PayoutService.PayoutsService.DayTotals` | apps/api/src/payouts/payouts.service.ts:614-633 | the day's amount and number over payouts not refused, less one row |
| `PayoutService.PayoutsService.ExecuteTransfer` | apps/api/src/payouts/payouts.service.ts:355-417 | a requested payout of another, who may move money, is claimed; it is put back exactly on the provider's JSON refusal, verified on a JSON confirmation, and otherwise left in processing with nothing posted; any other payout is left alone |
| `PayoutService.PayoutsService.ResolveByVerify` | apps/api/src/payouts/payouts.service.ts:424-456 | a payout in flight is sent exactly when the provider's envelope says success, and put back exactly when it says failed or cancelled, each with that one posting; otherwise nothing changes |
| `PayoutService.PayoutsService.SettleLedger` | apps/api/src/payouts/payouts.service.ts:462-505 | one platform step; a row not in flight is left alone |
| `PayoutService.PayoutsService.RefundIfStatus` | apps/api/src/payouts/payouts.service.ts:527-560 | one platform step; money moves exactly when the status was one of those named |
| `PayoutService.PayoutsService.RejectRequest` | apps/api/src/payouts/payouts.service.ts:307-323 | finance's refusal puts the money of a payout back exactly when it is still requested, and otherwise changes nothing |
| `PayoutService.PayoutsService.HandleTransferEvent` | apps/api/src/payouts/payouts.service.ts:329-347 | an event does to a payout in flight what verify says, and to any other nothing |
| `PayoutService.PayoutsService.StaleInFlight` | apps/api/src/payouts/payouts.service.ts:655-665 | the oldest fifty payouts in flight for over five minutes, all of them if fewer |
| `PayoutService.PayoutsService.Sweep` | apps/api/src/payouts/payouts.service.ts:654-680 | the payouts visited are those in flight for over five minutes, in table order, all of them if fewer than fifty; each gets what its own verify answer says, and nothing else changes or is posted |
| `PaymentService.PaymentsService.Create` | apps/api/src/payments/payments.service.ts:117-173 | opens a checkout exactly when the customer may move money and the amount reaches the minimum, and keeps the row as failed when the provider would not create it |
| `PaymentService.PaymentsService.SettleByTxRef` | apps/api/src/payments/payments.service.ts:356-433 | a row neither credited nor reversed is credited exactly on a matching success, with one posting that raises the balance by the amount, and failed when verify says so; otherwise nothing changes |
| `PaymentService.PaymentsService.Claim` | apps/api/src/payments/payments.service.ts:369-424 | the claim of an answer, new or old, is one platform step at whatever the row has become |
| `PaymentService.PaymentsService.RecordWebhook` | apps/api/src/payments/payments.service.ts:210-219 | a row read as initiated is put to webhook_received whatever it has become, any other is left alone |
| `PaymentService.PaymentsService.TakeBack` | apps/api/src/payments/payments.service.ts:277-300 | one platform step: a row still credited is reversed and debited what is left, any other is left alone |
| `PaymentService.PaymentsService.Close` | apps/api/src/payments/payments.service.ts:265-271 | one platform step: a row not credited by then is closed |
| `PaymentService.PaymentsService.HandleReversal` | apps/api/src/payments/payments.service.ts:238-333 | a confirmed reversal of a credited row leaves it reversed and lowers the balance by exactly the smaller of the deposit and what was there, never below zero, with one posting or none; any other row becomes failed with nothing posted; an unconfirmed one changes nothing |
| `PaymentService.PaymentsService.HandleChargeEvent` | apps/api/src/payments/payments.service.ts:198-230 | an initiated row is noted; then a take-back does what a confirmed reversal does, a charge what a settle does, each by the verify answer alone, and any other event nothing |
| `PaymentService.PaymentsService.Sweep` | apps/api/src/payments/payments.service.ts:74-102 | each open checkout gets what a settle by its own answer makes of it, and is failed when over three days old and still unsettled; no other row changes and nothing else is posted |
| `VaultServices.DeliveryService.Create` | apps/api/src/delivery/delivery.service.ts:54-100 | a request is admitted exactly when the customer may move money, is eligible, holds that many grams, and has no request of the metal that is neither delivered nor declined |
| `VaultServices.DeliveryService.HasOpen` | apps/api/src/delivery/delivery.service.ts:69-81 | true exactly when an open request of that customer and metal exists |
| `VaultServices.DeliveryService.Claim` | apps/api/src/delivery/delivery.service.ts:313-328 | the status moves exactly when it was one of those named |
| `VaultServices.DeliveryService.Approve` | apps/api/src/delivery/delivery.service.ts:150-190 | done exactly when another's request, asked or in review, of a customer who may move money and holds the grams, with exactly the hold posted; otherwise nothing changes, the status rolled back with the rest |
| `VaultServices.DeliveryService.Schedule` | apps/api/src/delivery/delivery.service.ts:192-208 | done exactly when another's request is approved or scheduled; otherwise nothing changes |
| `VaultServices.DeliveryService.Deliver` | apps/api/src/delivery/delivery.service.ts:210-250 | done exactly when another's request is approved or scheduled, with exactly the handover posted and an outtake of the grams; otherwise nothing changes |
| `VaultServices.DeliveryService.Reject` | apps/api/src/delivery/delivery.service.ts:252-300 | done exactly when another's request is not finished; what was held is put back by exactly one posting, what was not posts nothing; otherwise nothing changes |
| `VaultServices.TreasuryEntriesService.RecordVault` | apps/api/src/treasury/treasury-entries.service.ts:85-120 | refused exactly when an outtake would leave less than nothing or less than is owed; otherwise the vault changes by exactly those grams |
| `VaultServices.TreasuryEntriesService.RecordCapital` | apps/api/src/treasury/treasury-entries.service.ts:122-153 | refused exactly when taking out would leave cash below the threshold; otherwise cash changes by exactly that amount |
| `VaultServices.TreasuryEntriesService.PhysicalMg` | apps/api/src/treasury/treasury-entries.service.ts:155-166 | intakes less outtakes of a metal |
| `Sessions.EveryRunIsOk` | apps/api/src/auth/sessions.service.ts:106-185 | under any interleaving of presentations, writes, sign-outs and markers, the secrets form one chain of distinct values, the row holds its last two, and each exchange was won by one call |
| `Sessions.OneWinnerPerSecret` | apps/api/src/auth/sessions.service.ts:132-147 | of all calls that read a secret as current and have written, exactly one exchanged it |
| `Sessions.VerdictByPlace` | apps/api/src/auth/sessions.service.ts:130-163 | only the newest secret is exchanged, the one before it is let off for 60 s, every other one is reuse |
| `Sessions.RevocationIsFinal` | apps/api/src/auth/sessions.service.ts:120-122 | after a committed revocation no call presented later gets anything, and the revocation time never changes |
| `Sessions.LateOrForeignIsTurned` | apps/api/src/auth/sessions.service.ts:117-129 | over every run, a call presented at or after the session's end, or on the other channel, is turned away and stays so |
| `Sessions.EndAndChannelStay` | apps/api/src/auth/sessions.service.ts:106-177 | end, channel and owner are those the session was opened with, over every run |
| `Sessions.WriteWinsExactlyWhen` | apps/api/src/auth/sessions.service.ts:132-148 | the write of a call that read a secret as current wins exactly when that is still the newest secret, whether or not the session was revoked meanwhile |
| `Sessions.RotationMayFinishAfterRevocation` | apps/api/src/auth/sessions.service.ts:136-148 | a legal run in which a rotation wins after the revocation committed; its refresh token is dead, and its access token, minted before the marker, is refused at every later time |
| `Sessions.NoTokenOutlivesRevocation` | apps/api/src/auth/sessions.service.ts:232-258 | no token minted up to 60 s after the first marker is accepted at any time from then on, however often markers are rewritten |
| `Sessions.AcceptedAfterMarkerExactlyWhen` | apps/api/src/auth/auth.guard.ts:43-63 | a token is accepted at some time after a marker exactly when the second it was minted in starts more than 60 s after it |
| `Sessions.SessionsService.Create` | apps/api/src/auth/sessions.service.ts:63-99 | one new session row with the given secret |
| `Sessions.SessionsService.Rotate` | apps/api/src/auth/sessions.service.ts:106-177 | a new pair exactly when the session exists, is not revoked, is before its end, is presented on its own channel and with its current secret; no tokens exactly when instead with the previous secret within 60 s of the exchange; any other secret there revokes and marks, and anything else changes nothing |
| `Sessions.SessionsService.Revoke` | apps/api/src/auth/sessions.service.ts:179-185 | the first revocation time stays; the marker is always rewritten |
| `Sessions.SessionsService.RevokeAllForUser` | apps/api/src/auth/sessions.service.ts:188-202 | revokes and marks exactly the customer's live sessions but the kept one |
| `Sessions.SessionsService.MarkRevoked` | apps/api/src/auth/sessions.service.ts:232-239 | one marker per session, of an access lifetime plus 60 s |
| `Sessions.SessionsService.CanActivate` | apps/api/src/auth/auth.guard.ts:49-60 | the guard's decision on a well-signed token |
| `PriceWorker.ServedIsLastAccepted` | apps/worker/src/main.ts:136-174 | over any run the rate served is the last accepted one, and each reading was accepted exactly when it was the first, within the limit, or the sixth of a held run each agreeing with the one before |
| `PriceWorker.AcceptedExactlyWhen` | apps/worker/src/main.ts:142-165 | the decision from the three keys is the decision from the record of readings alone |
| `PriceWorker.StreakIsHeldRun` | apps/worker/src/main.ts:150-154 | the pending count is the length of the run of held, agreeing readings |
| `PriceWorker.ConfirmationsMayDrift` | apps/worker/src/main.ts:130-165 | limits and calls for which the getter confirms a level exactly 257 basis points from the first of its six readings |
| `PriceWorker.DriftIsBounded` | apps/worker/src/main.ts:130-165 | over any run with positive readings, a level accepted beyond the limit lies at most 257 basis points from the first of the six readings that confirmed it |
| `PriceWorker.ConsecutiveGoodTicks` | apps/worker/src/main.ts:192-202 | two good ticks of a metal with no good one between are within the limit, or the second feed confirmed the later |
| `PriceWorker.GramPriceIsFloor` | apps/worker/src/main.ts:90-102 | cents per gram are micro-dollars per ounce times micro-birr per dollar over 31,103 mg, rounded down |
| `PriceWorker.MovedBpsIsFloor` | apps/worker/src/main.ts:90-102 | a move is the difference in ten-thousandths of where it starts, rounded down |
| `PriceWorker.Worker.GetFxMicro` | apps/worker/src/main.ts:136-174 | the cache answers until it expires; otherwise the feed is read, an accepted rate is kept for the cache time and the rate in force for ten minutes when the reading is held; without an answer nothing is written |
| `PriceWorker.Worker.Judge` | apps/worker/src/main.ts:192-202 | suspect exactly when beyond the limit from the newest good tick and not confirmed |
| `PriceWorker.Worker.TickMetal` | apps/worker/src/main.ts:232-258 | one tick appended, priced by ounce price times rate over 31,103 mg rounded down, flagged exactly when beyond the limit from the anchor and not confirmed within 50 basis points; the anchor moved only by a good one |
| `PriceWorker.Worker.Round` | apps/worker/src/main.ts:230-258 | every tick stored carries the last accepted rate; without a rate nothing is stored |
| `PriceWorker.Worker.SeedLastGood` | apps/worker/src/main.ts:204-214 | a restart reads back exactly the anchors the process had |
| `Outbox.PassMakesProgress` | apps/worker/src/dispatcher.ts:170-190 | each completed pass leaves nothing queued or raises attempts by one below the limit |
| `Outbox.StatusFollowsAnswer` | apps/worker/src/dispatcher.ts:105-190 | what each answer makes of each channel: sent, skipped, failed, or queued again until the fifth pass with an error gives it up; a channel not queued is left alone |
| `Outbox.FivePassesFinishExactlyWhen` | apps/worker/src/dispatcher.ts:70-194 | five passes close a row, whatever the transports answer, exactly when it has a user; the join drops one without |
| `Outbox.AcceptedIsForgottenPlusSent` | apps/worker/src/dispatcher.ts:105-190 | over any completed and interrupted passes, a queued mail or chat message is accepted once for each interrupted pass that sent it, and once more when the row ends up saying sent |
| `Outbox.SentOnceExactlyWhen` | apps/worker/src/dispatcher.ts:41-42 | a row that says sent was accepted exactly once if and only if no pass that got its message accepted was interrupted; without such a pass, never twice |
| `Outbox.InterruptedMailIsSentAgain` | apps/worker/src/dispatcher.ts:41-42 | any row with a mail due can be sent twice: accepted, interrupted, and due again when the lease ends |
| `Outbox.GivenUpOnlyAfterFiveErrors` | apps/worker/src/dispatcher.ts:170-176 | attempts count the passes that met an error, and a mail or push is given up only after five |
| `Outbox.BackoffHonoursRetryAfter` | apps/worker/src/dispatcher.ts:177-188 | the wait is 2, 4, 8, then 16 minutes by the number of passes that met an error, or the provider's retry_after rounded up to minutes when that is longer |
| `Outbox.NotificationDispatcher.Claim` | apps/worker/src/dispatcher.ts:71-84 | leases for 120 s exactly the first twenty rows that wait and are due |
| `Outbox.PassDrains` | apps/worker/src/dispatcher.ts:70-194 | when every row has a user, a completed pass lowers the work left by at least the rows handled |
| `Outbox.NotificationDispatcher.RunOnce` | apps/worker/src/dispatcher.ts:70-194 | one completed pass over exactly the claimed rows, nothing else touched; the work left falls by at least the rows handled when every row has a user |
| `EventStreams.ChunksDoNotMatter` | apps/web/src/lib/authed-stream.ts:48-72 | however a text is split, the parser ends in the same state with the same events, absent a runaway line |
| `EventStreams.NeverCutOffExactlyWhen` | apps/web/src/lib/authed-stream.ts:71-72 | no split cuts the stream off exactly when no stretch without a line feed exceeds the limit |
| `EventStreams.RoundTrip` | apps/web/src/lib/authed-stream.ts:57-70 | a printed list of events, in any chunks, parses back to itself exactly when every name fits one line and every data line survives its line end |
| `EventStreams.CarriedExactlyWhen` | apps/web/src/lib/authed-stream.ts:58-69 | data survives exactly when CRLF is used or no line of it ends in a carriage return |
| `EventStreams.OtherLinesAreIgnored` | apps/web/src/lib/authed-stream.ts:57-70 | comments, id:, retry: and every other line that names neither field change nothing |
| `EventStreams.DataLineAdds` | apps/web/src/lib/authed-stream.ts:57-70 | a data line adds its value, with or without a space after the colon |
| `EventStreams.EventLineNames` | apps/web/src/lib/authed-stream.ts:57-70 | an event line sets the name, trimmed |
| `EventStreams.TrimTakesSpacesOff` | apps/web/src/lib/authed-stream.ts:57-70 | trimming takes spaces off both ends and nothing else |
| `EventStreams.BlankLineDelivers` | apps/web/src/lib/authed-stream.ts:57-70 | a blank line delivers the gathered lines joined by line feeds, if there are any, and starts over |
| `EventStreams.EventStream.Receive` | apps/web/src/lib/authed-stream.ts:55-72 | cutting lines out of the buffer is reading the chunk character by character |
| `EventStreams.EventStream.ReadAll` | apps/web/src/lib/authed-stream.ts:52-73 | the reader loop, up to the runaway limit |

## Left out

- HTTP controllers, DTO validation, cookies, screens and the service worker: plumbing and user interface.
- Cryptography, JWT encoding, SMTP, Web Push, Telegram, Fayda, Google, WebAuthn and Gemini calls: foreign code; their answers are inputs.
- The provider's network calls: an input.
- Float conversion of provider amounts and Intl formatting: not integer logic; whether amount, currency and mode match is an input.
- The freeze row, compliance events, audit rows, receipt serials and notification text written beside a money change: no effect on balances.
- Tier caps as a run-wide invariant: the tier is a cache that changes on portfolio reads (apps/api/src/portfolio/portfolio.service.ts:337-345); the caps are a gate only.
- Portfolio valuation and `tierFor`: one multiplication per holding and a cache write; only the cost replay is modelled.
- `PayoutService.PayoutsService.Request`: leaves out the routing to the instant path or to finance (`manualReason`), which decides who approves, not what happens to the money.
- `PayoutService.PayoutsService.Confirm`: one call with nobody in between; the double submit is in `CodeRaces.SingleUse` and `PayoutService.PayoutsService.AnswerRefusedCode`.
- `PayoutService.EmailCodesService.Issue`: one call with nobody in between; overlapping issues are in `CodeRaces`.
- `PayoutService.EmailCodesService.Consume`: one call with nobody in between; overlapping presentations are in `CodeRaces`.
- `Ledger.LedgerService.LockAndReadBalances`: gives the sums only; the locks and their order are in `Interleaving`.
- `PayoutService.PayoutsService.Sweep`: visits in table order, for the same reason as the next line.
- `PayoutService.PayoutsService.StaleInFlight`: takes table order for order of creation, and does not model the alert on a payout stuck for an hour.
- `PaymentService.PaymentsService.SettleByTxRef`: one call with nobody in between; overlapping calls are in `DepositRaces`.
- `PaymentService.PaymentsService.HandleReversal`: one call with nobody in between; overlapping calls are in `DepositRaces`.
- `PaymentService.PaymentsService.HandleChargeEvent`: one call with nobody in between; overlapping calls are in `DepositRaces`.
- `PaymentService.PaymentsService.Sweep`: the rows its query returned and which are over three days old are inputs, since the model keeps no creation time of a payment.
- `Outbox.NotificationDispatcher.RunOnce`: one pass at a time; that two overlapping passes never send twice is not claimed, because a full batch can outlast the lease; passes that are interrupted are `Outbox.AcceptedIsForgottenPlusSent`.
- `PriceWorker.Worker.GetFxMicro`: a call that completes; a crash between the delete and the two sets (apps/worker/src/main.ts:144-146 and 156-158) is left out.
- `PriceWorker.Worker.Round`: one writer, a table ordered by insertion and keys that Redis does not lose; staff notices, publishing and alerts are not modelled.
- `Sessions.SessionsService.Create`: the new-device flag, user agent and address are not modelled.
- `EventStreams.EventStream.ReadAll`: characters are counted as code points, where the source counts UTF-16 units.
- Account creation (`ensureUserAccount`), the system account cache and the two freeze signals: single-row reads and inserts.
