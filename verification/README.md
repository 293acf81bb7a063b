# The escrow marketplace's money system, verified

A Dafny model of the backend's money: wallets with balances and holds, an append-only double-entry ledger with
idempotency keys, orders, invoices, payment intents, promos, disputes and withdrawals, and the pricing engine that
produces the invoices. Around it stand five smaller mechanisms of the same backend: the fixed-window rate limiter,
the lease lock, refresh-token families, field-key rotation and keyset paging.

`dafny verify dfyconfig.toml` checks the project.

## How it is built

- `Money`, `Sums`, `Results`: half-up rounding on integer halalas, finite sums, outcomes and errors.
- `Pricing` says what every leg of an invoice is; `PricingEngine` has the engine's loops, proved against it;
  `PricingTheorems` has the laws of allocation, price and settlement.
- `Tables` is the committed state; `OrderState` the transition table; `Ledger`, `MoneyOps` and `Market` give each of
  the 24 service calls as a function from the committed state to the next one, or to the error that rolls it back.
- `Backend` is the imperative form: a `Session` whose methods update the tables in place, step by step, each proved
  to reach the state its function specifies. `Execute` commits or rolls back, `Serve` handles a whole run; the
  handlers behind them are refinement steps, and what they mean is stated by the lemmas below.
- `Laws` states the invariants, each over just the tables it speaks about. `LedgerProofs`, `Movements`, `FlowProofs`,
  `HoldProofs`, `PromoProofs` and `RecordProofs` prove them piece by piece; `StepProofs`, `MoneyProofs` and
  `SettlementProofs` call by call; `Theorems` for every run from the seeded database. `Evolution` says what no run
  undoes, `Lifetimes` and `Reservations` what can never happen again, `Exits` when escrowed money can ever be paid
  out, `SystemWallets` what the platform's own wallets hold, `Rows` what every ledger row says, `Journeys` how a
  request for an invoice is paid out in the end. `Calls`, `Outcomes` and `Issuing` say when each call commits and
  exactly what it then leaves, `RoundTrips` what one call undoes of another, `Reconcile` that reconciliation finds
  exactly the drifts there are. `Scenarios` has runs that reach the states listed below.
- `RateLimit`, `Locks`, `RefreshTokens`, `Base64` with `Crypto` and `KeyRotation`, and `Paging` stand alone.

Amounts are integer halalas; an exact Decimal is a `real` number of halalas. Rows are never deleted, so an id is a
position in its table. Every request carries the time it is made, in seconds, and the settings it runs under, which
may differ from one request to the next; a calendar day is 86400 seconds. The CHECK constraints of the orders table
are evaluated whenever an order row is written. Each user has a slot in the wallet table, and the slots of users whom
the dashboard created are marked as empty: no wallet is found there, and none of their own rows refers to one.

A service call is one atomic transaction. That is an assumption where the code reads before it locks or without a
lock: `cancel_order` (app/services/order_service.py:177), `create_invoice` (app/services/invoice_service.py:119),
`pay_invoice` (app/services/payment_service.py:187), `request_withdrawal` (app/services/withdrawal_service.py:54) and
`get_refresh_token` (app/repositories/auth_repository.py:108), where two concurrent refreshes of one token could leave
two live successors.

## What the code does that one might not expect

The model follows the code, and these are proved of it, each with a run from the seeded database or a concrete input:

- The dashboard creates customers and couriers without a wallet (app/services/admin_service.py:312-341), although
  app/services/fulfillment_service.py:158 and app/services/payment_service.py:202 take it that everyone has one. Such
  a courier accepts orders like any other. Once one is paid its money has no way out of escrow: approval, automatic
  approval and every resolution of a dispute, the full refund included, are refused for good
  (`Lifetimes.WalletlessEscrowIsStranded`, `Scenarios.WalletlessCourierStrandsEscrow`). A customer without a wallet
  cannot pay (`Outcomes.PayInvoiceOutcome`), and no dispute of theirs can be resolved
  (`Outcomes.ResolveDisputeOutcome`). `Exits.EscrowHasExit` says exactly which orders can still be settled.
- The delivery-date check on the orders table is evaluated at every update. Once the delivery day of an invoiced order
  is over, its row can never be written again: a funded order keeps its money in escrow for good, an order that waits
  keeps its ISSUED invoice and what that holds, and payments for it are refused (`Lifetimes.LateEscrowIsStranded`,
  `Lifetimes.LateInvoiceIsStranded`, `Reservations.LateHoldIsStranded`, `Scenarios.EscrowCanStrand`,
  `Scenarios.PaymentCanStrand`, `Scenarios.HoldCanStrand`). Automatic approval, due 72 hours after delivery, therefore
  fails for every order delivered less than three days early (`Lifetimes.AutoApprovalComesTooLate`). The expiry sweep
  fails exactly on such waiting orders (`Outcomes.ExpireInvoiceOutcome`).
- A failed webhook, an invoice cancel and a re-pay that the wallet now covers drop a reservation without releasing
  it. Held is therefore live reservations plus what was dropped, exactly (`Theorems.HeldIsExact`,
  `Scenarios.ReservationCanBeDropped`).
- A promo can make the tax on an invoice negative, because the residue absorber may exceed its net; the database then
  refuses the invoice although promo and price passed every check (`Scenarios.PromoCanBeRefused`). A service-fee floor
  whose tax covers half a halala per line rules that out, and the default one does (`Issuing.FloorProtectsPromos`).
- docs/endpoints/fulfillment.md:33 says that a dispute freezes escrow. It does not: the order can still be approved,
  and the dispute can then never be resolved (`Outcomes.DisputedIsApproved`, `Scenarios.DisputeCanBeOrphaned`).
- docs/flows/promo.md says that a promo slot is released when the order is cancelled or refunded in full. The code
  releases it exactly when the invoice is cancelled or expires (`Theorems.PromosAreExact`, `Theorems.PaidSlotIsSpent`,
  `Scenarios.SlotOutlivesOrder`).
- A payment reported for an invoice that has been cancelled or has expired is never booked
  (`Lifetimes.LatePaymentNeverBooked`, `Scenarios.PaymentCanBeLost`).
- An order whose courier payout rounds to zero cannot be completed by approval, by automatic approval or by a verdict
  for the courier; only a refund or a split settles it (`Outcomes.CompletionOutcome`, `Outcomes.ResolveDisputeOutcome`,
  `Scenarios.PayoutCanVanish`).
- Validation adds up raw amounts while rounded ones are posted, so it protects only legs on the halala grid
  (`Ledger.OffGridLegsDrift`); all callers build such legs.
- The residue absorber's allocation can be negative or exceed its net (`PricingTheorems.AbsorberUnconfined`).
- A reused refresh token whose row has been purged no longer revokes its family, and no retention period is long
  enough to prevent that: with the default thirty days each of lifetime and retention a session rotated on days 29 and
  58 survives the replay of its first token on day 61 (`RefreshTokens.ReplayOutcome`,
  `RefreshTokens.PurgedReuseGoesUnnoticed`, `RefreshTokens.ThirtyDays`).
- Waiting exactly the advertised retry-after is enough only if TTL has not rounded it down
  (`RateLimit.RetryDelaySuffices`, `RateLimit.RetryAloneMayFail`).

## Model

| member | source | states |
|---|---|---|
| Theorems.RunKeepsInv | app/services/money_service.py:98-153 | every law of module Laws (ledger, flow, escrow, intents, holds, keys, top-ups, payouts, promos) holds in every state that any sequence of the 24 service calls reaches from the seeded database, whatever valid settings each call runs under; no intent, withdrawal or ledger row belongs to a user without a wallet |
| Theorems.StepKeepsInv | app/services/payment_service.py:174-373 | every committed call keeps every law and changes each user's unreleased hold by exactly the reservation that call drops, which is zero for all calls but a failed webhook, an invoice cancel and a re-pay the wallet covers |
| Theorems.EscrowIsExact | app/services/fulfillment_service.py:150-180 | in every reachable state the escrow balance is the sum of the totals of the PAID invoices of orders IN_PROGRESS, DELIVERED or DISPUTED; it is never negative, and zero when no order is in those states |
| SystemWallets.SystemWalletsAreExact | app/services/money_service.py:193-255 | in every reachable state TAX_PAYABLE is the sum of the taxes of the orders released, REVENUE the sum of what their totals leave after tax and payout, and GATEWAY the withdrawals paid less the top-ups credited less the gateway portions of PAID invoices |
| SystemWallets.UsersOwnTheRest | app/services/money_service.py:98-153 | in every reachable state the users' balances together are what came in through the gateway less what was paid out, is in escrow, is owed in tax and was earned |
| SystemWallets.StepIsQuiet | app/services/payment_service.py:298-324 | every call but a payment the wallet covers, a PAID event for a NEW intent and the settlements leaves the ledger and every balance as they are and finishes no invoice, order or withdrawal |
| Theorems.MoneyMovesOnce | app/services/money_service.py:193-339 | over any run escrow is credited at most once and debited at most once for an order, in equal amounts: credited exactly when the order has been paid, debited exactly when it has been settled, although release, refund and split use three keys |
| Exits.EscrowHasExit | app/services/fulfillment_service.py:150-310 | in every reachable state, at any time and under any valid settings, some further requests settle a funded order if and only if its courier has a wallet, its delivery day is not over and the customer has a wallet or the courier's payout does not round to zero |
| Exits.OthersSettleNothing | app/services/fulfillment_service.py:124-249 | only an approval, automatic approval or dispute resolution of the order itself settles a funded order |
| Journeys.RequestIsPaidOut | app/services/fulfillment_service.py:150-180 | from a courier's request for an invoice to the step that releases its order, whatever happens in between: TAX_PAYABLE receives exactly the engine's tax, the courier items and courier fee less the rounded commission, REVENUE service fee and commission less the discount, and the whole total leaves escrow |
| Journeys.PriceIsKept | app/repositories/invoice_repository.py:33-72 | every amount of an invoice is the engine's price for its request in every later state of the run |
| Theorems.ReservationsAreCovered | app/services/money_service.py:348-415 | for every user in every reachable state: 0 <= live reservations <= held <= balance; the clamp of release_hold has never fired; held equals the live reservations exactly when the run dropped none |
| Theorems.HeldIsExact | app/workers/expiry.py:92-126 | held is exactly the live reservations plus what the run has dropped without releasing, for every user and every run |
| Theorems.TopupCreditedOnce | app/services/payment_service.py:298-324 | whatever webhooks and sweeps arrive, a top-up is credited at most once, for exactly its amount; once it has left NEW it never returns there and its credits never change; a PAID top-up has been credited |
| Theorems.LedgerIsExact | app/services/money_service.py:117-153 | in every reachable state each balance is the sum of its settled rows, each row's running balance its wallet's prefix sum, each correlation group and all wallets together sum to zero, no key occurs twice, and no wallet but gateway and revenue is negative |
| Theorems.PaymentsAreWellPosed | app/repositories/payment_repository.py:91-99 | in every reachable state an order has at most one active invoice and an invoice at most one NEW intent; a waiting order's active invoice is ISSUED; wallet portion plus intent amount is the invoice total |
| Theorems.PromosAreExact | app/repositories/promo_repository.py:84-132 | in every reachable state a promo's counter is its RESERVED plus CONSUMED redemptions and within the global cap, no user exceeds the per-user cap, and RESERVED/CONSUMED/RELEASED go with ISSUED/PAID/(CANCELLED or EXPIRED) exactly |
| Theorems.PaidSlotIsSpent | app/services/promo_service.py:137-157 | from the moment a promo invoice is PAID its row is frozen and its redemption stays CONSUMED for the rest of any run, a full refund included |
| Theorems.OneCourierForLife | app/services/order_service.py:146-166 | once an order has a courier it has that courier in every later state of the run, whatever the accept lock does |
| Theorems.RunEvolves | app/services/order_state.py:13-27 | between any two points of a run the ledger is only appended to; customers, couriers, prices, payers and amounts never change; settled and cancelled orders, invoices that left ISSUED, finished withdrawals and resolved disputes are frozen |
| Theorems.RunKeepsDisputes | app/services/fulfillment_service.py:182-249 | in every reachable state a DISPUTED order has an open dispute, and an order with a dispute is DISPUTED or settled; no courier has two withdrawals under one idempotency key |
| Theorems.CommitEvolves | app/services/order_state.py:30-44 | every status change any call makes is a move of the transition table, also where the code assigns the status without asserting it |
| OrderState.PhasesAdvance | app/services/order_state.py:13-44 | the table never returns to an earlier money phase or skips the funded one; WAITING_PAYMENT to IN_PROGRESS is the only way into escrow; nothing leaves a settled or cancelled order |
| OrderState.Sources | app/services/order_state.py:13-27 | for each status exactly the statuses it can be reached from |
| Evolution.StepWritesInWindow | app/models/tables.py:254-257 | an order row that a committed call changes is left inside its delivery window at that time, and its date changes only while the order is NEW or ASSIGNED |
| Lifetimes.LateOrdersFreeze | app/models/tables.py:254-264 | on any run whose clock does not go back, the row of an invoiced order never changes again once its delivery day is over |
| Lifetimes.LateEscrowIsStranded | app/models/tables.py:254-257 | a funded order past its date stays funded for the rest of the run: one escrow credit of its total, never a debit, and escrow still holds at least that total |
| Lifetimes.WalletlessEscrowIsStranded | app/services/fulfillment_service.py:150-310 | a funded order whose courier was created without a wallet stays funded for the rest of any run: one escrow credit of its total, never a debit, escrow still holding it, and every completion and dispute resolution refused |
| Lifetimes.AutoApprovalComesTooLate | app/services/fulfillment_service.py:139-148 | for an order delivered less than three days before its date, the sweep's call three days or more after the delivery is refused or does nothing in every later state of the run |
| Lifetimes.AutoApprovalWindow | app/core/config.py:134 | 72 hours after its delivery a completable order is approved automatically exactly when it was delivered at least three days before its date |
| Lifetimes.LateInvoiceIsStranded | app/workers/expiry.py:92-126 | an invoice that waits for payment past its order's date stays ISSUED and waiting for the rest of the run: nobody can pay, cancel or expire it |
| Reservations.LateHoldIsStranded | app/workers/expiry.py:92-126 | the wallet portion reserved for an invoice that waits past its order's date stays held in the payer's wallet for the rest of the run, even if the payment is reported failed |
| Reservations.StepUndisturbed | app/services/payment_service.py:174-373 | no call but a failed payment for that very intent changes the open intent of such an invoice, or the invoice |
| Lifetimes.LatePaymentNeverBooked | app/services/payment_service.py:298-353 | once an invoice is CANCELLED or EXPIRED, a PAID event for its intent is refused or changes nothing in every later state of the run |
| Lifetimes.OrphanedDisputeStaysOpen | app/services/fulfillment_service.py:207-249 | a dispute still open when its order is settled stays open, and every resolution of it is refused, in every later state of the run |
| Scenarios.EscrowCanStrand | app/core/config.py:134 | a run from the seeded database to a delivered order which, over every continuation from the next day on, stays DELIVERED with its money in escrow, automatic approval refused |
| Scenarios.WalletlessCourierStrandsEscrow | app/services/admin_service.py:312-341 | a run in which the dashboard creates the courier, who accepts an order that is then paid: over every continuation the money stays in escrow, and approval, automatic approval and every dispute outcome are refused |
| Scenarios.PaymentCanStrand | app/services/payment_service.py:232-277 | a run to a gateway payment started on the delivery day which, over every continuation from the next day on, is refused while the order keeps waiting |
| Scenarios.HoldCanStrand | app/workers/expiry.py:92-126 | a run to a payment of which half is held in the customer's wallet; over every continuation from the day after the delivery day it stays held |
| Scenarios.PayoutCanVanish | app/services/money_service.py:41-43 | a run to a delivered order of one halala at a commission of one half which no participant can approve, and which automatic approval refuses with the ledger's imbalance error, at any time |
| Scenarios.DisputeCanBeOrphaned | app/services/fulfillment_service.py:124-205 | a run in which the customer disputes an order and then approves it: the courier is paid in full, and over every continuation the dispute stays open and cannot be resolved |
| Scenarios.PaymentCanBeLost | app/services/invoice_service.py:189-218 | a run in which the courier cancels the invoice while the customer pays at the gateway: over every continuation the payment is refused or ignored |
| Scenarios.ReservationCanBeDropped | app/services/payment_service.py:305-307 | a run after which the customer's wallet of 10000 halalas is held entirely although it has no live reservation |
| Scenarios.PromoCanBeRefused | app/models/tables.py:432-436 | a run to an order for which a promo passes every check and the engine accepts the price, but the invoice is refused for its negative tax |
| Scenarios.SlotOutlivesOrder | app/services/order_service.py:168-184 | a run after which a cancelled order still occupies its promo's slot, until the expiry of its invoice returns it |
| Issuing.IssueOutcome | app/services/invoice_service.py:100-187 | with or without a promo, issuing commits exactly for a participant's ASSIGNED order inside its delivery window, lines within the limits spelled out, a usable promo that discounts something, a positive total within the maximum and no negative service fee or tax; the order then waits for that total, the new row holds the issuer, the deadline and every amount of that price, and the promo has one more use reserved for the customer |
| Issuing.RequestAmounts | app/core/pricing.py:245-335 | from the request and settings alone: items at price times quantity, the courier's fee, a service fee at its rate within its bounds, the discount handed out in full, a tax within half a halala of the exact one per line and fee, and the total that adds them up |
| Issuing.ValidatePromoOutcome | app/services/promo_service.py:72-100 | a promo is valid exactly when it is active, started and not ended, the base reaches its minimum, a slot is left and the user has fewer unreleased redemptions than each user may have |
| Issuing.ReservePromoOutcome | app/repositories/promo_repository.py:84-132 | a slot is reserved on the same terms, the minimum apart |
| Issuing.UsesAreCounted | app/repositories/promo_repository.py:84-132 | the uses of a promo, by one user or by all, are the number of invoices whose redemption is RESERVED or CONSUMED |
| Issuing.EngineOutcome | app/core/pricing.py:245-335 | for valid lines and a discount that is not negative the engine accepts exactly the totals between one and the maximum |
| Issuing.FloorProtectsPromos | app/core/config.py:121-126 | if the tax on the service-fee floor covers half a halala for each line an invoice may have, no promo is refused for a negative tax or fee |
| Issuing.DefaultFloorSuffices | app/core/config.py:121-126 | the default settings meet that condition |
| Issuing.TaxFloor | app/core/pricing.py:286-315 | the tax of a discounted invoice is at least the tax on its service fee less half a halala for each line |
| Issuing.AbsorberExcess | app/core/pricing.py:234-241 | the absorber's allocation exceeds its net by at most half a halala for each other component |
| Issuing.PlainPriceIsSound | app/core/pricing.py:245-335 | valid lines without a promo have a positive total and no negative leg |
| Issuing.PreviewAgrees | app/services/invoice_service.py:302-306 | the base a promo code is validated against is the base the engine discounts |
| RoundTrips.IssueThenCancel | app/services/invoice_service.py:189-218 | a freshly issued invoice can be cancelled exactly inside its order's window; that restores every promo counter, and no wallet, intent or ledger row has changed |
| RoundTrips.HoldThenRelease | app/services/money_service.py:348-383 | a hold succeeds exactly when that much is available, takes it out of what is available and moves no balance; releasing it restores the state exactly |
| RoundTrips.RequestThenReject | app/services/withdrawal_service.py:45-128 | rejecting a withdrawal, approved in between or not, gives back exactly the wallets before the request; approving makes the row APPROVED and changes no other; repeating the request changes nothing |
| RoundTrips.RequestThenPay | app/services/withdrawal_service.py:45-148 | in every state that obeys the laws, a covered request within the bounds, its approval and its payment all commit; in the end exactly the rounded amount has gone from the courier to the gateway, nothing more is held, and the withdrawal is PAID |
| Outcomes.WebhookOutcome | app/services/payment_service.py:298-316 | a verified event commits exactly unless it reports PAID with another amount, or PAID for a NEW intent whose invoice is not PAID and either does not wait or belongs to an order past its date; a replay changes nothing, a failure moves no money, a payment moves exactly what it was for |
| Outcomes.SettleInvoiceOutcome | app/services/payment_service.py:326-373 | settling an open intent commits exactly for a PAID invoice or one that waits inside its order's window; the latter is funded with exactly its total, wallet portion from the payer, the rest from the gateway, and order and invoice advance |
| Outcomes.PayInvoiceOutcome | app/services/payment_service.py:174-277 | paying commits exactly when the actor takes part and has a wallet, the invoice is ISSUED and unexpired, the order waits and, if the wallet covers the total, is inside its window; then the total moves into escrow; otherwise a pending payment is left as it is, or everything available is held, one NEW intent is opened for exactly the rest, and the invoice records both portions and the method |
| Outcomes.CompletionOutcome | app/services/fulfillment_service.py:150-180 | completion commits exactly for a DELIVERED or DISPUTED order inside its window whose courier has a wallet and whose payout does not round to zero; the row then holds as commission the rounded rate of items and courier fee and as payout the rest of them, payout, tax and the rest of the total go from escrow to courier, authority and platform, and nothing else changes; each refusal has its own error |
| Outcomes.ResolveDisputeOutcome | app/services/fulfillment_service.py:207-310 | a dispute is resolved exactly when it is open, its order DISPUTED and inside its window, courier and customer both have wallets, and the instruction is applicable; the whole total then leaves escrow to the parties the instruction names, a verdict for the courier records commission and payout as completion does, and nothing but order and dispute changes |
| Outcomes.DisputedIsApproved | app/services/fulfillment_service.py:124-137 | an order with an open dispute is approved by a participant exactly when its courier has a wallet, it is inside its window and its payout does not round to zero; the dispute then stays open |
| Outcomes.CancelInvoiceOutcome | app/services/invoice_service.py:189-218 | cancelling an invoice commits exactly for its issuer, while its order waits inside its window; the order is then ASSIGNED and owes nothing; wallets, ledger and intents stay as they are |
| Outcomes.ExpireInvoiceOutcome | app/workers/expiry.py:92-126 | the sweep fails on an invoice exactly when its order waits outside its window; otherwise an ISSUED invoice becomes EXPIRED, its open intent is expired with exactly its hold released, and a waiting order is ASSIGNED and owes nothing |
| MoneyProofs.SettleRecordOutcome | app/models/tables.py:453-458 | with the unique index and the orders table's checks evaluated at flush, a record settles exactly for the ISSUED invoice of a waiting order inside its window |
| Outcomes.SettleTopupOutcome | app/services/payment_service.py:318-324 | settling a NEW top-up always commits in a reachable state and moves exactly its amount from the gateway to its user |
| Outcomes.PayoutVanishes | app/core/pricing.py:136-162 | the courier's payout rounds to zero exactly when base * (1 - rate) is at most half a halala |
| Outcomes.MarkPaidOutcome | app/services/withdrawal_service.py:130-148 | an APPROVED withdrawal can always be paid: it debits exactly its amount, releases exactly its hold, changes no other row, and paying again changes nothing; any other status but PAID is refused |
| Calls.RequestOutcome | app/services/withdrawal_service.py:45-91 | a repeated request changes nothing; a new one commits exactly for a courier with a wallet in which the rounded amount, within the bounds, is available; exactly that is held and REQUESTED |
| Calls.ApproveWithdrawalOutcome | app/services/withdrawal_service.py:93-104 | approval commits exactly for a REQUESTED or APPROVED withdrawal; it is then APPROVED and nothing else changed; a repeat changes nothing |
| Calls.RejectWithdrawalOutcome | app/services/withdrawal_service.py:106-128 | rejection commits exactly unless the withdrawal is PAID, and releases exactly its amount once |
| Calls.CreateTopupOutcome | app/services/payment_service.py:131-172 | a top-up is opened exactly by a user with a wallet for a rounded amount within both bounds, NEW for that amount |
| Calls.ExpireTopupOutcome | app/workers/expiry.py:128-141 | the sweep labels a top-up intent EXPIRED whatever its status, and touches nothing else |
| Calls.CreateOrderOutcome | app/models/tables.py:254-257 | an order is created exactly for an existing account and a date from today to 180 days ahead, in seconds; it starts NEW and empty |
| Calls.RescheduleOutcome | app/services/admin_service.py:525-556 | the date moves exactly while the order is NEW or ASSIGNED, to a date in time |
| Calls.AcceptOutcome | app/services/order_service.py:124-166 | an order is accepted exactly by an existing account while NEW and in time; it then has that courier |
| Calls.CancelOrderOutcome | app/services/order_service.py:168-184 | an order is cancelled exactly by a participant before it is paid and in time; only its status changes |
| Calls.DeliverOutcome | app/services/fulfillment_service.py:76-122 | an order is delivered exactly by a participant while IN_PROGRESS and in time, with one to five photos and inside the radius |
| Calls.RaiseDisputeOutcome | app/services/fulfillment_service.py:182-205 | a dispute is raised exactly by a participant while the order is IN_PROGRESS or DELIVERED and in time; a second one never |
| Calls.ApprovalOutcome | app/services/fulfillment_service.py:124-148 | the sweep completes a DELIVERED order and leaves every other as it is; an approval completes for a participant and is refused to anyone else |
| Calls.CreatePromoOutcome | app/models/tables.py:350-366 | a promo is created exactly unused, with the value its kind demands, at least one use per user and an end after its start |
| Calls.NewUserOutcome | app/repositories/auth_repository.py:22-80 | registration gives the next user an empty wallet, the dashboard creates the next user without one, and nobody else's changes |
| Ledger.ApplyLegsMoves | app/services/money_service.py:125-137 | on-grid legs move each wallet by exactly the sum of the rows posted to it, and leave holds alone |
| Ledger.PostedTotal | app/services/money_service.py:38-40 | for on-grid legs the raw total that validation checks is the total of the rows posted |
| Ledger.OffGridLegsDrift | app/services/money_service.py:30-43 | legs off the halala grid can pass validation and yet post a group that does not sum to zero and a balance that differs from its rows |
| LedgerProofs.PostGroupKeepsLedgerLaw | app/services/money_service.py:98-153 | posting a well-formed on-grid group keeps balances, running balances, group sums, key uniqueness and the global zero sum |
| Rows.PostOutcome | app/services/money_service.py:98-153 | on the grid, a group that does not balance is refused, a replayed one changes nothing, one naming a missing wallet is refused, and one that commits appends a row per leg with that leg's wallet, amount, kind, key and references under a new group number |
| Rows.EveryRowFits | app/services/money_service.py:164-487 | in every reachable state every ledger row has the wallet, sign, key and references its kind demands: tax rows are credits of the tax wallet, commission rows are on revenue, escrow is entered under an invoice's key and left under its order's |
| Rows.ReplayReleasesNothing | app/services/money_service.py:385-487 | funding or paying out again under a key in the ledger changes nothing, so no hold is released twice |
| Rows.ReleaseHoldOutcome | app/services/money_service.py:367-383 | a hold falls by the amount, and to zero with one warning when the amount exceeds it |
| Movements.PostHasEffect | app/services/money_service.py:98-162 | a postable, covered movement with an unspent key is posted, moves exactly the wallets it names and extends the escrow, top-up and payout histories by exactly its part |
| Movements.FundPostable | app/services/money_service.py:417-483 | the funding legs are on the grid, sum to zero and debit payer and gateway by their portions to credit escrow with the total |
| Movements.ReleasePostable | app/services/money_service.py:193-255 | the release legs are on the grid, sum to zero and take payout, tax and revenue out of escrow |
| Movements.RefundPostable | app/services/money_service.py:257-287 | the refund legs are on the grid, sum to zero and return the amount from escrow to the customer |
| Movements.SplitPostable | app/services/money_service.py:289-339 | the split legs are on the grid, sum to zero and divide the total between courier and customer |
| Movements.TopupPostable | app/services/money_service.py:164-191 | the top-up legs are on the grid, sum to zero and credit the user from the gateway |
| Movements.PayoutPostable | app/services/money_service.py:385-413 | the payout legs are on the grid, sum to zero and debit the courier to the gateway |
| SettlementProofs.ReleaseOutcome | app/services/money_service.py:193-255 | releasing a funded order posts its completion movement exactly when the payout is not zero, and takes out the whole total |
| SettlementProofs.PayWithdrawalEffect | app/services/money_service.py:385-415 | paying an approved withdrawal is never a replay, never overdraws and never clamps |
| MoneyProofs.SettlesOnlyWaiting | app/services/payment_service.py:326-373 | a settlement that is not a replay commits only for an ISSUED invoice of a waiting order |
| MoneyProofs.FundEffect | app/services/money_service.py:417-487 | funding a payable invoice posts exactly its movement and drops the hold without clamping |
| Evolution.StepAdvances | app/services/order_service.py:146-184 | every committed call evolves the tables, follows the transition table, keeps the dispute law and the law of users without a wallet, settles an order only if its courier has a wallet, and opens a wallet slot only for a new user |
| Backend.Session.Execute | app/core/deps.py:46-56 | a request leaves the session in the state its specification commits, or exactly as it found it, with the same error |
| Backend.Session.Serve | app/core/deps.py:46-56 | serving any requests in place ends in the state of the run; from the seeded database, under valid settings, that state obeys every law |
| Backend.Session.ValidateLegs | app/services/money_service.py:30-43 | true exactly for two legs or more whose raw total rounds to zero and none of which does |
| Backend.Session.KeyExists | app/services/money_service.py:155-162 | whether some leg's key is in the ledger |
| Backend.Session.PostGroup | app/services/money_service.py:98-153 | the loop over the legs produces exactly the specified wallets and rows, or the specified error |
| Backend.Session.ReleaseHold | app/services/money_service.py:367-383 | lowers held by the amount, or to zero with one more warning counted when the amount exceeds it |
| Backend.Session.FundEscrow | app/services/money_service.py:417-487 | builds and posts exactly the funding legs; a hold is released on the first posting only, never on a replay |
| Backend.Session.ReleaseEscrow | app/services/money_service.py:193-255 | builds exactly the specified release legs and posts them |
| Backend.Session.SplitEscrow | app/services/money_service.py:289-339 | builds exactly the specified split legs and posts them |
| Backend.Session.ReservePromo | app/services/promo_service.py:102-135 | takes one slot of an active promo inside its window and under its cap, then refuses a user at the per-user cap |
| Backend.Session.ExpireStale | app/workers/expiry.py:47-89 | the sweep skips the invoices it fails on, reaches the specified state and counts exactly the invoices that left ISSUED, however often one is listed |
| Backend.Session.ApplyOutcome | app/services/fulfillment_service.py:251-310 | moves the money and returns the target status the specification names, leaving the status itself to its caller |
| Reconcile.SettledSums | app/repositories/wallet_repository.py:146-171 | the one-pass GROUP BY map has a key exactly for each group with a settled row, and its value is the naive per-group sum |
| Reconcile.Check | app/services/money_service.py:489-514 | the report lists exactly the wallets whose balance differs from their settled sum and the groups whose sum is not zero, and counts the wallets there are and the settled groups |
| Reconcile.CleanMeansReconciled | app/services/money_service.py:489-496 | a report is clean exactly when every balance is its settled sum and every group sums to zero |
| Reconcile.EveryRunReconciles | app/services/money_service.py:489-514 | every reachable state reconciles |
| Money.Quantize | app/core/money.py:53-59 | the nearest halala, ties away from zero on both sides |
| Money.QuantizeOdd | app/core/money.py:53-59 | a debit rounds exactly as the matching credit |
| Money.QuantizeTranslates | app/core/money.py:53-59 | adding whole halalas commutes with rounding exactly when a tie does not change side of zero |
| PricingEngine.AllocateDiscount | app/core/pricing.py:209-242 | shares plus residue patch equal the allocation that gives the absorber whatever the others leave |
| PricingEngine.TaxLines | app/core/pricing.py:288-311 | the loop yields the taxed lines and the sum of their taxes |
| PricingEngine.CalculateInvoiceTotals | app/core/pricing.py:245-373 | refines the specified price or integrity error |
| Pricing.LastPositive | app/core/pricing.py:237-240 | the last line with a positive net, 0 if there is none |
| PricingTheorems.ServiceFeeIsClamped | app/core/pricing.py:165-174 | the service fee is within half a halala of the exact rate unless it sits on the bound that rate crosses, zero for no base, and never falls when the base rises |
| PricingTheorems.DiscountIsCapped | app/core/pricing.py:177-196 | a percentage discount is never more than half a halala above the exact percentage, and within half a halala of it unless cap or base is smaller; a fixed one is its amount unless the base is smaller |
| PricingTheorems.TaxErrorBound | app/core/pricing.py:287-315 | for every input the invoice tax strays from the exact tax on the discounted components by at most half a halala per line and for each of the two fees |
| PricingTheorems.AllocationSums | app/core/pricing.py:209-242 | allocations sum exactly to the discount |
| PricingTheorems.AllocationWithinNet | app/core/pricing.py:228-233 | every component but the absorber is allocated between zero and its net |
| PricingTheorems.AllocationIsProRata | app/core/pricing.py:209-233 | every component but the absorber is given its pro-rata share of the discount to within half a halala |
| PricingTheorems.AbsorberError | app/core/pricing.py:234-241 | the absorber strays from its exact pro-rata share by at most half a halala for each other positive component |
| PricingTheorems.AbsorberUnconfined | app/core/pricing.py:234-241 | concrete inputs where the absorber goes negative, and where it exceeds its net |
| PricingTheorems.OvershootBelowDiscount | app/core/pricing.py:228-241 | the absorber's allocation stays above minus the discount, because rounding at most doubles a share |
| PricingTheorems.InvoiceTotalsOutcome | app/core/pricing.py:284-335 | for legal inputs the allocation error occurs exactly for a negative discount, the legs error never, and otherwise the two bounds on the total decide |
| PricingTheorems.PriceLegs | app/core/pricing.py:313-331 | both re-additions the engine performs agree with the total for every discount within the base |
| PricingTheorems.DiscountLowersTotal | app/core/pricing.py:280-319 | every positive discount strictly lowers the total, also when the absorber's allocation is negative |
| PricingTheorems.PromoLowersInvoice | app/core/pricing.py:245-335 | with rates in [0,1], an accepted promo with a positive discount prices the invoice strictly below the same invoice without it |
| PricingTheorems.SettlementSplitsExactly | app/core/pricing.py:136-162 | payout + tax + revenue = total, commission + payout = items + courier fee, revenue = service fee + commission - discount, and commission is the rate of items and courier fee rounded half up, for every invoice the engine prices |
| PricingTheorems.SettlementIsRated | app/core/pricing.py:136-162 | for any base that is not negative and any rate in [0,1] the commission c satisfies 2c - 1 <= 2 * base * rate < 2c + 1; the courier is paid the rest of the base, the tax is handed on and the platform keeps what is left of the total |
| PricingTheorems.PayoutIgnoresPromo | app/core/pricing.py:116-162 | the payout is the same under any two promos |
| RateLimit.RateLimiter.Check | app/core/ratelimit.py:23-34 | one script call: the counter always ends with an expiry, a denial always carries a positive delay, other identities are untouched, and without a backend the request passes uncounted |
| RateLimit.BelowTwiceTheCeiling | app/core/ratelimit.py:83-101 | from any counter state, stranded ones included, fewer than 2*max requests pass in any closed interval of one window length |
| RateLimit.BoundIsReached | app/core/ratelimit.py:23-34 | for every ceiling some trace lets exactly 2*max - 1 requests through in two milliseconds |
| RateLimit.WindowIsExact | app/core/ratelimit.py:23-34 | a window opens with an identity's first request and lasts exactly its length; of the requests in it exactly the first max pass, and all are counted |
| RateLimit.WindowEnds | app/core/ratelimit.py:23-34 | after it the identity starts afresh |
| RateLimit.RetrySuffices | app/core/ratelimit.py:28-32 | half a second more than the advertised delay always suffices |
| RateLimit.RetryDelaySuffices | app/core/ratelimit.py:28-32 | after a denial, waiting exactly the advertised delay is enough if and only if less than half a second of the window is left or the milliseconds left beyond whole seconds are at least 500 |
| RateLimit.RetryAloneMayFail | app/core/ratelimit.py:28-32 | with 1400 ms left a client is told one second, and denied again after it |
| Locks.RedisLock.Acquire | app/core/locks.py:46-49 | succeeds exactly when no unexpired lease holds the key |
| Locks.RedisLock.Release | app/core/locks.py:18-24 | deletes the key exactly when it still carries the caller's token |
| Locks.MutualExclusion | app/core/locks.py:28-54 | under any interleaving of entries, lapses and exits at most one client inside has an unexpired lease |
| Locks.LeavingSparesOthers | app/core/locks.py:18-24 | leaving never removes the lock of another client with an unexpired lease |
| Locks.PlainDeleteBreaksExclusion | app/core/locks.py:1-7 | a concrete interleaving in which a plain delete would let two clients with unexpired leases in, and the token comparison does not |
| Locks.NoDeadlock | app/core/locks.py:28-54 | once every lease inside has lapsed the next entry succeeds |
| RefreshTokens.AuthService.Refresh | app/services/auth_service.py:194-225 | hands out the next token exactly for a row on file that is unused, unrevoked and unexpired, of an active account; rotates it then, revokes the family on reuse, and changes nothing on every other rejection |
| RefreshTokens.AuthService.PurgeExpired | app/repositories/auth_repository.py:138-148 | deletes exactly the rows that expired before the cutoff, and counts them |
| RefreshTokens.AuthService.Serve | app/services/auth_service.py:194-249 | handling any sign-ins, refreshes, bans and purges in place ends in the state of the run the theorems speak about |
| RefreshTokens.RunKeepsInv | app/services/auth_service.py:194-249 | in every reachable state a family has at most one unused, unrevoked token |
| RefreshTokens.AcceptedExactly | app/services/auth_service.py:194-249 | after any events a refresh is accepted exactly when the account is active and the token was issued by a sign-in or an accepted refresh less than its lifetime ago and has since been neither exchanged nor revoked, by ban or reuse, nor purged |
| RefreshTokens.ExpiredIsRefused | app/services/auth_service.py:213-214 | no refresh at or after issue time plus lifetime is ever accepted |
| RefreshTokens.ReuseEndsFamily | app/services/auth_service.py:206-212 | once a used or revoked token on file has been presented, no later refresh in its family succeeds, across purges |
| RefreshTokens.BanEndsSessions | app/repositories/auth_repository.py:129-136 | after a ban a refresh by that user needs a sign-in later than the ban |
| RefreshTokens.ReplayOutcome | app/repositories/auth_repository.py:138-148 | a used or revoked token presented again ends its family for good if no purge in between came later than its expiry plus the retention, and changes nothing if one did |
| RefreshTokens.TimelyReplayEndsFamily | app/workers/expiry.py:159-189 | on a forward clock a replay no later than expiry plus retention always ends the family for good |
| RefreshTokens.PurgedReuseGoesUnnoticed | app/workers/expiry.py:159-189 | for every token lifetime of at least two and every retention, on a forward clock: a session that keeps rotating outlives the row of its first token; once that is purged its replay goes unnoticed and the latest token is accepted, whereas without the purge the replay ends the family |
| RefreshTokens.ThirtyDays | app/core/config.py:118 | with the default thirty days of each: sign in on day 0, rotate on 29 and 58, purge and replay the first token on 61, and the third token is accepted |
| Base64.DecodeEncode | app/core/crypto.py:60-72 | base64 decoding inverts encoding for every byte string |
| Base64.TestVectors | app/core/crypto.py:60-72 | the test vectors of RFC 4648 |
| Crypto.DecryptEncrypt | app/core/crypto.py:60-98 | what a cipher wrote, any cipher with that key version reads back under the same associated data, and the blob names its version |
| Crypto.AadBindsCell | app/core/crypto.py:113-115 | two cells share associated data only if table, column and id are the same |
| Crypto.MovedBlobIsRejected | app/core/crypto.py:74-98 | if the AEAD binds its associated data, a ciphertext moved to another table, column or id does not decrypt there |
| KeyRotation.KeyRotationService.Reencrypt | app/services/key_rotation_service.py:56-61 | succeeds exactly for values that can be handled; the result reads the same under the same associated data, is under the active version, and is the same value if it already was |
| KeyRotation.KeyRotationService.RotateCourierProfiles | app/services/key_rotation_service.py:78-100 | renews both columns of every profile and counts the stale ones |
| KeyRotation.KeyRotationService.RotateConversationPreviews | app/services/key_rotation_service.py:102-113 | renews every preview and counts the stale ones |
| KeyRotation.KeyRotationService.RotateWithdrawals | app/services/key_rotation_service.py:115-118 | renews every IBAN and counts the stale ones |
| KeyRotation.KeyRotationService.Rotate | app/services/key_rotation_service.py:63-76 | succeeds exactly when every stored value can be handled, then renews all of them and reports exactly how many were stale |
| KeyRotation.WrittenIsRotatable | app/services/key_rotation_service.py:56-61 | every value written under a key version still in the map can be handled |
| KeyRotation.CellsAre | app/services/key_rotation_service.py:78-118 | the four columns are bound to their own table, column and row |
| KeyRotation.SecondRotationIsIdle | app/services/key_rotation_service.py:63-76 | a second rotation is possible, finds nothing stale and changes nothing |
| Paging.SelectIsExact | app/repositories/wallet_repository.py:113-140 | a query returns exactly the wallet's rows older than the anchor, strictly newest first |
| Paging.ArrivalsStayAhead | app/repositories/wallet_repository.py:126-139 | rows that arrive with larger keys do not change what lies beyond a cursor |
| Paging.UnknownCursor | app/repositories/wallet_repository.py:126-139 | a cursor that names no row gives the first page |
| Paging.FollowCursor | app/routers/wallets.py:131-145 | following next_cursor visits every row of the wallet exactly once, newest first, and ends after the expected number of pages, also while newer rows arrive |

## Left out

- HTTP routes, schemas, middleware, chat, media, ratings, notifications, receipts and audit rows: no money moves there. Of the admin dashboard, creating users, promos and delivery dates, resolving disputes and handling withdrawals are modelled.
- Roles, verification and account status: any account may be customer or courier, so every run of the code is a run of the model.
- The payment gateway, webhook signatures, JSON parsing and the checkout page: a webhook is an already verified event, a payment link always gets its URL, and the link is the intent's id.
- Responses: a call's result is its new state or its error, not the record it returns to the client.
- Isolation levels, row locks and the identity map: service calls are atomic and serial.
- UUIDs: ids are positions or counters, correlation ids the length of the ledger; two random ids never collide.
- `wallet.version`, timestamps, descriptions and the transient DRAFT status of an invoice: nothing reads them back.
- Invoice line rows in the database and the receipt arithmetic on them; the engine's own line arithmetic is modelled.
- Admin deletion of a NEW order, user deletion and profile edits: rows are never deleted in the model. Of the details an administrator may edit on an order, only the delivery date is modelled.
- Column widths: NUMERIC(12,2) never overflows in the model. The calendar day is the UTC day, whatever the session's time zone.
- Customer and courier concurrency limits: counts that are read without a lock and that admin order creation bypasses.
- Decimal's 28-digit context: arithmetic is exact, since permitted amounts stay far below that precision.
- Distance and media checks on delivery: a verdict passed in. Clocks, randomness and account standing are inputs too.
- The sweep's selection of lapsed rows: any list of ids may be swept, in any order, with repetitions.
- AES-GCM, SHA-256 and UTF-8: the AEAD is any correct pair of functions, a token stands for its hash, a plaintext is its bytes.
- The guarded WebSocket limiter, OTP throttling, access tokens and the logout denylist: easy members of the same kinds.
- KeyRotation.KeyRotationService.Rotate: a failed rotation leaves the rows as they are at the failure; discarding them is the session's rollback.
- Locks.MutualExclusion: speaks of one lock key; different keys do not interact.
