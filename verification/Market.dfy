/** The service calls of the money system, each one atomic transaction: a function from the committed
    state to the state it commits, or to the error that rolls it back. */
module Market {
  import opened Results
  import opened Sums
  import opened Money
  import opened Tables
  import opened OrderState
  import opened Ledger
  import opened MoneyOps
  import Pricing

  // ------------------------------------------------------------------ queries

  predicate IsParticipant(order: Order, actor: nat) {
    order.customer == actor || order.courier == Some(actor)
  }

  /** `get_for_actor`: the order, if the actor takes part in it. */
  function OrderForActor(db: Db, order: nat, actor: nat): Result<Order> {
    if order < |db.orders| && IsParticipant(db.orders[order], actor) then Ok(db.orders[order]) else Err(NotFound)
  }

  predicate IsActive(s: InvoiceStatus) {
    s.Issued? || s.InvoicePaid?
  }

  /** `get_active_for_order`. */
  function ActiveInvoice(invoices: seq<Invoice>, order: nat): (r: Option<nat>)
    ensures r.Some? ==> r.value < |invoices| && invoices[r.value].order == order && IsActive(invoices[r.value].status)
    ensures r.None? ==> forall i :: 0 <= i < |invoices| && invoices[i].order == order ==> !IsActive(invoices[i].status)
  {
    if |invoices| == 0 then None
    else
      var last := |invoices| - 1;
      if invoices[last].order == order && IsActive(invoices[last].status) then Some(last)
      else ActiveInvoice(invoices[..last], order)
  }

  /** uq_invoices_one_active_per_order. */
  predicate OneActivePerOrder(invoices: seq<Invoice>) {
    forall i, j :: 0 <= i < j < |invoices| && invoices[i].order == invoices[j].order
      ==> !IsActive(invoices[i].status) || !IsActive(invoices[j].status)
  }

  predicate IsOpenFor(intent: Intent, invoice: nat) {
    intent.status.IntentNew? && intent.purpose == OrderInvoice(invoice)
  }

  /** `get_open_intent_for_invoice`. */
  function OpenIntent(intents: seq<Intent>, invoice: nat): (r: Option<nat>)
    ensures r.Some? ==> r.value < |intents| && IsOpenFor(intents[r.value], invoice)
    ensures r.None? ==> forall j :: 0 <= j < |intents| ==> !IsOpenFor(intents[j], invoice)
  {
    if |intents| == 0 then None
    else if IsOpenFor(intents[|intents| - 1], invoice) then Some(|intents| - 1)
    else OpenIntent(intents[..|intents| - 1], invoice)
  }

  /** Redemptions of a promo that still occupy a slot, by a given user or by anyone. */
  function UseTerms(redemptions: seq<Option<Redemption>>, promo: nat, user: Option<nat>): (r: seq<int>)
    ensures |r| == |redemptions|
  {
    seq(|redemptions|, i requires 0 <= i < |redemptions| => if Occupies(redemptions[i], promo, user) then 1 else 0)
  }

  predicate Occupies(r: Option<Redemption>, promo: nat, user: Option<nat>) {
    r.Some? && r.value.promo == promo && !r.value.status.Released? && (user.None? || user.value == r.value.user)
  }

  function Uses(redemptions: seq<Option<Redemption>>, promo: nat, user: Option<nat>): int {
    Sum(UseTerms(redemptions, promo, user))
  }

  /** `get_by_idempotency`. */
  predicate HasWithdrawal(withdrawals: seq<Withdrawal>, courier: nat, key: string) {
    exists k :: 0 <= k < |withdrawals| && withdrawals[k].courier == courier && withdrawals[k].idempotencyKey == key
  }

  /** The calendar day of a time in seconds. */
  function Day(now: int): int {
    now / 86400
  }

  /** chk_delivery_date_window. */
  predicate InWindow(date: int, now: int) {
    Day(now) <= date <= Day(now) + 180
  }

  /** The CHECK constraints of the orders table, which PostgreSQL evaluates whenever a row is written:
      chk_delivery_date_window, chk_amounts_non_negative and chk_courier_required_after_assignment. */
  predicate RowAllowed(o: Order, now: int) {
    && InWindow(o.deliveryDate, now)
    && o.total >= 0 && o.commission >= 0 && o.payout >= 0
    && (o.status.New? || o.status.Cancelled? || o.courier.Some?)
  }

  /** Write an order row. */
  function WriteOrder(db: Db, order: nat, row: Order, now: int): Result<Db>
    requires order < |db.orders|
  {
    if RowAllowed(row, now) then Ok(db.(orders := db.orders[order := row])) else Err(CheckViolation)
  }

  function SetIntent(db: Db, intent: nat, status: IntentStatus): Db
    requires intent < |db.intents|
  {
    db.(intents := db.intents[intent := db.intents[intent].(status := status)])
  }

  // ------------------------------------------------------------------ users and orders

  /** Registration creates the user's wallet in the same unit of work. */
  function Register(db: Db): Result<Db> {
    Ok(db.(wallets := db.wallets + [Wallet(0, 0)]))
  }

  /** The dashboard creates a customer or courier without a wallet, and no later path adds one. */
  function CreateUser(db: Db): Result<Db> {
    Ok(db.(wallets := db.wallets + [Wallet(0, 0)], emptySlots := db.emptySlots + {|db.wallets|}))
  }

  /** The account exists, with or without a wallet. */
  predicate HasUser(db: Db, user: nat) {
    UserWallet(user) < |db.wallets|
  }

  /** `get_by_user` finds a wallet. */
  predicate HasWallet(db: Db, user: nat) {
    HasUser(db, user) && UserWallet(user) !in db.emptySlots
  }

  /** An order by an account that exists (the foreign key), with or without a wallet. */
  function CreateOrder(db: Db, customer: nat, deliveryDate: int, now: int): Result<Db> {
    if !HasUser(db, customer) then Err(NotFound)
    else if !InWindow(deliveryDate, now) then Err(CheckViolation)
    else Ok(db.(orders := db.orders + [Order(customer, None, New, 0, 0, 0, deliveryDate)]))
  }

  /** An administrator moves the delivery date of an order that has not been invoiced yet. */
  function RescheduleOrder(db: Db, order: nat, deliveryDate: int, now: int): Result<Db> {
    var _ :- Require(order < |db.orders|, NotFound);
    var o := db.orders[order];
    var _ :- Require(o.status.New? || o.status.Assigned?, Conflict);
    var _ :- Require(InWindow(deliveryDate, now), Validation);
    WriteOrder(db, order, o.(deliveryDate := deliveryDate), now)
  }

  /** `_assign_locked`: only a NEW order can be taken, by a courier account, which need not have a wallet. */
  function AcceptOrder(db: Db, order: nat, courier: nat, now: int): Result<Db> {
    if !HasUser(db, courier) then Err(Forbidden)
    else if order >= |db.orders| then Err(NotFound)
    else if !db.orders[order].status.New? then Err(AlreadyAssigned)
    else WriteOrder(db, order, db.orders[order].(courier := Some(courier), status := Assigned), now)
  }

  function CancelOrder(db: Db, order: nat, actor: nat, now: int): Result<Db> {
    var o :- OrderForActor(db, order, actor);
    var _ :- AssertTransition(o.status, Cancelled);
    WriteOrder(db, order, o.(status := Cancelled), now)
  }

  // ------------------------------------------------------------------ promos

  /** chk_promo_value_by_type and chk_promo_window. */
  predicate PromoValueValid(p: Promo) {
    && (if p.pricing.kind.Percent?
        then p.pricing.fixedAmount.None? && p.pricing.percentValue.Some? && 0.0 < p.pricing.percentValue.value <= 100.0
        else p.pricing.percentValue.None? && p.pricing.fixedAmount.Some? && 0 < p.pricing.fixedAmount.value)
    && (p.startsAt.Some? && p.endsAt.Some? ==> p.endsAt.value > p.startsAt.value)
  }

  function CreatePromo(db: Db, promo: Promo): Result<Db> {
    if promo.used != 0 || promo.maxPerUser < 1 || !PromoValueValid(promo) then Err(CheckViolation)
    else Ok(db.(promos := db.promos + [promo]))
  }

  function SetPromoActive(db: Db, promo: nat, active: bool): Result<Db> {
    if promo >= |db.promos| then Err(NotFound)
    else Ok(db.(promos := db.promos[promo := db.promos[promo].(active := active)]))
  }

  function ValidatePromo(db: Db, promo: nat, base: int, user: nat, now: int): Result<()> {
    if promo >= |db.promos| then Err(NotFound)
    else
      var p := db.promos[promo];
      var _ :- Require(p.active, PromoInactive);
      var _ :- Require(p.startsAt.None? || p.startsAt.value <= now, PromoNotStarted);
      var _ :- Require(p.endsAt.None? || now < p.endsAt.value, PromoExpired);
      var _ :- Require(base >= p.minOrder, PromoMinOrder);
      var _ :- Require(p.maxTotal.None? || p.used < p.maxTotal.value, PromoUsageExceeded);
      Require(Uses(db.redemptions, promo, Some(user)) < p.maxPerUser, PromoUserLimit)
  }

  /** `atomic_reserve` and the per-user count: one more slot taken, or nothing. */
  function ReservePromo(db: Db, promo: nat, user: nat, now: int): Result<Db> {
    if promo >= |db.promos| then Err(PromoUsageExceeded)
    else
      var p := db.promos[promo];
      var _ :- Require(&& p.active
                       && (p.startsAt.None? || p.startsAt.value <= now)
                       && (p.endsAt.None? || p.endsAt.value > now)
                       && (p.maxTotal.None? || p.used < p.maxTotal.value), PromoUsageExceeded);
      var _ :- Require(Uses(db.redemptions, promo, Some(user)) < p.maxPerUser, PromoUserLimit);
      Ok(db.(promos := db.promos[promo := p.(used := p.used + 1)]))
  }

  predicate IsReserved(redemptions: seq<Option<Redemption>>, invoice: nat) {
    invoice < |redemptions| && redemptions[invoice].Some? && redemptions[invoice].value.status.Reserved?
  }

  function ConsumePromo(db: Db, invoice: nat): Db {
    if !IsReserved(db.redemptions, invoice) then db
    else db.(redemptions := db.redemptions[invoice := Some(db.redemptions[invoice].value.(status := Consumed))])
  }

  function ReleasePromo(db: Db, invoice: nat): Db {
    if !IsReserved(db.redemptions, invoice) then db
    else
      var r := db.redemptions[invoice].value;
      var redemptions := db.redemptions[invoice := Some(r.(status := Released))];
      if r.promo < |db.promos| && db.promos[r.promo].used > 0 then
        var p := db.promos[r.promo];
        db.(redemptions := redemptions, promos := db.promos[r.promo := p.(used := p.used - 1)])
      else db.(redemptions := redemptions)
  }

  // ------------------------------------------------------------------ invoices

  /** A line as the courier enters it: a unit price in halalas, already parsed to the grid. */
  datatype LineInput = LineInput(unitPrice: int, quantity: int, taxRate: real)

  predicate LinesValid(cfg: Settings, lines: seq<LineInput>) {
    && 1 <= |lines| <= cfg.maxInvoiceItems
    && forall i :: 0 <= i < |lines| ==>
         && 0 < lines[i].unitPrice <= cfg.maxUnitPrice
         && 1 <= lines[i].quantity <= 999
         && 0.0 <= lines[i].taxRate <= 1.0
  }

  function PricingItems(lines: seq<LineInput>): seq<Pricing.Item> {
    seq(|lines|, i requires 0 <= i < |lines| =>
      Pricing.Item(lines[i].unitPrice as real, lines[i].quantity, lines[i].taxRate, i + 1))
  }

  function DiscountableBase(lines: seq<LineInput>, fee: int): int {
    Sum(Pricing.LineNets(PricingItems(lines))) + fee
  }

  /** chk_invoice_amounts_non_negative. */
  predicate AmountsNonNegative(p: Pricing.Priced) {
    p.itemsNet >= 0 && p.courierFee >= 0 && p.serviceFee >= 0 && p.discount >= 0 && p.tax >= 0 && p.total >= 0
  }

  function NewInvoice(order: nat, issuer: nat, p: Pricing.Priced, promo: Option<nat>, expiresAt: int): Invoice {
    Invoice(order, issuer, Issued, p.itemsNet, p.courierFee, p.serviceFee, p.discount, p.tax, p.total,
            promo, 0, 0, None, expiresAt)
  }

  function CreateInvoice(cfg: Settings, db: Db, order: nat, actor: nat, lines: seq<LineInput>, fee: nat,
                         promo: Option<nat>, now: int): Result<Db>
  {
    var o :- OrderForActor(db, order, actor);
    var _ :- AssertTransition(o.status, WaitingPayment);
    var _ :- Require(ActiveInvoice(db.invoices, order).None?, Conflict);
    var _ :- Require(LinesValid(cfg, lines), Validation);
    var _ :- if promo.Some? then ValidatePromo(db, promo.value, DiscountableBase(lines, fee), o.customer, now)
        else Ok(());
    var pricingPromo := if promo.Some? && promo.value < |db.promos| then Some(db.promos[promo.value].pricing) else None;
    var p :- Pricing.InvoiceTotals(PricingItems(lines), fee as real, pricingPromo, cfg.pricing);
    var _ :- Require(promo.None? || p.discount > 0, Validation);
    var _ :- Require(AmountsNonNegative(p), CheckViolation);
    var reserved :- if promo.Some? then ReservePromo(db, promo.value, o.customer, now) else Ok(db);
    var redemption := if promo.Some? then Some(Redemption(promo.value, o.customer, Reserved)) else None;
    var row := o.(status := WaitingPayment, total := p.total);
    var _ :- Require(RowAllowed(row, now), CheckViolation);
    Ok(reserved.(
      invoices := db.invoices + [NewInvoice(order, actor, p, promo, now + cfg.expirySeconds)],
      redemptions := db.redemptions + [redemption],
      orders := db.orders[order := row]))
  }

  function CancelInvoice(db: Db, invoice: nat, courier: nat, now: int): Result<Db> {
    var _ :- Require(invoice < |db.invoices| && db.invoices[invoice].issuer == courier, NotFound);
    var inv := db.invoices[invoice];
    var _ :- Require(inv.status.Issued?, InvalidTransition);
    var _ :- Require(inv.order < |db.orders|, NotFound);
    var o := db.orders[inv.order];
    var _ :- AssertTransition(o.status, Assigned);
    var row := o.(status := Assigned, total := 0);
    var _ :- Require(RowAllowed(row, now), CheckViolation);
    Ok(ReleasePromo(db, invoice).(
      invoices := db.invoices[invoice := inv.(status := InvoiceCancelled)],
      orders := db.orders[inv.order := row]))
  }

  /** The hold behind an invoice's open intent is released and the intent expired. */
  function CloseOpenIntent(db: Db, invoice: nat): Result<Db>
    requires invoice < |db.invoices|
  {
    var open := OpenIntent(db.intents, invoice);
    if open.None? then Ok(db)
    else
      var user, amount := db.intents[open.value].user, db.invoices[invoice].fromWallet;
      var released :- if amount > 0 && HasWallet(db, user) then ReleaseHold(db, UserWallet(user), amount) else Ok(db);
      Ok(released.(intents := db.intents[open.value := db.intents[open.value].(status := IntentExpired)]))
  }

  /** Fails when the order waits and its row can no longer be written. */
  function ExpireInvoice(db: Db, invoice: nat, now: int): Result<Db> {
    if invoice >= |db.invoices| || !db.invoices[invoice].status.Issued? then Ok(db)
    else
      var inv := db.invoices[invoice];
      var closed :- CloseOpenIntent(db, invoice);
      var expired := ReleasePromo(closed, invoice).(invoices := db.invoices[invoice := inv.(status := InvoiceExpired)]);
      if inv.order < |db.orders| && db.orders[inv.order].status.WaitingPayment? then
        var row := db.orders[inv.order].(status := Assigned, total := 0);
        if RowAllowed(row, now) then Ok(expired.(orders := db.orders[inv.order := row])) else Err(CheckViolation)
      else Ok(expired)
  }

  // ------------------------------------------------------------------ payments

  /** `_settle_invoice_record`, with the partial unique index checked at its flush. */
  function SettleRecord(db: Db, invoice: nat, paymentMethod: PaymentMethod, fromWallet: int, fromGateway: int,
      now: int): Result<Db>
    requires invoice < |db.invoices|
  {
    var inv := db.invoices[invoice];
    var _ :- Require(inv.order < |db.orders|, NotFound);
    var invoices := db.invoices[invoice := inv.(status := InvoicePaid, paymentMethod := Some(paymentMethod),
                                                fromWallet := fromWallet, fromGateway := fromGateway)];
    var o := db.orders[inv.order];
    var _ :- AssertTransition(o.status, InProgress);
    var row := o.(status := InProgress);
    var _ :- Require(RowAllowed(row, now), CheckViolation);
    var _ :- Require(OneActivePerOrder(invoices), UniqueViolation);
    Ok(ConsumePromo(db, invoice).(invoices := invoices, orders := db.orders[inv.order := row]))
  }

  function PayInvoice(db: Db, invoice: nat, actor: nat, now: int): Result<Db> {
    var _ :- Require(invoice < |db.invoices|, NotFound);
    var inv := db.invoices[invoice];
    var o :- OrderForActor(db, inv.order, actor);
    var _ :- Require(inv.status.Issued?, Conflict);
    var _ :- Require(now <= inv.expiresAt, Conflict);
    var _ :- Require(o.status.WaitingPayment?, InvalidTransition);
    var wallet := UserWallet(actor);
    var _ :- Require(HasWallet(db, actor), NotFound);
    var fromWallet := Pricing.Min(Available(db, wallet), inv.total);
    var fromGateway := inv.total - fromWallet;
    if fromGateway <= 0 then
      var funded :- FundEscrow(db, wallet, inv.total, 0, invoice, inv.order, None, false);
      SettleRecord(funded, invoice, WalletOnly, inv.total, 0, now)
    else if OpenIntent(db.intents, invoice).Some? then Ok(db)
    else
      var held :- if fromWallet > 0 then HoldFunds(db, wallet, fromWallet) else Ok(db);
      var via := if fromWallet > 0 then Split else GatewayOnly;
      Ok(held.(
        invoices := db.invoices[invoice :=
          inv.(fromWallet := fromWallet, fromGateway := fromGateway, paymentMethod := Some(via))],
        intents := db.intents + [Intent(actor, OrderInvoice(invoice), fromGateway, IntentNew)]))
  }

  function CreateTopup(cfg: Settings, db: Db, user: nat, amount: real): Result<Db> {
    var a := Quantize(amount);
    var _ :- Require(cfg.minTopup <= a <= cfg.maxTopup, Validation);
    var _ :- Require(HasWallet(db, user), NotFound);
    var _ :- Require(10000 <= a <= 2000000, CheckViolation);
    Ok(db.(intents := db.intents + [Intent(user, WalletTopup, a, IntentNew)]))
  }

  function SettleTopup(db: Db, intent: nat): Result<Db>
    requires intent < |db.intents|
  {
    var it := db.intents[intent];
    var _ :- Require(HasWallet(db, it.user), NotFound);
    var (posted, _) :- Post(db, TopupLegs(UserWallet(it.user), it.amount, intent));
    Ok(posted)
  }

  function SettleInvoice(db: Db, intent: nat, invoice: nat, now: int): Result<Db>
    requires intent < |db.intents|
  {
    var it := db.intents[intent];
    var _ :- Require(invoice < |db.invoices|, NotFound);
    var inv := db.invoices[invoice];
    if inv.status.InvoicePaid? then Ok(db)
    else
      var _ :- Require(inv.order < |db.orders| && HasWallet(db, it.user), NotFound);
      var funded :- FundEscrow(db, UserWallet(it.user), inv.fromWallet, it.amount, invoice, inv.order,
                               Some(intent), inv.fromWallet > 0);
      var via := if inv.paymentMethod.Some? then inv.paymentMethod.value else GatewayOnly;
      SettleRecord(funded, invoice, via, inv.fromWallet, it.amount, now)
  }

  /** A verified gateway event: the link's intent, whether it reports PAID, and the amount it reports. */
  function Webhook(db: Db, intent: nat, paid: bool, amount: Option<int>, now: int): Result<Db> {
    var _ :- Require(intent < |db.intents|, NotFound);
    var it := db.intents[intent];
    if !it.status.IntentNew? then Ok(db)
    else if !paid then Ok(SetIntent(db, intent, IntentFailed))
    else if amount != Some(it.amount) then Err(AmountMismatch)
    else
      var settled :- match it.purpose
                     case WalletTopup => SettleTopup(db, intent)
                     case OrderInvoice(invoice) => SettleInvoice(db, intent, invoice, now);
      Ok(settled.(intents := db.intents[intent := it.(status := IntentPaid)]))
  }

  /** The sweep relabels a top-up intent whatever its status has become since it was listed. */
  function ExpireTopup(db: Db, intent: nat): Result<Db> {
    if intent >= |db.intents| || !db.intents[intent].purpose.WalletTopup? then Ok(db)
    else Ok(SetIntent(db, intent, IntentExpired))
  }

  // ------------------------------------------------------------------ fulfilment

  function Deliver(db: Db, order: nat, actor: nat, photos: nat, inRadius: bool, now: int): Result<Db> {
    var o :- OrderForActor(db, order, actor);
    var _ :- AssertTransition(o.status, Delivered);
    var _ :- Require(1 <= photos <= 5 && inRadius, Validation);
    WriteOrder(db, order, o.(status := Delivered), now)
  }

  /** The order's paid invoice, or the conflict that stops a settlement. */
  function PaidInvoice(db: Db, order: nat): (r: Result<nat>)
    ensures r.Ok? ==>
              && r.value < |db.invoices| && db.invoices[r.value].order == order
              && db.invoices[r.value].status.InvoicePaid?
  {
    var active := ActiveInvoice(db.invoices, order);
    if active.Some? && db.invoices[active.value].status.InvoicePaid? then Ok(active.value) else Err(Conflict)
  }

  function SettlementOf(cfg: Settings, inv: Invoice): Pricing.Settlement {
    Pricing.ComputeSettlement(inv.itemsNet, inv.courierFee, inv.tax, inv.total, cfg.commissionRate)
  }

  /** Pay out the order's escrow to the courier, the tax authority and the platform. */
  function ReleaseEscrow(cfg: Settings, db: Db, order: nat, invoice: nat, courier: nat): Result<Db>
    requires invoice < |db.invoices|
  {
    var s := SettlementOf(cfg, db.invoices[invoice]);
    var (posted, _) :- Post(db, ReleaseLegs(order, invoice, UserWallet(courier), s.payout, s.tax, s.revenue));
    Ok(posted)
  }

  function CompleteAndRelease(cfg: Settings, db: Db, order: nat, now: int): Result<Db>
    requires order < |db.orders|
  {
    var o := db.orders[order];
    var _ :- AssertTransition(o.status, Completed);
    var invoice :- PaidInvoice(db, order);
    var _ :- Require(o.courier.Some?, Conflict);
    var _ :- Require(HasWallet(db, o.courier.value), NotFound);
    var posted :- ReleaseEscrow(cfg, db, order, invoice, o.courier.value);
    var s := SettlementOf(cfg, db.invoices[invoice]);
    var row := o.(status := Completed, commission := s.commission, payout := s.payout);
    var _ :- Require(RowAllowed(row, now), CheckViolation);
    Ok(posted.(orders := db.orders[order := row]))
  }

  function ApproveOrder(cfg: Settings, db: Db, order: nat, actor: nat, now: int): Result<Db> {
    var _ :- OrderForActor(db, order, actor);
    CompleteAndRelease(cfg, db, order, now)
  }

  function AutoApprove(cfg: Settings, db: Db, order: nat, now: int): Result<Db> {
    if order >= |db.orders| || !db.orders[order].status.Delivered? then Ok(db)
    else CompleteAndRelease(cfg, db, order, now)
  }

  function RaiseDispute(db: Db, order: nat, actor: nat, now: int): Result<Db> {
    var o :- OrderForActor(db, order, actor);
    var _ :- Require(order !in db.disputes, Conflict);
    var _ :- AssertTransition(o.status, Disputed);
    var disputed :- WriteOrder(db, order, o.(status := Disputed), now);
    Ok(disputed.(disputes := db.disputes[order := Open]))
  }

  function ResolveDispute(cfg: Settings, db: Db, order: nat, outcome: DisputeStatus, courierAmount: Option<real>,
      now: int): Result<Db>
  {
    var _ :- Require(order in db.disputes, NotFound);
    var _ :- Require(db.disputes[order].Open?, Conflict);
    var _ :- Require(order < |db.orders|, NotFound);
    var o := db.orders[order];
    var invoice :- PaidInvoice(db, order);
    var _ :- Require(o.courier.Some?, Conflict);
    var _ :- Require(HasWallet(db, o.courier.value) && HasWallet(db, o.customer), NotFound);
    var (posted, settled) :- ApplyOutcome(cfg, db, order, invoice, o.courier.value, outcome, courierAmount);
    var _ :- AssertTransition(o.status, settled.status);
    var _ :- Require(RowAllowed(settled, now), CheckViolation);
    Ok(posted.(orders := db.orders[order := settled], disputes := db.disputes[order := outcome]))
  }

  /** `_apply_dispute_outcome`: the movement, and the order row it leaves. */
  function ApplyOutcome(cfg: Settings, db: Db, order: nat, invoice: nat, courier: nat, outcome: DisputeStatus,
                        courierAmount: Option<real>): Result<(Db, Order)>
    requires order < |db.orders| && invoice < |db.invoices|
  {
    var o, total := db.orders[order], db.invoices[invoice].total;
    match outcome
    case Open => Err(Validation)
    case ResolvedCustomer =>
      var (posted, _) :- Post(db, RefundLegs(order, invoice, UserWallet(o.customer), total));
      Ok((posted, o.(status := Refunded)))
    case ResolvedCourier =>
      var posted :- ReleaseEscrow(cfg, db, order, invoice, courier);
      var s := SettlementOf(cfg, db.invoices[invoice]);
      Ok((posted, o.(status := Completed, commission := s.commission, payout := s.payout)))
    case ResolvedSplit =>
      if courierAmount.None? then Err(Validation)
      else
        var share := Quantize(courierAmount.value);
        var _ :- Require(0 <= share <= total, Validation);
        var (posted, _) :- Post(db, SplitLegs(order, invoice, UserWallet(courier), UserWallet(o.customer), share,
            total - share));
        Ok((posted, o.(status := Completed, payout := share)))
  }

  // ------------------------------------------------------------------ withdrawals

  function RequestWithdrawal(cfg: Settings, db: Db, courier: nat, amount: real, key: string): Result<Db> {
    if HasWithdrawal(db.withdrawals, courier, key) then Ok(db)
    else
      var a := Quantize(amount);
      var _ :- Require(cfg.minWithdrawal <= a <= cfg.maxWithdrawal, Validation);
      var _ :- Require(HasWallet(db, courier), NotFound);
      var held :- HoldFunds(db, UserWallet(courier), a);
      Ok(held.(withdrawals := db.withdrawals + [Withdrawal(courier, a, Requested, key)]))
  }

  function SetWithdrawal(db: Db, withdrawal: nat, status: WithdrawalStatus): Db
    requires withdrawal < |db.withdrawals|
  {
    db.(withdrawals := db.withdrawals[withdrawal := db.withdrawals[withdrawal].(status := status)])
  }

  function ApproveWithdrawal(db: Db, withdrawal: nat): Result<Db> {
    if withdrawal >= |db.withdrawals| then Err(NotFound)
    else match db.withdrawals[withdrawal].status
      case Approved => Ok(db)
      case Requested => Ok(SetWithdrawal(db, withdrawal, Approved))
      case _ => Err(InvalidTransition)
  }

  function RejectWithdrawal(db: Db, withdrawal: nat): Result<Db> {
    if withdrawal >= |db.withdrawals| then Err(NotFound)
    else
      var row := db.withdrawals[withdrawal];
      match row.status
      case Rejected => Ok(db)
      case WithdrawalPaid => Err(InvalidTransition)
      case _ =>
        var released :- ReleaseHold(db, UserWallet(row.courier), row.amount);
        Ok(SetWithdrawal(released, withdrawal, Rejected))
  }

  function MarkWithdrawalPaid(db: Db, withdrawal: nat): Result<Db> {
    if withdrawal >= |db.withdrawals| then Err(NotFound)
    else
      var row := db.withdrawals[withdrawal];
      match row.status
      case WithdrawalPaid => Ok(db)
      case Approved =>
        var (paid, first) :- PayWithdrawal(db, UserWallet(row.courier), row.amount, withdrawal);
        if first then Ok(SetWithdrawal(paid, withdrawal, WithdrawalPaid)) else Err(InvalidTransition)
      case _ => Err(InvalidTransition)
  }

  // ------------------------------------------------------------------ runs

  datatype Call =
    | CallRegister
    | CallCreateUser
    | CallCreateOrder(customer: nat, deliveryDate: int)
    | CallRescheduleOrder(order: nat, deliveryDate: int)
    | CallAcceptOrder(order: nat, courier: nat)
    | CallCancelOrder(order: nat, actor: nat)
    | CallCreatePromo(newPromo: Promo)
    | CallSetPromoActive(promo: nat, active: bool)
    | CallCreateInvoice(order: nat, actor: nat, lines: seq<LineInput>, fee: nat, promoCode: Option<nat>)
    | CallCancelInvoice(invoice: nat, actor: nat)
    | CallExpireInvoice(invoice: nat)
    | CallPayInvoice(invoice: nat, actor: nat)
    | CallCreateTopup(user: nat, amount: real)
    | CallWebhook(intent: nat, paid: bool, reported: Option<int>)
    | CallExpireTopup(intent: nat)
    | CallDeliver(order: nat, actor: nat, photos: nat, inRadius: bool)
    | CallApproveOrder(order: nat, actor: nat)
    | CallAutoApprove(order: nat)
    | CallRaiseDispute(order: nat, actor: nat)
    | CallResolveDispute(order: nat, outcome: DisputeStatus, courierAmount: Option<real>)
    | CallRequestWithdrawal(courier: nat, amount: real, key: string)
    | CallApproveWithdrawal(withdrawal: nat)
    | CallRejectWithdrawal(withdrawal: nat)
    | CallMarkWithdrawalPaid(withdrawal: nat)

  /** A service call, when it is made, in seconds, and the settings it runs under. */
  datatype Request = Request(cfg: Settings, now: int, call: Call)

  function Step(db: Db, request: Request): Result<Db> {
    var cfg, now := request.cfg, request.now;
    match request.call
    case CallRegister => Register(db)
    case CallCreateUser => CreateUser(db)
    case CallCreateOrder(customer, deliveryDate) => CreateOrder(db, customer, deliveryDate, now)
    case CallRescheduleOrder(order, deliveryDate) => RescheduleOrder(db, order, deliveryDate, now)
    case CallAcceptOrder(order, courier) => AcceptOrder(db, order, courier, now)
    case CallCancelOrder(order, actor) => CancelOrder(db, order, actor, now)
    case CallCreatePromo(promo) => CreatePromo(db, promo)
    case CallSetPromoActive(promo, active) => SetPromoActive(db, promo, active)
    case CallCreateInvoice(order, actor, lines, fee, promo) =>
      CreateInvoice(cfg, db, order, actor, lines, fee, promo, now)
    case CallCancelInvoice(invoice, actor) => CancelInvoice(db, invoice, actor, now)
    case CallExpireInvoice(invoice) => ExpireInvoice(db, invoice, now)
    case CallPayInvoice(invoice, actor) => PayInvoice(db, invoice, actor, now)
    case CallCreateTopup(user, amount) => CreateTopup(cfg, db, user, amount)
    case CallWebhook(intent, paid, reported) => Webhook(db, intent, paid, reported, now)
    case CallExpireTopup(intent) => ExpireTopup(db, intent)
    case CallDeliver(order, actor, photos, inRadius) => Deliver(db, order, actor, photos, inRadius, now)
    case CallApproveOrder(order, actor) => ApproveOrder(cfg, db, order, actor, now)
    case CallAutoApprove(order) => AutoApprove(cfg, db, order, now)
    case CallRaiseDispute(order, actor) => RaiseDispute(db, order, actor, now)
    case CallResolveDispute(order, outcome, courierAmount) =>
      ResolveDispute(cfg, db, order, outcome, courierAmount, now)
    case CallRequestWithdrawal(courier, amount, key) => RequestWithdrawal(cfg, db, courier, amount, key)
    case CallApproveWithdrawal(withdrawal) => ApproveWithdrawal(db, withdrawal)
    case CallRejectWithdrawal(withdrawal) => RejectWithdrawal(db, withdrawal)
    case CallMarkWithdrawalPaid(withdrawal) => MarkWithdrawalPaid(db, withdrawal)
  }

  /** A call commits what it returns, or is rolled back. */
  function Commit(db: Db, request: Request): Db {
    var r := Step(db, request);
    if r.Ok? then r.value else db
  }

  function Run(db: Db, requests: seq<Request>): Db {
    if |requests| == 0 then db
    else Commit(Run(db, requests[..|requests| - 1]), requests[|requests| - 1])
  }

  /** Every request runs under settings the validator accepts; they may differ from one request to the next. */
  predicate AllValid(requests: seq<Request>) {
    forall i :: 0 <= i < |requests| ==> requests[i].cfg.Valid()
  }
}
