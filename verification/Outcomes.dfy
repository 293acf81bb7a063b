/** When each money call commits, and what it then moves: exact conditions on the committed state. */
module Outcomes {
  import opened Results
  import opened Sums
  import opened Money
  import opened Tables
  import opened OrderState
  import opened Ledger
  import opened MoneyOps
  import opened Market
  import opened Laws
  import opened FlowProofs
  import opened HoldProofs
  import opened StepProofs
  import opened Movements
  import opened MoneyProofs
  import opened SettlementProofs
  import Evolution
  import Pricing
  import PricingTheorems

  /** How far each wallet's balance has moved. */
  ghost predicate Moves(db: Db, db': Db, m: Movement) {
    && |db'.wallets| == |db.wallets|
    && forall w :: 0 <= w < |db.wallets| ==> db'.wallets[w].balance == db.wallets[w].balance + Delta(m, w)
  }

  // ------------------------------------------------------------------ webhooks

  ghost predicate Waiting(db: Db, i: nat) {
    && i < |db.invoices| && db.invoices[i].order < |db.orders|
    && db.invoices[i].status.Issued? && db.orders[db.invoices[i].order].status.WaitingPayment?
  }

  /** It waits, and its order can still be written. */
  ghost predicate Settleable(db: Db, i: nat, now: int) {
    Waiting(db, i) && InWindow(db.orders[db.invoices[i].order].deliveryDate, now)
  }

  /** The records a settlement leaves: the order IN_PROGRESS, the invoice PAID at its price in the two portions and by
      the given method, all others as they were. */
  ghost predicate Settles(db: Db, db': Db, i: nat, fromWallet: int, fromGateway: int, via: PaymentMethod) {
    && i < |db.invoices| && db.invoices[i].order < |db.orders|
    && var inv, o := db.invoices[i], db.invoices[i].order;
       && db'.orders == db.orders[o := db.orders[o].(status := InProgress)]
       && db'.disputes == db.disputes && db'.withdrawals == db.withdrawals && db'.emptySlots == db.emptySlots
       && db'.invoices == db.invoices[i := inv.(status := InvoicePaid, paymentMethod := Some(via),
                                                fromWallet := fromWallet, fromGateway := fromGateway)]
  }

  /** The method a gateway payment is booked under: the one its invoice was pending with. */
  ghost function BookedVia(inv: Invoice): PaymentMethod {
    if inv.paymentMethod.Some? then inv.paymentMethod.value else GatewayOnly
  }

  /** Settling the open intent of an invoice commits exactly when the invoice is PAID already, or waits to be
      paid while its order can be written. Then escrow receives exactly the invoice's total: the held wallet
      portion from the payer and the rest from the gateway. */
  lemma SettleInvoiceOutcome(db: Db, j: nat, i: nat, now: int)
    requires Inv(db) && WalletLaw(db) && j < |db.intents| && IsOpenFor(db.intents[j], i) && i < |db.invoices|
    ensures SettleInvoice(db, j, i, now).Ok? <==> db.invoices[i].status.InvoicePaid? || Settleable(db, i, now)
    ensures db.invoices[i].status.InvoicePaid? ==> SettleInvoice(db, j, i, now) == Ok(db)
    ensures Settleable(db, i, now) ==>
              var it, inv, db' := db.intents[j], db.invoices[i], SettleInvoice(db, j, i, now).value;
              && inv.fromWallet + it.amount == inv.total
              && Moves(db, db', FundMovement(UserWallet(it.user), inv.fromWallet, it.amount, i, inv.order))
              && Settles(db, db', i, inv.fromWallet, it.amount, BookedVia(inv))
  {
    hide Inv, LedgerLaw, Extended, OneActivePerOrder, PaymentFits, Overdrawn, FundEscrow, OpenHold, Delta,
         SettleRecord, Settles, InWindow;
    var it, inv := db.intents[j], db.invoices[i];
    IssuedOrder(db, i);
    IntentOf(db, j);
    if Waiting(db, i) {
      GatewayPaymentFits(db, j, i);
      var posted := FundEffect(db, i, it.user, inv.fromWallet, it.amount, Some(j), inv.fromWallet > 0);
      var w := UserWallet(it.user);
      var via := if inv.paymentMethod.Some? then inv.paymentMethod.value else GatewayOnly;
      var funded := FundEscrow(db, w, inv.fromWallet, it.amount, i, inv.order, Some(j), inv.fromWallet > 0).value;
      SettleRecordOutcome(db, funded, i, via, inv.fromWallet, it.amount, now);
      if InWindow(db.orders[inv.order].deliveryDate, now) {
        SettleRecordSettles(db, funded, i, via, inv.fromWallet, it.amount, now);
      }
    } else if !inv.status.InvoicePaid? && SettleInvoice(db, j, i, now).Ok? {
      SettlesOnlyWaiting(db, j, i, now);
    }
  }

  lemma SettleRecordSettles(db: Db, funded: Db, i: nat, via: PaymentMethod, fromWallet: int, fromGateway: int, now: int)
    requires i < |funded.invoices| && SettleRecord(funded, i, via, fromWallet, fromGateway, now).Ok?
    requires funded.invoices == db.invoices && funded.orders == db.orders && funded.disputes == db.disputes
    requires funded.emptySlots == db.emptySlots && funded.withdrawals == db.withdrawals
    ensures var db' := SettleRecord(funded, i, via, fromWallet, fromGateway, now).value;
            && db'.wallets == funded.wallets && db'.intents == funded.intents
            && Settles(db, db', i, fromWallet, fromGateway, via)
  {
    hide OneActivePerOrder, InWindow;
  }

  /** Settling a NEW top-up always commits, and moves exactly its amount from the gateway to its user. */
  lemma SettleTopupOutcome(db: Db, j: nat)
    requires Inv(db) && WalletLaw(db) && j < |db.intents|
    requires db.intents[j].status.IntentNew? && db.intents[j].purpose.WalletTopup?
    ensures var it, r := db.intents[j], SettleTopup(db, j);
            && r.Ok? && r.value == db.(wallets := r.value.wallets, ledger := r.value.ledger)
            && Moves(db, r.value, TopupMovement(UserWallet(it.user), it.amount, j))
            && forall w :: 0 <= w < |db.wallets| ==> r.value.wallets[w].held == db.wallets[w].held
  {
    hide LedgerLaw, FlowLaw, PromoLaw, EscrowDue, EscrowOnce, TopupOnce, PayoutOnce, KeyLaw, Overdrawn, IntentLaw,
         HoldLaw, Extended, PostGroup, Postable, KeyUsed, TopupLegs;
    var it := db.intents[j];
    var w, m := UserWallet(it.user), TopupMovement(UserWallet(it.user), it.amount, j);
    IntentOf(db, j);
    MoneyOf(db);
    TopupKeyUnspent(db, j);
    TopupPostable(w, it.amount, j, |db.ledger|, |db.wallets|);
    CreditCovered(db, m);
    PostHasEffect(db, TopupLegs(w, it.amount, j), m);
  }

  /** The movement a verified PAID event makes: none for an invoice that is PAID already. */
  ghost predicate Booked(db: Db, db': Db, j: nat)
    requires j < |db.intents| && (db.intents[j].purpose.OrderInvoice? ==> db.intents[j].purpose.invoice < |db.invoices|)
  {
    var it := db.intents[j];
    match it.purpose
    case WalletTopup =>
      && db' == db.(wallets := db'.wallets, ledger := db'.ledger, intents := db'.intents)
      && Moves(db, db', TopupMovement(UserWallet(it.user), it.amount, j))
    case OrderInvoice(i) =>
      var inv := db.invoices[i];
      if inv.status.InvoicePaid? then db' == db.(intents := db'.intents)
      else && inv.fromWallet + it.amount == inv.total
           && Moves(db, db', FundMovement(UserWallet(it.user), inv.fromWallet, it.amount, i, inv.order))
           && Settles(db, db', i, inv.fromWallet, it.amount, BookedVia(inv))
  }

  /** A verified event for a known link commits unless it reports PAID with another amount, or reports PAID
      for a NEW intent whose invoice is not PAID and either does not wait or is for an order past its date. A
      replay or a failure moves no money, a payment exactly what it was for. */
  lemma WebhookOutcome(db: Db, j: nat, paid: bool, amount: Option<int>, now: int)
    requires Inv(db) && WalletLaw(db) && j < |db.intents|
    ensures db.intents[j].purpose.OrderInvoice? ==> db.intents[j].purpose.invoice < |db.invoices|
    ensures var it, r := db.intents[j], Webhook(db, j, paid, amount, now);
            && (r.Ok? <==> !it.status.IntentNew? || !paid
                           || (amount == Some(it.amount)
                               && (it.purpose.OrderInvoice? ==>
                                     db.invoices[it.purpose.invoice].status.InvoicePaid?
                                         || Settleable(db, it.purpose.invoice, now))))
            && (!it.status.IntentNew? ==> r == Ok(db))
            && (it.status.IntentNew? && r.Ok? && !paid ==>
                  r == Ok(db.(intents := db.intents[j := it.(status := IntentFailed)])))
            && (it.status.IntentNew? && r.Ok? && paid
                ==> Booked(db, r.value, j) && r.value.intents == db.intents[j := it.(status := IntentPaid)])
  {
    hide Inv, SettleTopup, SettleInvoice, Settleable, Booked;
    IntentOf(db, j);
    var it := db.intents[j];
    if it.status.IntentNew? && paid && amount == Some(it.amount) {
      if it.purpose.WalletTopup? {
        PaidTopup(db, j);
      } else {
        PaidInvoiceIntent(db, j, now);
      }
    }
  }

  lemma PaidTopup(db: Db, j: nat)
    requires Inv(db) && WalletLaw(db) && j < |db.intents|
    requires db.intents[j].status.IntentNew? && db.intents[j].purpose.WalletTopup?
    ensures SettleTopup(db, j).Ok?
    ensures Booked(db, SettleTopup(db, j).value.(intents := db.intents[j := db.intents[j].(status := IntentPaid)]), j)
  {
    hide Inv, SettleTopup, Moves;
    SettleTopupOutcome(db, j);
    var it, settled := db.intents[j], SettleTopup(db, j).value;
    MovesKept(db, settled, settled.(intents := db.intents[j := it.(status := IntentPaid)]),
              TopupMovement(UserWallet(it.user), it.amount, j));
  }

  lemma PaidInvoiceIntent(db: Db, j: nat, now: int)
    requires Inv(db) && WalletLaw(db) && j < |db.intents|
    requires db.intents[j].status.IntentNew? && db.intents[j].purpose.OrderInvoice?
    requires db.intents[j].purpose.invoice < |db.invoices|
    ensures var i := db.intents[j].purpose.invoice;
            && (SettleInvoice(db, j, i, now).Ok? <==> db.invoices[i].status.InvoicePaid? || Settleable(db, i, now))
            && (SettleInvoice(db, j, i, now).Ok? ==>
                  Booked(db, SettleInvoice(db, j, i, now).value
                      .(intents := db.intents[j := db.intents[j].(status := IntentPaid)]), j))
  {
    hide Inv, SettleInvoice, Moves, InWindow;
    var it, i := db.intents[j], db.intents[j].purpose.invoice;
    SettleInvoiceOutcome(db, j, i, now);
    if Settleable(db, i, now) {
      var settled := SettleInvoice(db, j, i, now).value;
      MovesKept(db, settled, settled.(intents := db.intents[j := it.(status := IntentPaid)]),
                FundMovement(UserWallet(it.user), db.invoices[i].fromWallet, it.amount, i, db.invoices[i].order));
    }
  }

  lemma MovesKept(db: Db, db': Db, db'': Db, m: Movement)
    requires Moves(db, db', m) && db''.wallets == db'.wallets
    ensures Moves(db, db'', m)
  {
  }

  // ------------------------------------------------------------------ paying

  /** Paying commits exactly when the actor takes part in the order and has a wallet, the invoice is ISSUED and
      unexpired, the order waits for payment and, if the actor's wallet covers the total, is not past its date. In
      that case the total moves into escrow at once. Otherwise, unless a payment is pending already and nothing
      changes, everything available in the wallet is held, the rest is left to one new payment intent, and the invoice
      records the two portions. */
  lemma PayInvoiceOutcome(db: Db, i: nat, actor: nat, now: int)
    requires Inv(db)
    ensures var r := PayInvoice(db, i, actor, now);
            && (r.Ok? <==> && Waiting(db, i) && IsParticipant(db.orders[db.invoices[i].order], actor)
                           && HasWallet(db, actor) && now <= db.invoices[i].expiresAt
                           && (WalletCovers(db, i, actor) ==> Settleable(db, i, now)))
            && (r.Ok? && WalletCovers(db, i, actor) ==>
                  && Moves(db, r.value, FundMovement(UserWallet(actor), db.invoices[i].total, 0, i,
                      db.invoices[i].order))
                  && Settles(db, r.value, i, db.invoices[i].total, 0, WalletOnly) && r.value.intents == db.intents)
            && (r.Ok? && !WalletCovers(db, i, actor) ==>
                  if OpenIntent(db.intents, i).Some? then r.value == db
                  else
                    var inv, w := db.invoices[i], UserWallet(actor);
                    var wallet := db.wallets[w];
                    var available := wallet.balance - wallet.held;
                    && 0 <= available < inv.total
                    && r.value == db.(
                         wallets := db.wallets[w := wallet.(held := wallet.balance)],
                         invoices := db.invoices[i := inv.(
                           fromWallet := available, fromGateway := inv.total - available,
                           paymentMethod := Some(if available > 0 then Split else GatewayOnly))],
                         intents := db.intents
                           + [Intent(actor, OrderInvoice(i), inv.total - available, IntentNew)]))
  {
    hide Inv, LedgerLaw, Extended, OneActivePerOrder, OpenIntent, Overdrawn, FundEscrow, SettleRecord, Delta,
         InWindow, Settles;
    if && Waiting(db, i) && IsParticipant(db.orders[db.invoices[i].order], actor)
       && HasWallet(db, actor) && now <= db.invoices[i].expiresAt
    {
      var total, order := db.invoices[i].total, db.invoices[i].order;
      IssuedOrder(db, i);
      UserWalletFacts(db, actor);
      if WalletCovers(db, i, actor) {
        var posted := FundEffect(db, i, actor, total, 0, None, false);
        var funded := FundEscrow(db, UserWallet(actor), total, 0, i, order, None, false).value;
        SettleRecordOutcome(db, funded, i, WalletOnly, total, 0, now);
        if Settleable(db, i, now) {
          SettleRecordSettles(db, funded, i, WalletOnly, total, 0, now);
        }
      } else if OpenIntent(db.intents, i).None? {
        var w := UserWallet(actor);
        assert db.wallets[w := db.wallets[w]] == db.wallets;
      }
    }
  }

  // ------------------------------------------------------------------ completing

  /** The courier's payout rounds to nothing exactly when the uncommissioned part of the base is at most half
      a halala. */
  lemma PayoutVanishes(base: int, rate: real)
    requires base >= 0 && Pricing.IsRate(rate)
    ensures base - Pricing.Commission(base, rate) == 0 <==> 2.0 * (base as real - base as real * rate) <= 1.0
  {
    PricingTheorems.ScaledByRate(0, base, rate);
    PricingTheorems.PartOfZero(rate);
  }

  /** The payout of an invoice rounds to nothing. */
  ghost predicate Vanishes(cfg: Settings, inv: Invoice) {
    var base := inv.itemsNet + inv.courierFee;
    2.0 * (base as real - base as real * cfg.commissionRate) <= 1.0
  }

  /** The order row a release leaves: COMPLETED, with the platform's commission, which is the rounded rate of items
      and courier fee, and the courier's payout, which is the rest of them. */
  ghost predicate CompletedRow(cfg: Settings, inv: Invoice, o: Order, row: Order) {
    var base := inv.itemsNet + inv.courierFee;
    && row == o.(status := Completed, commission := row.commission, payout := base - row.commission)
    && PricingTheorems.IsRatedPart(row.commission, base, cfg.commissionRate)
  }

  /** Where a release sends the money: payout to the courier, tax to the authority, the rest to the platform. */
  ghost function ReleaseOf(inv: Invoice, row: Order): Movement
    requires row.courier.Some?
  {
    ReleaseMovement(inv.order, UserWallet(row.courier.value), row.payout, inv.tax, inv.total - inv.tax - row.payout)
  }

  /** Completion commits exactly for a DELIVERED or DISPUTED order whose courier has a wallet, that is not past its
      date and whose payout does not vanish; it then takes the whole total out of escrow, payout to the courier, tax
      to the authority, the rest to the platform. */
  lemma CompletionOutcome(cfg: Settings, db: Db, o: nat, now: int)
    requires cfg.Valid() && Inv(db) && o < |db.orders|
    ensures var s := db.orders[o].status;
            s.Delivered? || s.Disputed? ==>
              && PaidInvoice(db, o).Ok? && db.orders[o].courier.Some?
              && var inv, courier, r := db.invoices[PaidInvoice(db, o).value], db.orders[o].courier.value,
                                        CompleteAndRelease(cfg, db, o, now);
                 && (r.Ok? <==> && HasWallet(db, courier) && !Vanishes(cfg, inv)
                                && InWindow(db.orders[o].deliveryDate, now))
                 && (!HasWallet(db, courier) ==> r == Err(NotFound))
                 && (HasWallet(db, courier) && Vanishes(cfg, inv) ==> r == Err(LedgerImbalance))
                 && (HasWallet(db, courier) && !Vanishes(cfg, inv) && r.Err? ==> r == Err(CheckViolation))
                 && (r.Ok? ==>
                       && |r.value.orders| == |db.orders|
                       && var row := r.value.orders[o];
                          && CompletedRow(cfg, inv, db.orders[o], row)
                          && r.value == db.(wallets := r.value.wallets, ledger := r.value.ledger,
                                            orders := db.orders[o := row])
                          && Moves(db, r.value, ReleaseOf(inv, row)))
    ensures var s := db.orders[o].status;
            !(s.Delivered? || s.Disputed?) ==> CompleteAndRelease(cfg, db, o, now) == Err(InvalidTransition)
  {
    hide Inv, TakesOut, ReleaseEscrow, ActiveInvoice, PaidInvoice, Pricing.ComputeSettlement, LedgerLaw, Extended,
         Delta, InWindow;
    var order := db.orders[o];
    if order.status.Delivered? || order.status.Disputed? {
      PaidInvoiceIs(db, o);
      PartiesExist(db, o);
      OrdersWellFormed(db, o);
      var i := PaidInvoice(db, o).value;
      var inv := db.invoices[i];
      IssuedOrder(db, i);
      SettlementParts(cfg, inv);
      PricingTheorems.SettlementIsRated(inv.itemsNet, inv.courierFee, inv.tax, inv.total, cfg.commissionRate);
      ReleaseOutcome(cfg, db, o, i, order.courier.value);
      VanishingPayout(cfg, inv);
    }
  }

  lemma VanishingPayout(cfg: Settings, inv: Invoice)
    requires cfg.Valid() && inv.itemsNet >= 0 && inv.courierFee >= 0
    ensures SettlementOf(cfg, inv).payout == 0 <==> Vanishes(cfg, inv)
  {
    hide Pricing.Commission;
    PayoutVanishes(inv.itemsNet + inv.courierFee, cfg.commissionRate);
  }

  lemma PartiesExist(db: Db, o: nat)
    requires Inv(db) && o < |db.orders| && Phase(db.orders[o].status) >= 1
    ensures db.orders[o].courier.Some? && UserWallet(db.orders[o].courier.value) < |db.wallets|
    ensures UserWallet(db.orders[o].customer) < |db.wallets|
  {
    hide LedgerLaw, EscrowFunded, EscrowOnce, IntentLaw, HoldLaw, KeyLaw, TopupOnce, PayoutOnce, PromoLaw, Overdrawn,
         ActiveInvoice, OneActivePerOrder;
    assert OrderWellFormed(db.orders[o], |db.wallets|);
  }

  // ------------------------------------------------------------------ disputes

  ghost predicate PartiesHaveWallets(db: Db, o: nat)
    requires o < |db.orders|
  {
    db.orders[o].courier.Some? && HasWallet(db, db.orders[o].courier.value) && HasWallet(db, db.orders[o].customer)
  }

  /** The instructions an admin's resolution can carry for a paid invoice. */
  ghost predicate Resolvable(cfg: Settings, inv: Invoice, outcome: DisputeStatus, courierAmount: Option<real>) {
    match outcome
    case Open => false
    case ResolvedCustomer => true
    case ResolvedCourier => !Vanishes(cfg, inv)
    case ResolvedSplit => courierAmount.Some? && 0 <= Quantize(courierAmount.value) <= inv.total
  }

  /** The order row a resolution leaves. */
  ghost predicate ResolvedRow(cfg: Settings, inv: Invoice, o: Order, outcome: DisputeStatus,
      courierAmount: Option<real>, row: Order) {
    match outcome
    case Open => false
    case ResolvedCustomer => row == o.(status := Refunded)
    case ResolvedCourier => CompletedRow(cfg, inv, o, row)
    case ResolvedSplit =>
      courierAmount.Some? && row == o.(status := Completed, payout := Quantize(courierAmount.value))
  }

  /** Where a resolution that leaves this row sends the money. */
  ghost function OutcomeMovement(inv: Invoice, row: Order, outcome: DisputeStatus): Movement
    requires row.courier.Some?
  {
    var courier, customer := UserWallet(row.courier.value), UserWallet(row.customer);
    match outcome
    case ResolvedSplit => SplitMovement(inv.order, courier, customer, row.payout, inv.total - row.payout)
    case ResolvedCourier => ReleaseOf(inv, row)
    case _ => RefundMovement(inv.order, customer, inv.total)
  }

  lemma ApplyOutcomeOutcome(cfg: Settings, db: Db, o: nat, i: nat, outcome: DisputeStatus, courierAmount: Option<real>)
    requires cfg.Valid() && Inv(db) && Unsettled(db, o, i) && db.orders[o].courier.Some?
    requires UserWallet(db.orders[o].courier.value) < |db.wallets| && UserWallet(db.orders[o].customer) < |db.wallets|
    ensures var r := ApplyOutcome(cfg, db, o, i, db.orders[o].courier.value, outcome, courierAmount);
            && (r.Ok? <==> Resolvable(cfg, db.invoices[i], outcome, courierAmount))
            && (r.Ok? ==>
                  var (posted, row) := r.value;
                  && ResolvedRow(cfg, db.invoices[i], db.orders[o], outcome, courierAmount, row)
                  && row.courier == db.orders[o].courier
                  && Effect(db, posted, OutcomeMovement(db.invoices[i], row, outcome)))
  {
    hide Inv, LedgerLaw, Trail, Pricing.ComputeSettlement, WellFormed, Effect, Postable, Covered, PostGroup,
         ReleaseEscrow, RefundLegs, SplitLegs, Quantize;
    var total, customer, courier := db.invoices[i].total, UserWallet(db.orders[o].customer), db.orders[o].courier.value;
    MoneyOf(db);
    IssuedOrder(db, i);
    match outcome {
      case Open =>
      case ResolvedCustomer =>
        RefundPostable(o, i, customer, total, |db.ledger|, |db.wallets|);
        SettlementUnspent(db, o, i, RefundMovement(o, customer, total));
        PostHasEffect(db, RefundLegs(o, i, customer, total), RefundMovement(o, customer, total));
      case ResolvedCourier =>
        var inv := db.invoices[i];
        SettlementParts(cfg, inv);
        PricingTheorems.SettlementIsRated(inv.itemsNet, inv.courierFee, inv.tax, inv.total, cfg.commissionRate);
        ReleaseOutcome(cfg, db, o, i, courier);
        VanishingPayout(cfg, inv);
      case ResolvedSplit =>
        if Resolvable(cfg, db.invoices[i], outcome, courierAmount) {
          var share := Quantize(courierAmount.value);
          var m := SplitMovement(o, UserWallet(courier), customer, share, total - share);
          SplitPostable(o, i, UserWallet(courier), customer, share, total - share, |db.ledger|, |db.wallets|);
          SettlementUnspent(db, o, i, m);
          PostHasEffect(db, SplitLegs(o, i, UserWallet(courier), customer, share, total - share), m);
        }
    }
  }

  lemma EffectTouches(db: Db, posted: Db, m: Movement)
    requires Effect(db, posted, m)
    ensures posted == db.(wallets := posted.wallets, ledger := posted.ledger)
  {
    hide LedgerLaw, Extended, Delta;
  }

  lemma EffectMoves(db: Db, posted: Db, db': Db, m: Movement)
    requires Effect(db, posted, m) && db'.wallets == posted.wallets
    ensures Moves(db, db', m)
  {
    hide LedgerLaw, Extended, Delta;
  }

  /** A dispute is resolved exactly when it is open, its order is still DISPUTED and not past its date, courier and
      customer both have a wallet, whoever gets the money, and the instruction fits; the money then goes where the
      instruction says, and nowhere else. */
  lemma ResolveDisputeOutcome(cfg: Settings, db: Db, o: nat, outcome: DisputeStatus, courierAmount: Option<real>,
      now: int)
    requires cfg.Valid() && Inv(db) && DisputeLaw(db.orders, db.disputes) && o < |db.orders|
    ensures var r := ResolveDispute(cfg, db, o, outcome, courierAmount, now);
            && (r.Ok? <==> && o in db.disputes && db.disputes[o].Open? && db.orders[o].status.Disputed?
                           && InWindow(db.orders[o].deliveryDate, now)
                           && PaidInvoice(db, o).Ok? && PartiesHaveWallets(db, o)
                           && Resolvable(cfg, db.invoices[PaidInvoice(db, o).value], outcome, courierAmount))
            && (r.Ok? ==>
                  && |r.value.orders| == |db.orders|
                  && var inv, row := db.invoices[PaidInvoice(db, o).value], r.value.orders[o];
                     && row.courier.Some? && row.courier == db.orders[o].courier
                     && ResolvedRow(cfg, inv, db.orders[o], outcome, courierAmount, row)
                     && r.value == db.(wallets := r.value.wallets, ledger := r.value.ledger,
                                       orders := db.orders[o := row], disputes := db.disputes[o := outcome])
                     && Moves(db, r.value, OutcomeMovement(inv, row, outcome)))
  {
    hide Inv, ApplyOutcome, ActiveInvoice, Resolvable, PaidInvoice, OutcomeMovement, Effect, Moves, InWindow,
         ResolvedRow;
    PaidInvoiceIs(db, o);
    if PaidInvoice(db, o).Ok? {
      PartiesExist(db, o);
      OrdersWellFormed(db, o);
      var i, courier := PaidInvoice(db, o).value, db.orders[o].courier.value;
      var r := ApplyOutcome(cfg, db, o, i, courier, outcome, courierAmount);
      IssuedOrder(db, i);
      if db.orders[o].status.Disputed? {
        ApplyOutcomeOutcome(cfg, db, o, i, outcome, courierAmount);
      }
      if r.Ok? {
        OutcomeRow(cfg, db, o, i, courier, outcome, courierAmount);
        if db.orders[o].status.Disputed? {
          EffectTouches(db, r.value.0, OutcomeMovement(db.invoices[i], r.value.1, outcome));
        }
        if ResolveDispute(cfg, db, o, outcome, courierAmount, now).Ok? {
          EffectMoves(db, r.value.0, ResolveDispute(cfg, db, o, outcome, courierAmount, now).value,
                      OutcomeMovement(db.invoices[i], r.value.1, outcome));
        }
      }
    }
  }

  /** Resolutions move an order to COMPLETED or REFUNDED, and leave it a row the table accepts. */
  lemma OutcomeRow(cfg: Settings, db: Db, o: nat, i: nat, courier: nat, outcome: DisputeStatus,
      courierAmount: Option<real>)
    requires cfg.Valid() && o < |db.orders| && i < |db.invoices|
    requires ApplyOutcome(cfg, db, o, i, courier, outcome, courierAmount).Ok?
    requires db.invoices[i].itemsNet >= 0 && db.invoices[i].courierFee >= 0
    ensures var order, row := db.orders[o], ApplyOutcome(cfg, db, o, i, courier, outcome, courierAmount).value.1;
            && row.status == (if outcome.ResolvedCustomer? then Refunded else Completed)
            && row.courier == order.courier && row.deliveryDate == order.deliveryDate && row.total == order.total
            && (order.commission >= 0 && order.payout >= 0 ==> row.commission >= 0 && row.payout >= 0)
  {
    hide Post, ReleaseEscrow, Quantize, SettlementOf;
    SettlementParts(cfg, db.invoices[i]);
  }

  /** An order with an open dispute can still be approved, exactly when one that is only DELIVERED could be: escrow
      is paid out and the dispute stays open. */
  lemma DisputedIsApproved(cfg: Settings, db: Db, o: nat, actor: nat, now: int)
    requires cfg.Valid() && Inv(db) && DisputeLaw(db.orders, db.disputes)
    requires o < |db.orders| && db.orders[o].status.Disputed? && IsParticipant(db.orders[o], actor)
    ensures PaidInvoice(db, o).Ok? && db.orders[o].courier.Some?
    ensures var r := ApproveOrder(cfg, db, o, actor, now);
            && (r.Ok? <==> && HasWallet(db, db.orders[o].courier.value) && InWindow(db.orders[o].deliveryDate, now)
                           && !Vanishes(cfg, db.invoices[PaidInvoice(db, o).value]))
            && (r.Ok? ==> && |r.value.orders| == |db.orders| && r.value.orders[o].status.Completed?
                          && o in r.value.disputes && r.value.disputes[o].Open?)
  {
    hide Inv, CompleteAndRelease, PaidInvoice, Vanishes, InWindow, Moves, HasWallet;
    CompletionOutcome(cfg, db, o, now);
  }

  // ------------------------------------------------------------------ cancelling and expiring

  /** Cancelling an invoice commits exactly for its issuer, while its order waits and is not past its date. */
  lemma CancelInvoiceOutcome(db: Db, i: nat, courier: nat, now: int)
    requires Inv(db)
    ensures var r := CancelInvoice(db, i, courier, now);
            && (r.Ok? <==> Settleable(db, i, now) && db.invoices[i].issuer == courier)
            && (r.Ok? ==>
                  var o := db.invoices[i].order;
                  && r.value.wallets == db.wallets && r.value.intents == db.intents && r.value.ledger == db.ledger
                  && r.value.invoices == db.invoices[i := db.invoices[i].(status := InvoiceCancelled)]
                  && r.value.orders == db.orders[o := db.orders[o].(status := Assigned, total := 0)])
  {
    hide Inv, ReleasePromo, InWindow;
    if i < |db.invoices| {
      IssuedOrder(db, i);
      OrdersWellFormed(db, db.invoices[i].order);
      Evolution.PromoOnly(db, i);
    }
  }

  /** The order is ASSIGNED again, and owes nothing. */
  ghost function Reopened(orders: seq<Order>, o: nat): seq<Order> {
    if o < |orders| then orders[o := orders[o].(status := Assigned, total := 0)] else orders
  }

  /** The invoice's open intent, if it had one, is EXPIRED, and exactly what was held for it is released. */
  ghost predicate Closed(db: Db, db': Db, i: nat)
    requires i < |db.invoices|
  {
    var open := OpenIntent(db.intents, i);
    if open.None? then db'.intents == db.intents && db'.wallets == db.wallets
    else
      var it := db.intents[open.value];
      var w := UserWallet(it.user);
      && db'.intents == db.intents[open.value := it.(status := IntentExpired)]
      && w < |db.wallets|
      && db'.wallets == db.wallets[w := db.wallets[w].(held := db.wallets[w].held - db.invoices[i].fromWallet)]
  }

  lemma CloseCloses(db: Db, i: nat)
    requires Inv(db) && WalletLaw(db) && i < |db.invoices| && db.invoices[i].status.Issued?
    ensures CloseOpenIntent(db, i).Ok? && Closed(db, CloseOpenIntent(db, i).value, i)
  {
    hide LedgerLaw, HoldLaw, FlowLaw, PromoLaw, LiveHolds, OpenIntent, Overdrawn, EscrowDue;
    var open := OpenIntent(db.intents, i);
    if open.Some? {
      var it, amount := db.intents[open.value], db.invoices[i].fromWallet;
      assert IntentWellFormed(it, |db.wallets|, |db.invoices|) && PortionsAddUp(it, db.invoices);
      OpenHoldBounds(|db.wallets|, db.intents, db.invoices, db.withdrawals, i, it.user);
      UserWalletFacts(db, it.user);
      var w := UserWallet(it.user);
      assert amount == 0 ==> db.wallets[w := db.wallets[w].(held := db.wallets[w].held - amount)] == db.wallets;
    }
  }

  /** The sweep fails on an invoice exactly when its order waits and is past its date (or too far ahead of it). */
  lemma ExpireInvoiceOutcome(db: Db, i: nat, now: int)
    requires Inv(db) && WalletLaw(db)
    ensures var r := ExpireInvoice(db, i, now);
            && (r.Err? <==> Waiting(db, i) && !Settleable(db, i, now))
            && (r.Err? ==> r == Err(CheckViolation))
            && (r.Ok? && i < |db.invoices| && db.invoices[i].status.Issued? ==>
                  && r.value.invoices == db.invoices[i := db.invoices[i].(status := InvoiceExpired)]
                  && r.value.orders == (if Waiting(db, i) then Reopened(db.orders, db.invoices[i].order) else db.orders)
                  && Closed(db, r.value, i))
            && (r.Ok? && !(i < |db.invoices| && db.invoices[i].status.Issued?) ==> r.value == db)
  {
    hide Inv, ReleasePromo, CloseOpenIntent, InWindow, LedgerLaw, OpenHold, Overdrawn, ClosedAtMost;
    if i < |db.invoices| && db.invoices[i].status.Issued? {
      IssuedOrder(db, i);
      OrdersWellFormed(db, db.invoices[i].order);
      CloseCloses(db, i);
      Evolution.CloseOnly(db, i);
      Evolution.PromoOnly(CloseOpenIntent(db, i).value, i);
    }
  }

  // ------------------------------------------------------------------ withdrawals

  /** An APPROVED withdrawal can always be paid: the hold behind it is still there. It then debits exactly its
      amount from the courier, releases exactly the hold, and is paid once: a second attempt changes nothing. */
  lemma MarkPaidOutcome(db: Db, k: nat)
    requires Inv(db) && k < |db.withdrawals|
    ensures var row, r := db.withdrawals[k], MarkWithdrawalPaid(db, k);
            && (r.Ok? <==> row.status.Approved? || row.status.WithdrawalPaid?)
            && (row.status.WithdrawalPaid? ==> r == Ok(db))
            && (row.status.Approved? ==>
                  && r.value == db.(wallets := r.value.wallets, ledger := r.value.ledger,
                                    withdrawals := db.withdrawals[k := row.(status := WithdrawalPaid)])
                  && Moves(db, r.value, PayoutMovement(UserWallet(row.courier), row.amount, k))
                  && UserWallet(row.courier) < |db.wallets|
                  && r.value.wallets[UserWallet(row.courier)].held
                      == db.wallets[UserWallet(row.courier)].held - row.amount
                  && MarkWithdrawalPaid(r.value, k) == r)
  {
    hide Inv, PayWithdrawal, LedgerLaw, Extended, Delta;
    if db.withdrawals[k].status.Approved? {
      var posted := PayWithdrawalEffect(db, k);
    }
  }
}
