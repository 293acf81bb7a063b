/** The services themselves, updating one unit of work in place: every method is proved against the function
    that specifies it, and every error is rolled back as the request's session is. */
module Backend {
  import opened Results
  import opened Sums
  import opened Money
  import opened Tables
  import opened OrderState
  import opened Ledger
  import opened MoneyOps
  import opened Market
  import opened Laws
  import opened Theorems
  import Evolution
  import Pricing

  class Session {
    var wallets: seq<Wallet>
    var ledger: seq<Row>
    var orders: seq<Order>
    var invoices: seq<Invoice>
    var redemptions: seq<Option<Redemption>>
    var intents: seq<Intent>
    var disputes: map<nat, DisputeStatus>
    var withdrawals: seq<Withdrawal>
    var promos: seq<Promo>
    var overReleases: nat
    var emptySlots: set<nat>

    function State(): Db
      reads this
    {
      Db(wallets, ledger, orders, invoices, redemptions, intents, disputes, withdrawals, promos, overReleases,
         emptySlots)
    }

    /** The seeded system wallets, and nothing else. */
    constructor ()
      ensures State() == Seeded()
    {
      wallets := [Wallet(0, 0), Wallet(0, 0), Wallet(0, 0), Wallet(0, 0)];
      ledger, orders, invoices, redemptions, intents := [], [], [], [], [];
      disputes, withdrawals, promos, overReleases, emptySlots := map[], [], [], 0, {};
    }

    /** The call did what its specification says: the same new state, or the same error. What a failed call
        leaves in the session is discarded by the rollback. */
    ghost predicate Did(r: Result<()>, spec: Result<Db>)
      reads this
    {
      match spec
      case Ok(db) => r.Ok? && State() == db
      case Err(e) => r == Err(e)
    }

    ghost predicate Posted(r: Result<bool>, spec: Result<(Db, bool)>)
      reads this
    {
      match spec
      case Ok((db, first)) => r == Ok(first) && State() == db
      case Err(e) => r == Err(e)
    }

    // ---------------------------------------------------------------- app/services/money_service.py

    /** Adds up the raw amounts, and looks for a leg that rounds to zero. */
    method ValidateLegs(legs: seq<Leg>) returns (ok: bool)
      ensures ok == WellFormed(legs)
    {
      if |legs| < 2 {
        return false;
      }
      var total, zero := 0.0, false;
      for i := 0 to |legs|
        invariant total == RawTotal(legs[..i])
        invariant zero <==> exists k :: 0 <= k < i && Quantize(legs[k].amount) == 0
      {
        assert legs[..i + 1][..i] == legs[..i];
        total := total + legs[i].amount;
        zero := zero || Quantize(legs[i].amount) == 0;
      }
      assert legs[..|legs|] == legs;
      return Quantize(total) == 0 && !zero;
    }

    /** Whether any leg's idempotency key is in the ledger already. */
    method KeyExists(legs: seq<Leg>) returns (found: bool)
      ensures found == AnyKeyExists(Entries(ledger), legs)
    {
      found := false;
      for i := 0 to |legs|
        invariant found <==> exists k :: 0 <= k < i && legs[k].key.Some? && KeyUsed(Entries(ledger), legs[k].key.value)
      {
        found := found || (legs[i].key.Some? && KeyUsed(Entries(ledger), legs[i].key.value));
      }
    }

    method PostGroup(legs: seq<Leg>, correlation: nat) returns (r: Result<bool>)
      modifies `wallets, `ledger
      ensures Posted(r, Ledger.PostGroup(old(State()), legs, correlation))
    {
      hide WellFormed, AnyKeyExists, Quantize, Overdrawn, KeysDistinct, ApplyLegs, RowsOf;
      var ok := ValidateLegs(legs);
      if !ok {
        return Err(LedgerImbalance);
      }
      var replay := KeyExists(legs);
      if replay {
        return Ok(false);
      }
      if !WalletsExist(|wallets|, legs) {
        return Err(NotFound);
      }
      ApplyAll(legs, correlation);
      if Overdrawn(wallets) {
        return Err(NegativeBalance);
      }
      if !KeysDistinct(legs) {
        return Err(UniqueViolation);
      }
      return Ok(true);
    }

    /** One leg after the other: the wallet's new balance, then the row that records it. */
    method ApplyAll(legs: seq<Leg>, correlation: nat)
      requires WalletsExist(|wallets|, legs)
      modifies `wallets, `ledger
      ensures wallets == ApplyLegs(old(wallets), legs)
      ensures ledger == old(ledger) + RowsOf(old(wallets), legs, correlation)
    {
      hide Quantize, ApplyLegs, RowsOf;
      ghost var rows := RowsOf(wallets, legs, correlation);
      NoLegs(wallets, legs);
      for i := 0 to |legs|
        invariant wallets == ApplyLegs(old(wallets), legs[..i])
        invariant ledger == old(ledger) + rows[..i]
      {
        var leg := legs[i];
        OneWallet(old(wallets), legs, i);
        OneRow(old(wallets), legs, correlation, i);
        var wallet := wallets[leg.wallet];
        wallet := wallet.(balance := Quantize(wallet.balance as real + leg.amount));
        wallets := wallets[leg.wallet := wallet];
        AppendTransaction(leg, Quantize(leg.amount), correlation, wallet.balance);
      }
      assert legs[..|legs|] == legs && rows[..|legs|] == rows;
    }

    method AppendTransaction(leg: Leg, amount: int, correlation: nat, balanceAfter: int)
      modifies `ledger
      ensures ledger == old(ledger)
                        + [Row(Entry(leg.wallet, amount, leg.kind, Settled, correlation, leg.key, leg.order,
                            leg.invoice, leg.intent),
                               balanceAfter)]
    {
      ledger := ledger + [Row(Entry(leg.wallet, amount, leg.kind, Settled, correlation, leg.key, leg.order,
          leg.invoice, leg.intent),
                              balanceAfter)];
    }

    method HoldFunds(wallet: nat, amount: int) returns (r: Result<()>)
      modifies `wallets
      ensures Did(r, MoneyOps.HoldFunds(old(State()), wallet, amount))
    {
      if wallet >= |wallets| {
        return Err(NotFound);
      }
      if wallets[wallet].balance - wallets[wallet].held < amount {
        return Err(InsufficientFunds);
      }
      wallets := wallets[wallet := wallets[wallet].(held := wallets[wallet].held + amount)];
      return Ok(());
    }

    method ReleaseHold(wallet: nat, amount: int) returns (r: Result<()>)
      modifies `wallets, `overReleases
      ensures Did(r, MoneyOps.ReleaseHold(old(State()), wallet, amount))
    {
      if wallet >= |wallets| {
        return Err(NotFound);
      }
      if amount > wallets[wallet].held {
        overReleases := overReleases + 1;
      }
      wallets := wallets[wallet := wallets[wallet].(held := Pricing.Max(0, wallets[wallet].held - amount))];
      return Ok(());
    }

    method PayWithdrawal(wallet: nat, amount: int, withdrawal: nat) returns (r: Result<bool>)
      modifies `wallets, `ledger, `overReleases
      ensures Posted(r, MoneyOps.PayWithdrawal(old(State()), wallet, amount, withdrawal))
    {
      hide Ledger.PostGroup, MoneyOps.ReleaseHold;
      var posted :- PostGroup(PayoutLegs(wallet, amount, withdrawal), |ledger|);
      if posted {
        var _ :- ReleaseHold(wallet, amount);
      }
      return Ok(posted);
    }

    method FundEscrow(customer: nat, fromWallet: int, fromGateway: int, invoice: nat, order: nat, intent: Option<nat>,
        wasHeld: bool)
      returns (r: Result<()>)
      modifies `wallets, `ledger, `overReleases
      ensures Did(r, MoneyOps.FundEscrow(old(State()), customer, fromWallet, fromGateway, invoice, order, intent,
          wasHeld))
    {
      hide Ledger.PostGroup, MoneyOps.ReleaseHold;
      var legs := [];
      if fromWallet > 0 {
        legs := legs + [PlainLeg(customer, -fromWallet, Payment, Some(order), Some(invoice), intent)];
      }
      if fromGateway > 0 {
        legs := legs + [PlainLeg(GATEWAY, -fromGateway, Payment, Some(order), Some(invoice), intent)];
      }
      legs := legs + [KeyedLeg(ESCROW, fromWallet + fromGateway, EscrowHold, EscrowKey(invoice), Some(order),
          Some(invoice), intent)];
      assert legs == FundLegs(customer, fromWallet, fromGateway, invoice, order, intent);
      var posted :- PostGroup(legs, |ledger|);
      if posted && wasHeld && fromWallet > 0 {
        r := ReleaseHold(customer, fromWallet);
      } else {
        r := Ok(());
      }
    }

    method ReleaseEscrow(order: nat, invoice: nat, courier: nat, payout: int, tax: int, revenue: int)
        returns (r: Result<bool>)
      modifies `wallets, `ledger
      ensures Posted(r, Post(old(State()), ReleaseLegs(order, invoice, courier, payout, tax, revenue)))
    {
      hide Ledger.PostGroup;
      var legs := [KeyedLeg(ESCROW, -(payout + tax + revenue), EscrowRelease, ReleaseKey(order), Some(order),
          Some(invoice), None),
                   PlainLeg(courier, payout, EscrowRelease, Some(order), Some(invoice), None)];
      if tax != 0 {
        legs := legs + [PlainLeg(TAX_PAYABLE, tax, TaxDue, Some(order), Some(invoice), None)];
      }
      if revenue != 0 {
        legs := legs + [PlainLeg(REVENUE, revenue, CommissionFee, Some(order), Some(invoice), None)];
      }
      assert legs == ReleaseLegs(order, invoice, courier, payout, tax, revenue);
      r := PostGroup(legs, |ledger|);
    }

    method SplitEscrow(order: nat, invoice: nat, courier: nat, customer: nat, courierAmount: int, refund: int)
        returns (r: Result<bool>)
      modifies `wallets, `ledger
      ensures Posted(r, Post(old(State()), SplitLegs(order, invoice, courier, customer, courierAmount, refund)))
    {
      hide Ledger.PostGroup;
      var legs := [KeyedLeg(ESCROW, -(courierAmount + refund), EscrowRelease, SplitKey(order), Some(order),
          Some(invoice), None)];
      if courierAmount != 0 {
        legs := legs + [PlainLeg(courier, courierAmount, EscrowRelease, Some(order), Some(invoice), None)];
      }
      if refund != 0 {
        legs := legs + [PlainLeg(customer, refund, Refund, Some(order), Some(invoice), None)];
      }
      assert legs == SplitLegs(order, invoice, courier, customer, courierAmount, refund);
      r := PostGroup(legs, |ledger|);
    }

    // ---------------------------------------------------------------- app/services/promo_service.py

    /** The conditional UPDATE of `used_count`, then the per-user count behind the row lock it took. */
    method ReservePromo(promo: nat, user: nat, now: int) returns (r: Result<()>)
      modifies `promos
      ensures Did(r, Market.ReservePromo(old(State()), promo, user, now))
    {
      hide Uses;
      if promo >= |promos| {
        return Err(PromoUsageExceeded);
      }
      var p := promos[promo];
      if !(&& p.active
           && (p.startsAt.None? || p.startsAt.value <= now)
           && (p.endsAt.None? || p.endsAt.value > now)
           && (p.maxTotal.None? || p.used < p.maxTotal.value)) {
        return Err(PromoUsageExceeded);
      }
      promos := promos[promo := p.(used := p.used + 1)];
      if Uses(redemptions, promo, Some(user)) >= p.maxPerUser {
        return Err(PromoUserLimit);
      }
      return Ok(());
    }

    method ConsumePromo(invoice: nat)
      modifies `redemptions
      ensures State() == Market.ConsumePromo(old(State()), invoice)
    {
      if IsReserved(redemptions, invoice) {
        redemptions := redemptions[invoice := Some(redemptions[invoice].value.(status := Consumed))];
      }
    }

    method ReleasePromo(invoice: nat)
      modifies `redemptions, `promos
      ensures State() == Market.ReleasePromo(old(State()), invoice)
    {
      if IsReserved(redemptions, invoice) {
        var redemption := redemptions[invoice].value;
        redemptions := redemptions[invoice := Some(redemption.(status := Released))];
        AtomicRelease(redemption.promo);
      }
    }

    method AtomicRelease(promo: nat)
      modifies `promos
      ensures promos == if promo < |old(promos)| && old(promos)[promo].used > 0
                        then old(promos)[promo := old(promos)[promo].(used := old(promos)[promo].used - 1)]
                            else old(promos)
    {
      if promo < |promos| && promos[promo].used > 0 {
        promos := promos[promo := promos[promo].(used := promos[promo].used - 1)];
      }
    }

    method CreatePromo(promo: Promo) returns (r: Result<()>)
      modifies `promos
      ensures Did(r, Market.CreatePromo(old(State()), promo))
    {
      if promo.used != 0 || promo.maxPerUser < 1 || !PromoValueValid(promo) {
        return Err(CheckViolation);
      }
      promos := promos + [promo];
      return Ok(());
    }

    method SetPromoActive(promo: nat, active: bool) returns (r: Result<()>)
      modifies `promos
      ensures Did(r, Market.SetPromoActive(old(State()), promo, active))
    {
      if promo >= |promos| {
        return Err(NotFound);
      }
      promos := promos[promo := promos[promo].(active := active)];
      return Ok(());
    }

    // ---------------------------------------------------------------- users

    /** `get_by_user`: whether the user has a wallet. */
    method FindWallet(user: nat) returns (found: bool)
      ensures found == HasWallet(State(), user)
    {
      return UserWallet(user) < |wallets| && UserWallet(user) !in emptySlots;
    }

    /** A user created in the dashboard, without a wallet. */
    method CreateUser()
      modifies `wallets, `emptySlots
      ensures Market.CreateUser(old(State())) == Ok(State())
    {
      emptySlots := emptySlots + {|wallets|};
      wallets := wallets + [Wallet(0, 0)];
    }

    method Register()
      modifies `wallets
      ensures Market.Register(old(State())) == Ok(State())
    {
      wallets := wallets + [Wallet(0, 0)];
    }

    // ---------------------------------------------------------------- app/services/order_service.py

    /** The CHECK constraints of the orders table, evaluated when a changed row is flushed. */
    method FlushOrder(order: nat, now: int) returns (r: Result<()>)
      requires order < |orders|
      ensures r == Require(RowAllowed(orders[order], now), CheckViolation)
    {
      r := if RowAllowed(orders[order], now) then Ok(()) else Err(CheckViolation);
    }

    method CreateOrder(customer: nat, deliveryDate: int, now: int) returns (r: Result<()>)
      modifies `orders
      ensures Did(r, Market.CreateOrder(old(State()), customer, deliveryDate, now))
    {
      if UserWallet(customer) >= |wallets| {
        return Err(NotFound);
      }
      orders := orders + [Order(customer, None, New, 0, 0, 0, deliveryDate)];
      r := FlushOrder(|orders| - 1, now);
    }

    method RescheduleOrder(order: nat, deliveryDate: int, now: int) returns (r: Result<()>)
      modifies `orders
      ensures Did(r, Market.RescheduleOrder(old(State()), order, deliveryDate, now))
    {
      if order >= |orders| {
        return Err(NotFound);
      }
      if !orders[order].status.New? && !orders[order].status.Assigned? {
        return Err(Conflict);
      }
      if !InWindow(deliveryDate, now) {
        return Err(Validation);
      }
      orders := orders[order := orders[order].(deliveryDate := deliveryDate)];
      r := FlushOrder(order, now);
    }

    method AcceptOrder(order: nat, courier: nat, now: int) returns (r: Result<()>)
      modifies `orders
      ensures Did(r, Market.AcceptOrder(old(State()), order, courier, now))
    {
      if UserWallet(courier) >= |wallets| {
        return Err(Forbidden);
      }
      if order >= |orders| {
        return Err(NotFound);
      }
      if !orders[order].status.New? {
        return Err(AlreadyAssigned);
      }
      orders := orders[order := orders[order].(courier := Some(courier))];
      orders := orders[order := orders[order].(status := Assigned)];
      r := FlushOrder(order, now);
    }

    /** An in-place status change. */
    method SetStatus(order: nat, status: OrderStatus)
      requires order < |orders|
      modifies `orders
      ensures orders == old(orders)[order := old(orders)[order].(status := status)]
    {
      orders := orders[order := orders[order].(status := status)];
    }

    method CancelOrder(order: nat, actor: nat, now: int) returns (r: Result<()>)
      modifies `orders
      ensures Did(r, Market.CancelOrder(old(State()), order, actor, now))
    {
      var o :- OrderForActor(State(), order, actor);
      var _ :- AssertTransition(o.status, Cancelled);
      SetStatus(order, Cancelled);
      r := FlushOrder(order, now);
    }

    // ---------------------------------------------------------------- app/services/invoice_service.py

    method CreateInvoice(cfg: Settings, order: nat, actor: nat, lines: seq<LineInput>, fee: nat, promo: Option<nat>,
        now: int)
      returns (r: Result<()>)
      modifies this
      ensures Did(r, Market.CreateInvoice(cfg, old(State()), order, actor, lines, fee, promo, now))
    {
      hide Pricing.InvoiceTotals, LinesValid, ValidatePromo, ActiveInvoice, DiscountableBase, Market.ReservePromo,
           AmountsNonNegative, InWindow, Uses;
      var o :- OrderForActor(State(), order, actor);
      var _ :- AssertTransition(o.status, WaitingPayment);
      if ActiveInvoice(invoices, order).Some? {
        return Err(Conflict);
      }
      if !LinesValid(cfg, lines) {
        return Err(Validation);
      }
      var pricingPromo := None;
      if promo.Some? {
        var _ :- ValidatePromo(State(), promo.value, DiscountableBase(lines, fee), o.customer, now);
        if promo.value < |promos| {
          pricingPromo := Some(promos[promo.value].pricing);
        }
      }
      var p :- Pricing.InvoiceTotals(PricingItems(lines), fee as real, pricingPromo, cfg.pricing);
      if promo.Some? && p.discount <= 0 {
        return Err(Validation);
      }
      if !AmountsNonNegative(p) {
        return Err(CheckViolation);
      }
      var redemption := None;
      if promo.Some? {
        var _ :- ReservePromo(promo.value, o.customer, now);
        Evolution.ReservesOnlyPromos(old(State()), promo.value, o.customer, now);
        redemption := Some(Redemption(promo.value, o.customer, Reserved));
      }
      r := RecordInvoice(NewInvoice(order, actor, p, promo, now + cfg.expirySeconds), redemption, now);
    }

    /** The rows of a new invoice, and its order's new status and total. */
    method RecordInvoice(inv: Invoice, redemption: Option<Redemption>, now: int) returns (r: Result<()>)
      requires inv.order < |orders|
      modifies `redemptions, `invoices, `orders
      ensures invoices == old(invoices) + [inv] && redemptions == old(redemptions) + [redemption]
      ensures orders == old(orders)[inv.order := old(orders)[inv.order].(status := WaitingPayment, total := inv.total)]
      ensures r == Require(RowAllowed(orders[inv.order], now), CheckViolation)
    {
      redemptions, invoices := redemptions + [redemption], invoices + [inv];
      SetStatus(inv.order, WaitingPayment);
      orders := orders[inv.order := orders[inv.order].(total := inv.total)];
      r := FlushOrder(inv.order, now);
    }

    method CancelInvoice(invoice: nat, courier: nat, now: int) returns (r: Result<()>)
      modifies `redemptions, `promos, `invoices, `orders
      ensures Did(r, Market.CancelInvoice(old(State()), invoice, courier, now))
    {
      hide Market.ReleasePromo;
      if invoice >= |invoices| || invoices[invoice].issuer != courier {
        return Err(NotFound);
      }
      var inv := invoices[invoice];
      if !inv.status.Issued? {
        return Err(InvalidTransition);
      }
      if inv.order >= |orders| {
        return Err(NotFound);
      }
      ReleasePromo(invoice);
      Evolution.PromoOnly(old(State()), invoice);
      invoices := invoices[invoice := inv.(status := InvoiceCancelled)];
      var _ :- AssertTransition(orders[inv.order].status, Assigned);
      SetStatus(inv.order, Assigned);
      orders := orders[inv.order := orders[inv.order].(total := 0)];
      r := FlushOrder(inv.order, now);
    }

    // ---------------------------------------------------------------- app/workers/expiry.py

    method CloseOpenIntent(invoice: nat) returns (r: Result<()>)
      requires invoice < |invoices|
      modifies `wallets, `overReleases, `intents
      ensures Did(r, Market.CloseOpenIntent(old(State()), invoice))
    {
      hide OpenIntent, MoneyOps.ReleaseHold;
      var open := OpenIntent(intents, invoice);
      if open.Some? {
        var it := intents[open.value];
        var found := FindWallet(it.user);
        if invoices[invoice].fromWallet > 0 && found {
          var _ :- ReleaseHold(UserWallet(it.user), invoices[invoice].fromWallet);
        }
        intents := intents[open.value := it.(status := IntentExpired)];
      }
      return Ok(());
    }

    /** Returns whether the invoice was expired. */
    method ExpireInvoice(invoice: nat, now: int) returns (r: Result<()>, expired: bool)
      modifies `wallets, `overReleases, `intents, `redemptions, `promos, `invoices, `orders
      ensures Did(r, Market.ExpireInvoice(old(State()), invoice, now))
      ensures r.Ok? ==> expired == (invoice < |old(invoices)| && old(invoices)[invoice].status.Issued?)
    {
      hide Market.ReleasePromo, Market.CloseOpenIntent;
      if invoice >= |invoices| || !invoices[invoice].status.Issued? {
        return Ok(()), false;
      }
      r := CloseOpenIntent(invoice);
      if r.Err? {
        return r, false;
      }
      ghost var closed := State();
      Evolution.CloseOnly(old(State()), invoice);
      ReleasePromo(invoice);
      Evolution.PromoOnly(closed, invoice);
      var inv := invoices[invoice];
      invoices := invoices[invoice := inv.(status := InvoiceExpired)];
      if inv.order < |orders| && orders[inv.order].status.WaitingPayment? {
        SetStatus(inv.order, Assigned);
        orders := orders[inv.order := orders[inv.order].(total := 0)];
        r := FlushOrder(inv.order, now);
      }
      return r, r.Ok?;
    }

    method ExpireTopup(intent: nat) returns (r: Result<()>)
      modifies `intents
      ensures Did(r, Market.ExpireTopup(old(State()), intent))
    {
      if intent < |intents| && intents[intent].purpose.WalletTopup? {
        intents := intents[intent := intents[intent].(status := IntentExpired)];
      }
      return Ok(());
    }

    // ---------------------------------------------------------------- app/services/payment_service.py

    method SettleRecord(invoice: nat, via: PaymentMethod, fromWallet: int, fromGateway: int, now: int)
        returns (r: Result<()>)
      requires invoice < |invoices|
      modifies `invoices, `orders, `redemptions
      ensures Did(r, Market.SettleRecord(old(State()), invoice, via, fromWallet, fromGateway, now))
    {
      hide OneActivePerOrder, Market.ConsumePromo;
      var inv := invoices[invoice];
      if inv.order >= |orders| {
        return Err(NotFound);
      }
      invoices := invoices[invoice := inv.(status := InvoicePaid, paymentMethod := Some(via), fromWallet := fromWallet,
                                           fromGateway := fromGateway)];
      var _ :- AssertTransition(orders[inv.order].status, InProgress);
      SetStatus(inv.order, InProgress);
      var _ :- FlushOrder(inv.order, now);
      ghost var marked := State();
      ConsumePromo(invoice);
      ConsumesAlike(old(State()), marked, invoice);
      if !OneActivePerOrder(invoices) {
        return Err(UniqueViolation);
      }
      return Ok(());
    }

    method PayInvoice(invoice: nat, actor: nat, now: int) returns (r: Result<()>)
      modifies this
      ensures Did(r, Market.PayInvoice(old(State()), invoice, actor, now))
    {
      hide MoneyOps.FundEscrow, Market.SettleRecord, MoneyOps.HoldFunds, OpenIntent, Available;
      if invoice >= |invoices| {
        return Err(NotFound);
      }
      var inv := invoices[invoice];
      var o :- OrderForActor(State(), inv.order, actor);
      if !inv.status.Issued? || now > inv.expiresAt {
        return Err(Conflict);
      }
      if !o.status.WaitingPayment? {
        return Err(InvalidTransition);
      }
      var wallet := UserWallet(actor);
      var found := FindWallet(actor);
      if !found {
        return Err(NotFound);
      }
      var fromWallet := Pricing.Min(Available(State(), wallet), inv.total);
      var fromGateway := inv.total - fromWallet;
      if fromGateway <= 0 {
        FundsRecords(State(), wallet, inv.total, 0, invoice, inv.order, None, false);
        var _ :- FundEscrow(wallet, inv.total, 0, invoice, inv.order, None, false);
        r := SettleRecord(invoice, WalletOnly, inv.total, 0, now);
        return;
      }
      if OpenIntent(intents, invoice).Some? {
        return Ok(());
      }
      var via := GatewayOnly;
      if fromWallet > 0 {
        via := Split;
        HoldsOnlyWallets(State(), wallet, fromWallet);
        var _ :- HoldFunds(wallet, fromWallet);
      }
      invoices := invoices[invoice := inv.(fromWallet := fromWallet, fromGateway := fromGateway,
          paymentMethod := Some(via))];
      intents := intents + [Intent(actor, OrderInvoice(invoice), fromGateway, IntentNew)];
      return Ok(());
    }

    method CreateTopup(cfg: Settings, user: nat, amount: real) returns (r: Result<()>)
      modifies `intents
      ensures Did(r, Market.CreateTopup(cfg, old(State()), user, amount))
    {
      hide Quantize;
      var a := Quantize(amount);
      if !(cfg.minTopup <= a <= cfg.maxTopup) {
        return Err(Validation);
      }
      var found := FindWallet(user);
      if !found {
        return Err(NotFound);
      }
      if !(10000 <= a <= 2000000) {
        return Err(CheckViolation);
      }
      intents := intents + [Intent(user, WalletTopup, a, IntentNew)];
      return Ok(());
    }

    method SettleTopup(intent: nat) returns (r: Result<()>)
      requires intent < |intents|
      modifies `wallets, `ledger
      ensures Did(r, Market.SettleTopup(old(State()), intent))
    {
      hide Ledger.PostGroup;
      var it := intents[intent];
      var found := FindWallet(it.user);
      if !found {
        return Err(NotFound);
      }
      var _ :- PostGroup(TopupLegs(UserWallet(it.user), it.amount, intent), |ledger|);
      return Ok(());
    }

    method SettleInvoice(intent: nat, invoice: nat, now: int) returns (r: Result<()>)
      requires intent < |intents|
      modifies `wallets, `ledger, `overReleases, `invoices, `orders, `redemptions
      ensures Did(r, Market.SettleInvoice(old(State()), intent, invoice, now))
    {
      hide MoneyOps.FundEscrow, Market.SettleRecord;
      var it := intents[intent];
      if invoice >= |invoices| {
        return Err(NotFound);
      }
      var inv := invoices[invoice];
      if inv.status.InvoicePaid? {
        return Ok(());
      }
      var found := FindWallet(it.user);
      if inv.order >= |orders| || !found {
        return Err(NotFound);
      }
      var wallet := UserWallet(it.user);
      FundsRecords(State(), wallet, inv.fromWallet, it.amount, invoice, inv.order, Some(intent), inv.fromWallet > 0);
      var _ :- FundEscrow(wallet, inv.fromWallet, it.amount, invoice, inv.order, Some(intent), inv.fromWallet > 0);
      r := SettleRecord(invoice, if inv.paymentMethod.Some? then inv.paymentMethod.value else GatewayOnly,
          inv.fromWallet, it.amount, now);
    }

    method Webhook(intent: nat, paid: bool, amount: Option<int>, now: int) returns (r: Result<()>)
      modifies this
      ensures Did(r, Market.Webhook(old(State()), intent, paid, amount, now))
    {
      hide Market.SettleTopup, Market.SettleInvoice;
      if intent >= |intents| {
        return Err(NotFound);
      }
      var it := intents[intent];
      if !it.status.IntentNew? {
        return Ok(());
      }
      if !paid {
        intents := intents[intent := it.(status := IntentFailed)];
        return Ok(());
      }
      if amount != Some(it.amount) {
        return Err(AmountMismatch);
      }
      match it.purpose {
        case WalletTopup =>
          var _ :- SettleTopup(intent);
        case OrderInvoice(invoice) =>
          var _ :- SettleInvoice(intent, invoice, now);
      }
      intents := intents[intent := it.(status := IntentPaid)];
      return Ok(());
    }

    // ---------------------------------------------------------------- app/services/fulfillment_service.py

    method Deliver(order: nat, actor: nat, photos: nat, inRadius: bool, now: int) returns (r: Result<()>)
      modifies `orders
      ensures Did(r, Market.Deliver(old(State()), order, actor, photos, inRadius, now))
    {
      var o :- OrderForActor(State(), order, actor);
      var _ :- AssertTransition(o.status, Delivered);
      if !(1 <= photos <= 5) || !inRadius {
        return Err(Validation);
      }
      SetStatus(order, Delivered);
      r := FlushOrder(order, now);
    }

    method CompleteAndRelease(cfg: Settings, order: nat, now: int) returns (r: Result<()>)
      requires order < |orders|
      modifies `wallets, `ledger, `orders
      ensures Did(r, Market.CompleteAndRelease(cfg, old(State()), order, now))
    {
      hide Ledger.PostGroup, PaidInvoice, SettlementOf, ReleaseLegs;
      var o := orders[order];
      var _ :- AssertTransition(o.status, Completed);
      var invoice :- PaidInvoice(State(), order);
      if o.courier.None? {
        return Err(Conflict);
      }
      var found := FindWallet(o.courier.value);
      if !found {
        return Err(NotFound);
      }
      var s := SettlementOf(cfg, invoices[invoice]);
      var _ :- ReleaseEscrow(order, invoice, UserWallet(o.courier.value), s.payout, s.tax, s.revenue);
      SetStatus(order, Completed);
      orders := orders[order := orders[order].(commission := s.commission, payout := s.payout)];
      r := FlushOrder(order, now);
    }

    method ApproveOrder(cfg: Settings, order: nat, actor: nat, now: int) returns (r: Result<()>)
      modifies `wallets, `ledger, `orders
      ensures Did(r, Market.ApproveOrder(cfg, old(State()), order, actor, now))
    {
      hide Market.CompleteAndRelease;
      var _ :- OrderForActor(State(), order, actor);
      r := CompleteAndRelease(cfg, order, now);
    }

    method AutoApprove(cfg: Settings, order: nat, now: int) returns (r: Result<()>)
      modifies `wallets, `ledger, `orders
      ensures Did(r, Market.AutoApprove(cfg, old(State()), order, now))
    {
      hide Market.CompleteAndRelease;
      if order >= |orders| || !orders[order].status.Delivered? {
        return Ok(());
      }
      r := CompleteAndRelease(cfg, order, now);
    }

    method RaiseDispute(order: nat, actor: nat, now: int) returns (r: Result<()>)
      modifies `orders, `disputes
      ensures Did(r, Market.RaiseDispute(old(State()), order, actor, now))
    {
      var o :- OrderForActor(State(), order, actor);
      if order in disputes {
        return Err(Conflict);
      }
      var _ :- AssertTransition(o.status, Disputed);
      SetStatus(order, Disputed);
      disputes := disputes[order := Open];
      r := FlushOrder(order, now);
    }

    /** Moves escrow for an outcome and returns the order's target status. */
    method ApplyOutcome(cfg: Settings, order: nat, invoice: nat, courier: nat, outcome: DisputeStatus,
        courierAmount: Option<real>)
      returns (r: Result<OrderStatus>)
      requires order < |orders| && invoice < |invoices|
      modifies `wallets, `ledger, `orders
      ensures match Market.ApplyOutcome(cfg, old(State()), order, invoice, courier, outcome, courierAmount)
              case Ok((db, row)) =>
                && r == Ok(row.status)
                && State() == db.(orders := old(orders)[order := row.(status := old(orders)[order].status)])
              case Err(e) => r == Err(e)
    {
      hide Ledger.PostGroup, SettlementOf, ReleaseLegs, RefundLegs, SplitLegs, Quantize;
      var o, total := orders[order], invoices[invoice].total;
      match outcome {
        case Open =>
          return Err(Validation);
        case ResolvedCustomer =>
          var _ :- PostGroup(RefundLegs(order, invoice, UserWallet(o.customer), total), |ledger|);
          return Ok(Refunded);
        case ResolvedCourier =>
          var s := SettlementOf(cfg, invoices[invoice]);
          var _ :- ReleaseEscrow(order, invoice, UserWallet(courier), s.payout, s.tax, s.revenue);
          orders := orders[order := o.(commission := s.commission, payout := s.payout)];
          return Ok(Completed);
        case ResolvedSplit =>
          if courierAmount.None? {
            return Err(Validation);
          }
          var share := Quantize(courierAmount.value);
          if share < 0 || share > total {
            return Err(Validation);
          }
          var _ :- SplitEscrow(order, invoice, UserWallet(courier), UserWallet(o.customer), share, total - share);
          orders := orders[order := o.(payout := share)];
          return Ok(Completed);
      }
    }

    method ResolveDispute(cfg: Settings, order: nat, outcome: DisputeStatus, courierAmount: Option<real>, now: int)
      returns (r: Result<()>)
      modifies `wallets, `ledger, `orders, `disputes
      ensures Did(r, Market.ResolveDispute(cfg, old(State()), order, outcome, courierAmount, now))
    {
      hide Market.ApplyOutcome, PaidInvoice, CanTransition;
      if order !in disputes {
        return Err(NotFound);
      }
      if !disputes[order].Open? {
        return Err(Conflict);
      }
      if order >= |orders| {
        return Err(NotFound);
      }
      var o := orders[order];
      var invoice :- PaidInvoice(State(), order);
      if o.courier.None? {
        return Err(Conflict);
      }
      var courierWallet := FindWallet(o.courier.value);
      var customerWallet := FindWallet(o.customer);
      if !courierWallet || !customerWallet {
        return Err(NotFound);
      }
      OutcomeKeepsDisputes(cfg, State(), order, invoice, o.courier.value, outcome, courierAmount);
      var target :- ApplyOutcome(cfg, order, invoice, o.courier.value, outcome, courierAmount);
      var _ :- AssertTransition(orders[order].status, target);
      SetStatus(order, target);
      disputes := disputes[order := outcome];
      r := FlushOrder(order, now);
    }

    // ---------------------------------------------------------------- app/services/withdrawal_service.py

    method RequestWithdrawal(cfg: Settings, courier: nat, amount: real, key: string) returns (r: Result<()>)
      modifies `wallets, `withdrawals
      ensures Did(r, Market.RequestWithdrawal(cfg, old(State()), courier, amount, key))
    {
      hide Quantize, HasWithdrawal, MoneyOps.HoldFunds;
      if HasWithdrawal(withdrawals, courier, key) {
        return Ok(());
      }
      var a := Quantize(amount);
      if !(cfg.minWithdrawal <= a <= cfg.maxWithdrawal) {
        return Err(Validation);
      }
      var found := FindWallet(courier);
      if !found {
        return Err(NotFound);
      }
      HoldsOnlyWallets(State(), UserWallet(courier), a);
      var _ :- HoldFunds(UserWallet(courier), a);
      withdrawals := withdrawals + [Withdrawal(courier, a, Requested, key)];
      return Ok(());
    }

    method ApproveWithdrawal(withdrawal: nat) returns (r: Result<()>)
      modifies `withdrawals
      ensures Did(r, Market.ApproveWithdrawal(old(State()), withdrawal))
    {
      if withdrawal >= |withdrawals| {
        return Err(NotFound);
      }
      if withdrawals[withdrawal].status.Approved? {
        return Ok(());
      }
      if !withdrawals[withdrawal].status.Requested? {
        return Err(InvalidTransition);
      }
      withdrawals := withdrawals[withdrawal := withdrawals[withdrawal].(status := Approved)];
      return Ok(());
    }

    method RejectWithdrawal(withdrawal: nat) returns (r: Result<()>)
      modifies `wallets, `overReleases, `withdrawals
      ensures Did(r, Market.RejectWithdrawal(old(State()), withdrawal))
    {
      if withdrawal >= |withdrawals| {
        return Err(NotFound);
      }
      var row := withdrawals[withdrawal];
      if row.status.Rejected? {
        return Ok(());
      }
      if row.status.WithdrawalPaid? {
        return Err(InvalidTransition);
      }
      var _ :- ReleaseHold(UserWallet(row.courier), row.amount);
      withdrawals := withdrawals[withdrawal := row.(status := Rejected)];
      return Ok(());
    }

    method MarkWithdrawalPaid(withdrawal: nat) returns (r: Result<()>)
      modifies `wallets, `ledger, `overReleases, `withdrawals
      ensures Did(r, Market.MarkWithdrawalPaid(old(State()), withdrawal))
    {
      hide MoneyOps.PayWithdrawal;
      if withdrawal >= |withdrawals| {
        return Err(NotFound);
      }
      var row := withdrawals[withdrawal];
      if row.status.WithdrawalPaid? {
        return Ok(());
      }
      if !row.status.Approved? {
        return Err(InvalidTransition);
      }
      PaysOnlyBooks(State(), UserWallet(row.courier), row.amount, withdrawal);
      var posted :- PayWithdrawal(UserWallet(row.courier), row.amount, withdrawal);
      if !posted {
        return Err(InvalidTransition);
      }
      withdrawals := withdrawals[withdrawal := row.(status := WithdrawalPaid)];
      return Ok(());
    }

    // ---------------------------------------------------------------- requests and sweeps

    /** One request: dispatch, then commit or roll back. */
    method Execute(request: Request) returns (r: Result<()>)
      modifies this
      ensures State() == Commit(old(State()), request)
      ensures match Step(old(State()), request) case Ok(_) => r.Ok? case Err(e) => r == Err(e)
    {
      var committed := State();
      r := Dispatch(request);
      if r.Err? {
        Rollback(committed);
      }
    }

    method Rollback(committed: Db)
      modifies this
      ensures State() == committed
    {
      wallets, ledger, orders, invoices := committed.wallets, committed.ledger, committed.orders, committed.invoices;
      redemptions, intents, disputes := committed.redemptions, committed.intents, committed.disputes;
      withdrawals, promos, overReleases := committed.withdrawals, committed.promos, committed.overReleases;
      emptySlots := committed.emptySlots;
    }

    method Dispatch(request: Request) returns (r: Result<()>)
      modifies this
      ensures Did(r, Step(old(State()), request))
    {
      hide Market.CreateInvoice, Market.CancelInvoice, Market.ExpireInvoice, Market.PayInvoice, Market.Webhook,
           Market.CreateTopup, Market.ExpireTopup, Market.Register, Market.CreateUser, Market.CreateOrder,
           Market.RescheduleOrder, Market.AcceptOrder, Market.CancelOrder, Market.CreatePromo,
           Market.SetPromoActive, Market.Deliver,
           Market.ApproveOrder, Market.AutoApprove, Market.RaiseDispute, Market.ResolveDispute,
           Market.RequestWithdrawal, Market.ApproveWithdrawal, Market.RejectWithdrawal, Market.MarkWithdrawalPaid;
      var cfg, now := request.cfg, request.now;
      match request.call {
        case CallRegister => Register(); r := Ok(());
        case CallCreateUser => CreateUser(); r := Ok(());
        case CallCreateOrder(customer, date) => r := CreateOrder(customer, date, now);
        case CallRescheduleOrder(order, date) => r := RescheduleOrder(order, date, now);
        case CallAcceptOrder(order, courier) => r := AcceptOrder(order, courier, now);
        case CallCancelOrder(order, actor) => r := CancelOrder(order, actor, now);
        case CallCreatePromo(promo) => r := CreatePromo(promo);
        case CallSetPromoActive(promo, active) => r := SetPromoActive(promo, active);
        case CallCreateInvoice(order, actor, lines, fee, promo) =>
          r := CreateInvoice(cfg, order, actor, lines, fee, promo, now);
        case CallCancelInvoice(invoice, actor) => r := CancelInvoice(invoice, actor, now);
        case CallExpireInvoice(invoice) => var expired; r, expired := ExpireInvoice(invoice, now);
        case CallPayInvoice(invoice, actor) => r := PayInvoice(invoice, actor, now);
        case CallCreateTopup(user, amount) => r := CreateTopup(cfg, user, amount);
        case CallWebhook(intent, paid, reported) => r := Webhook(intent, paid, reported, now);
        case CallExpireTopup(intent) => r := ExpireTopup(intent);
        case CallDeliver(order, actor, photos, inRadius) => r := Deliver(order, actor, photos, inRadius, now);
        case CallApproveOrder(order, actor) => r := ApproveOrder(cfg, order, actor, now);
        case CallAutoApprove(order) => r := AutoApprove(cfg, order, now);
        case CallRaiseDispute(order, actor) => r := RaiseDispute(order, actor, now);
        case CallResolveDispute(order, outcome, courierAmount) =>
          r := ResolveDispute(cfg, order, outcome, courierAmount, now);
        case CallRequestWithdrawal(courier, amount, key) => r := RequestWithdrawal(cfg, courier, amount, key);
        case CallApproveWithdrawal(withdrawal) => r := ApproveWithdrawal(withdrawal);
        case CallRejectWithdrawal(withdrawal) => r := RejectWithdrawal(withdrawal);
        case CallMarkWithdrawalPaid(withdrawal) => r := MarkWithdrawalPaid(withdrawal);
      }
    }

    /** A whole run of requests: from the seeded database it ends in the state the theorems speak about. */
    method Serve(calls: seq<Request>)
      modifies this
      ensures State() == Run(old(State()), calls)
      ensures old(State()) == Seeded() && AllValid(calls) ==> Inv(State()) && WalletLaw(State())
    {
      hide Commit, Inv, WalletLaw;
      for i := 0 to |calls|
        invariant State() == Run(old(State()), calls[..i])
      {
        var _ := Execute(calls[i]);
        assert calls[..i + 1][..i] == calls[..i];
      }
      assert calls[..|calls|] == calls;
      if AllValid(calls) {
        RunKeepsInv(calls);
      }
    }

    /** One lapsed invoice, in a transaction of its own: a failure is rolled back and does not stall the sweep. */
    method ExpireOne(invoice: nat, now: int) returns (expired: bool)
      modifies this
      ensures State() == Swept(old(State()), invoice, now)
      ensures expired <==>
                && invoice < |old(invoices)| && old(invoices)[invoice].status.Issued?
                && Market.ExpireInvoice(old(State()), invoice, now).Ok?
    {
      var committed := State();
      var r;
      r, expired := ExpireInvoice(invoice, now);
      if r.Err? {
        Rollback(committed);
        expired := false;
      }
    }

    /** The sweep over the invoices that were listed: as many leave ISSUED as it counts. */
    method ExpireStale(ids: seq<nat>, now: int) returns (count: nat)
      modifies this
      ensures State() == SweptAll(old(State()), ids, now)
      ensures IssuedCount(invoices) == IssuedCount(old(invoices)) - count
    {
      hide Swept, IssuedCount;
      count := 0;
      for i := 0 to |ids|
        invariant State() == SweptAll(old(State()), ids[..i], now)
        invariant IssuedCount(invoices) == IssuedCount(old(invoices)) - count
      {
        ghost var before := State();
        var expired := ExpireOne(ids[i], now);
        SweptCounts(before, ids[i], now);
        assert ids[..i + 1][..i] == ids[..i];
        if expired {
          count := count + 1;
        }
      }
      assert ids[..|ids|] == ids;
    }
  }

  // ------------------------------------------------------------------ posting

  lemma NoLegs(wallets: seq<Wallet>, legs: seq<Leg>)
    ensures ApplyLegs(wallets, legs[..0]) == wallets
  {
  }

  /** What the next leg adds to the wallets ... */
  lemma {:induction false} OneWallet(wallets: seq<Wallet>, legs: seq<Leg>, i: nat)
    requires WalletsExist(|wallets|, legs) && i < |legs|
    ensures var applied, leg := ApplyLegs(wallets, legs[..i]), legs[i];
            ApplyLegs(wallets, legs[..i + 1])
            == applied[leg.wallet := applied[leg.wallet]
                                       .(balance := Quantize(applied[leg.wallet].balance as real + leg.amount))]
  {
    hide Quantize;
    assert legs[..i + 1][..i] == legs[..i];
  }

  /** ... and to the ledger. */
  lemma {:induction false} OneRow(wallets: seq<Wallet>, legs: seq<Leg>, correlation: nat, i: nat)
    requires WalletsExist(|wallets|, legs) && i < |legs|
    ensures var applied, leg, rows := ApplyLegs(wallets, legs[..i + 1]), legs[i], RowsOf(wallets, legs, correlation);
            rows[..i + 1] == rows[..i] + [Row(Ledger.Posted(leg, correlation), applied[leg.wallet].balance)]
  {
    hide Quantize, ApplyLegs;
  }

  // ------------------------------------------------------------------ the sweep

  function Swept(db: Db, invoice: nat, now: int): Db {
    var r := Market.ExpireInvoice(db, invoice, now);
    if r.Ok? then r.value else db
  }

  function SweptAll(db: Db, ids: seq<nat>, now: int): Db {
    if |ids| == 0 then db else Swept(SweptAll(db, ids[..|ids| - 1], now), ids[|ids| - 1], now)
  }

  function IssuedTerms(invoices: seq<Invoice>): (r: seq<int>)
    ensures |r| == |invoices|
  {
    seq(|invoices|, i requires 0 <= i < |invoices| => if invoices[i].status.Issued? then 1 else 0)
  }

  function IssuedCount(invoices: seq<Invoice>): int {
    Sum(IssuedTerms(invoices))
  }

  lemma SweptCounts(db: Db, invoice: nat, now: int)
    ensures IssuedCount(Swept(db, invoice, now).invoices)
         == IssuedCount(db.invoices)
            - (if invoice < |db.invoices| && db.invoices[invoice].status.Issued?
                && Market.ExpireInvoice(db, invoice, now).Ok? then 1 else 0)
  {
    hide Sum, Market.CloseOpenIntent, Market.ReleasePromo;
    var db' := Swept(db, invoice, now);
    if invoice < |db.invoices| && db.invoices[invoice].status.Issued? && Market.ExpireInvoice(db, invoice, now).Ok? {
      assert IssuedTerms(db'.invoices) == IssuedTerms(db.invoices)[invoice := 0];
      SumUpdate(IssuedTerms(db.invoices), invoice, 0);
    }
  }

  // ------------------------------------------------------------------ which tables the money operations touch

  lemma ConsumesAlike(db: Db, marked: Db, invoice: nat)
    requires marked.redemptions == db.redemptions
    ensures Market.ConsumePromo(marked, invoice) == marked.(redemptions := Market.ConsumePromo(db, invoice).redemptions)
    ensures Market.ConsumePromo(db, invoice) == db.(redemptions := Market.ConsumePromo(db, invoice).redemptions)
  {
  }

  lemma FundsRecords(db: Db, w: nat, fromWallet: int, fromGateway: int, i: nat, o: nat, intent: Option<nat>,
      wasHeld: bool)
    ensures var r := MoneyOps.FundEscrow(db, w, fromWallet, fromGateway, i, o, intent, wasHeld);
            r.Ok? ==> r.value == db.(wallets := r.value.wallets, ledger := r.value.ledger,
                overReleases := r.value.overReleases)
  {
    hide WellFormed, AnyKeyExists, Overdrawn, ApplyLegs, RowsOf, FundLegs;
  }

  lemma HoldsOnlyWallets(db: Db, w: nat, amount: int)
    ensures var r := MoneyOps.HoldFunds(db, w, amount); r.Ok? ==> r.value == db.(wallets := r.value.wallets)
  {
  }

  lemma PaysOnlyBooks(db: Db, w: nat, amount: int, k: nat)
    ensures var r := MoneyOps.PayWithdrawal(db, w, amount, k);
            r.Ok? ==> r.value.0 == db.(wallets := r.value.0.wallets, ledger := r.value.0.ledger,
                overReleases := r.value.0.overReleases)
  {
    hide WellFormed, AnyKeyExists, Overdrawn, ApplyLegs, RowsOf, PayoutLegs;
  }

  lemma OutcomeKeepsDisputes(cfg: Settings, db: Db, o: nat, i: nat, courier: nat, outcome: DisputeStatus,
      courierAmount: Option<real>)
    requires o < |db.orders| && i < |db.invoices|
    ensures var r := Market.ApplyOutcome(cfg, db, o, i, courier, outcome, courierAmount);
            r.Ok? ==> && r.value.0 == db.(wallets := r.value.0.wallets, ledger := r.value.0.ledger)
  {
    hide WellFormed, AnyKeyExists, Overdrawn, ApplyLegs, RowsOf, RefundLegs, ReleaseLegs, SplitLegs, SettlementOf,
         Quantize;
  }
}
