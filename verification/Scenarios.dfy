/** Runs from the seeded database that reach the states one might not expect. */
module Scenarios {
  import opened Results
  import opened Sums
  import opened Money
  import opened Tables
  import opened OrderState
  import opened Ledger
  import opened MoneyOps
  import opened Market
  import opened Laws
  import opened FlowProofs
  import opened HoldProofs
  import opened MoneyProofs
  import opened Outcomes
  import opened Issuing
  import opened Theorems
  import opened Lifetimes
  import opened Reservations
  import Movements
  import Evolution
  import Pricing
  import PricingTheorems

  /** Settings the validator accepts: no service fee, no VAT. */
  function Shop(commissionRate: real): Settings {
    Settings(Pricing.Config(0.0, 0, 0, 0.0, 5000000), commissionRate, 172800, 20, 5000000, 10000, 2000000, 5000,
        2000000)
  }

  function OneLine(price: int): seq<LineInput> {
    [LineInput(price, 1, 0.0)]
  }

  const CUSTOMER: nat := 0
  const COURIER: nat := 1

  /** What a scenario varies: the commission rate, a price, and whether the courier registered or was created in the
      dashboard. */
  datatype Case = Case(rate: real, price: int, registered: bool) {
    predicate Valid() {
      0 < price <= 5000000 && Shop(rate).Valid()
    }
  }

  function At(c: Case, call: Call): Request {
    Request(Shop(c.rate), 0, call)
  }

  lemma RunExtends(requests: seq<Request>, request: Request)
    ensures Run(Seeded(), requests + [request]) == Commit(Run(Seeded(), requests), request)
  {
    assert (requests + [request])[..|requests|] == requests;
  }

  // ------------------------------------------------------------------ up to the invoice

  function CourierJoins(c: Case): Call {
    if c.registered then CallRegister else CallCreateUser
  }

  /** Two users, an order for today, accepted. */
  function Assigning(c: Case): seq<Request> {
    [At(c, CallRegister), At(c, CourierJoins(c)), At(c, CallCreateOrder(CUSTOMER, 0)),
     At(c, CallAcceptOrder(0, COURIER))]
  }

  function AssignedDb(c: Case): Db {
    var empty := Wallet(0, 0);
    Db([empty, empty, empty, empty, empty, empty], [], [Order(CUSTOMER, Some(COURIER), Assigned, 0, 0, 0, 0)], [], [],
        [], map[], [], [], 0, if c.registered then {} else {UserWallet(COURIER)})
  }

  lemma {:induction false} AssigningReaches(c: Case)
    ensures Run(Seeded(), Assigning(c)) == AssignedDb(c)
  {
    hide Run;
    var r0, r1 := [At(c, CallRegister), At(c, CourierJoins(c))], At(c, CallCreateOrder(CUSTOMER, 0));
    var r2 := At(c, CallAcceptOrder(0, COURIER));
    Joined(c);
    RunExtends(r0, r1);
    RunExtends(r0 + [r1], r2);
    assert r0 + [r1] + [r2] == Assigning(c);
  }

  lemma {:induction false} Joined(c: Case)
    ensures Run(Seeded(), [At(c, CallRegister), At(c, CourierJoins(c))]) == AssignedDb(c).(orders := [])
  {
    var r0, r1 := At(c, CallRegister), At(c, CourierJoins(c));
    RunExtends([], r0);
    RunExtends([r0], r1);
    assert [] + [r0] == [r0] && [r0] + [r1] == [r0, r1];
  }

  /** A single untaxed line is priced at its price. */
  lemma {:induction false} PlainPrice(rate: real, price: int)
    requires 0 < price
    ensures var p := PriceGiven(Shop(rate), OneLine(price), 0, 0);
            p.itemsNet == price && p.courierFee == p.serviceFee == p.discount == p.tax == 0 && p.total == price
  {
    var items, cfg := PricingItems(OneLine(price)), Shop(rate).pricing;
    assert items == [Pricing.Item(price as real, 1, 0.0, 1)];
    QuantizeOnGrid(price);
    QuantizeOnGrid(0);
    assert Pricing.LineNets(items) == [price];
    SumAppend([], price);
    assert [] + [price] == [price];
    var p := Pricing.Price(items, 0.0, 0, cfg);
    assert p.lines[0].tax == 0;
    assert Pricing.LineTaxes(p.lines) == [0];
    SumAppend([], 0);
    assert [] + [0] == [0];
  }

  function IssuedInvoice(price: int): Invoice {
    Invoice(0, COURIER, Issued, price, 0, 0, 0, 0, price, None, 0, 0, None, 172800)
  }

  function Opening(c: Case): seq<Request> {
    Assigning(c) + [At(c, CallCreateInvoice(0, COURIER, OneLine(c.price), 0, None))]
  }

  function OpenedDb(c: Case): Db {
    AssignedDb(c).(orders := [Order(CUSTOMER, Some(COURIER), WaitingPayment, c.price, 0, 0, 0)],
                  invoices := [IssuedInvoice(c.price)], redemptions := [None])
  }

  lemma {:induction false} OpeningReaches(c: Case)
    requires c.Valid()
    ensures Run(Seeded(), Opening(c)) == OpenedDb(c)
  {
    hide Pricing.InvoiceTotals, Pricing.Price, Run, Quantize, Sum;
    var cfg, db := Shop(c.rate), AssignedDb(c);
    AssigningReaches(c);
    PlainPrice(c.rate, c.price);
    EngineOutcome(cfg, db, OneLine(c.price), 0, None);
    PlainDiscount(db, OneLine(c.price), 0);
    RunExtends(Assigning(c), At(c, CallCreateInvoice(0, COURIER, OneLine(c.price), 0, None)));
  }

  // ------------------------------------------------------------------ up to the payment

  function Pending(c: Case): seq<Request> {
    Opening(c) + [At(c, CallPayInvoice(0, CUSTOMER))]
  }

  function PendingDb(c: Case): Db {
    OpenedDb(c).(
      invoices := [IssuedInvoice(c.price).(fromGateway := c.price, paymentMethod := Some(GatewayOnly))],
      intents := [Intent(CUSTOMER, OrderInvoice(0), c.price, IntentNew)])
  }

  lemma {:induction false} PendingReaches(c: Case)
    requires c.Valid()
    ensures Run(Seeded(), Pending(c)) == PendingDb(c)
  {
    hide Run, FundEscrow;
    OpeningReaches(c);
    RunExtends(Opening(c), At(c, CallPayInvoice(0, CUSTOMER)));
  }

  function Paying(c: Case): seq<Request> {
    Pending(c) + [At(c, CallWebhook(0, true, Some(c.price)))]
  }

  /** The order of the scenario after payment, with its PAID invoice. */
  ghost predicate PaidFor(db: Db, price: int, status: OrderStatus) {
    && db.orders == [Order(CUSTOMER, Some(COURIER), status, price, 0, 0, 0)]
    && |db.invoices| == 1 && db.invoices[0].order == 0 && db.invoices[0].status.InvoicePaid?
    && db.invoices[0].itemsNet == db.invoices[0].total == price && db.invoices[0].courierFee == 0
  }

  lemma {:induction false} PayingReaches(c: Case)
    requires c.Valid()
    ensures var db := Run(Seeded(), Paying(c));
            && Inv(db) && PaidFor(db, c.price, InProgress) && db.disputes == map[]
            && db.emptySlots == AssignedDb(c).emptySlots && |db.wallets| == 6
  {
    hide Run, Inv, Webhook, Movements.Delta;
    var before := PendingDb(c);
    PendingReaches(c);
    RunKeepsInv(Pending(c));
    RunKeepsInv(Paying(c));
    WebhookOutcome(before, 0, true, Some(c.price), 0);
    RunExtends(Pending(c), At(c, CallWebhook(0, true, Some(c.price))));
  }

  function Delivering(c: Case): seq<Request> {
    Paying(c) + [At(c, CallDeliver(0, COURIER, 1, true))]
  }

  lemma {:induction false} DeliveringReaches(c: Case)
    requires c.Valid()
    ensures var db := Run(Seeded(), Delivering(c));
            && Inv(db) && PaidFor(db, c.price, Delivered)
            && db.emptySlots == AssignedDb(c).emptySlots && |db.wallets| == 6
  {
    hide Run, Inv;
    PayingReaches(c);
    RunKeepsInv(Delivering(c));
    RunExtends(Paying(c), At(c, CallDeliver(0, COURIER, 1, true)));
  }

  // ------------------------------------------------------------------ past the delivery date

  /** The order is delivered on its day and nobody approves it that day. Whatever is called from the next day on, it
      stays DELIVERED and its money in escrow; automatic approval, due after three days, is refused. */
  lemma {:induction false} EscrowCanStrand(c: Case, rest: seq<Request>)
    requires c.Valid() && AllValid(rest) && ClockForward(rest)
    requires forall i :: 0 <= i < |rest| ==> rest[i].now >= 86400
    ensures var db := Run(Seeded(), Delivering(c) + rest);
            && |db.orders| > 0 && db.orders[0] == Order(CUSTOMER, Some(COURIER), Delivered, c.price, 0, 0, 0)
            && Trail(Entries(db.ledger), EscrowOf(0)) == [ActiveTotal(db.invoices, 0)]
                && ActiveTotal(db.invoices, 0) > 0
            && forall now :: now >= 86400 ==> AutoApprove(Shop(c.rate), db, 0, now).Err?
  {
    hide Run, Inv, Trail, ActiveTotal, AutoApprove;
    var cfg, first := Shop(c.rate), Delivering(c);
    var all, k := first + rest, |first|;
    DeliveringReaches(c);
    assert all[..k] == first;
    FirstDay(c);
    assert ClockForward(all);
    assert k < |all| ==> all[k] == rest[0];
    LateOrdersFreeze(all, k, 0);
    LateEscrowIsStranded(all, k, 0);
    RunKeepsInv(all);
    forall now | now >= 86400 ensures AutoApprove(cfg, Run(Seeded(), all), 0, now).Err? {
      LateIsRefused(cfg, Run(Seeded(), all), 0, now);
    }
  }

  lemma FirstDay(c: Case)
    ensures ClockForward(Delivering(c))
    ensures forall i :: 0 <= i < |Delivering(c)| ==> Delivering(c)[i].now == 0
  {
  }

  lemma LateIsRefused(cfg: Settings, db: Db, o: nat, now: int)
    requires cfg.Valid() && Inv(db) && o < |db.orders| && db.orders[o].status.Delivered? && PastDate(db.orders[o], now)
    ensures AutoApprove(cfg, db, o, now).Err?
  {
    hide Inv, CompleteAndRelease, PaidInvoice, Vanishes, Moves;
    CompletionOutcome(cfg, db, o, now);
  }

  /** The customer starts a gateway payment on the delivery day and completes it the next: over every continuation the
      order waits and the payment is refused, however often it is reported. */
  lemma {:induction false} PaymentCanStrand(c: Case, rest: seq<Request>, now: int)
    requires c.Valid() && AllValid(rest) && ClockForward(rest) && now >= 86400
    requires forall i :: 0 <= i < |rest| ==> rest[i].now >= 86400
    ensures var db := Run(Seeded(), Pending(c) + rest);
            && Waiting(db, 0) && 0 < |db.intents| && db.intents[0].purpose == OrderInvoice(0)
            && (db.intents[0].status.IntentNew? ==> Webhook(db, 0, true, Some(c.price), now).Err?)
  {
    hide Run, Inv, Webhook, Evolution.NoLateCredit, Evolution.OrdersEvolve, Evolution.InvoicesEvolve,
         Evolution.WithdrawalsEvolve, Evolution.DisputesEvolve, Evolution.OrphansStayOpen, Booked;
    var first := Pending(c);
    var all, k := first + rest, |first|;
    PendingReaches(c);
    assert all[..k] == first;
    FirstDay(c);
    assert first == Delivering(c)[..k];
    assert ClockForward(all);
    assert k < |all| ==> all[k] == rest[0];
    LateInvoiceIsStranded(all, k, 0);
    RunEvolves(all, k);
    RunKeepsInv(all);
    var db := Run(Seeded(), all);
    assert Evolution.IntentEvolves(PendingDb(c).intents[0], db.intents[0]);
    WebhookOutcome(db, 0, true, Some(c.price), now);
  }

  // ------------------------------------------------------------------ a courier without a wallet

  /** The dashboard creates the courier, who accepts the order; the customer pays. Over every continuation the money
      stays in escrow: no approval commits, and no resolution of a dispute, not even the full refund. */
  lemma {:induction false} WalletlessCourierStrandsEscrow(
      c: Case, rest: seq<Request>, cfg: Settings, actor: nat, outcome: DisputeStatus, courierAmount: Option<real>,
      now: int)
    requires c.Valid() && !c.registered && AllValid(rest) && cfg.Valid()
    ensures var db := Run(Seeded(), Paying(c) + rest);
            && |db.orders| > 0 && Funded(db.orders[0].status)
            && ActiveTotal(db.invoices, 0) > 0
            && Trail(Entries(db.ledger), EscrowOf(0)) == [ActiveTotal(db.invoices, 0)]
            && ApproveOrder(cfg, db, 0, actor, now).Err?
            && (db.orders[0].status.Delivered? ==> AutoApprove(cfg, db, 0, now).Err?)
            && ResolveDispute(cfg, db, 0, outcome, courierAmount, now).Err?
  {
    hide Run, Inv, CompleteAndRelease, ResolveDispute, Trail, ActiveTotal;
    PayingReaches(c);
    var all := Paying(c) + rest;
    assert all[..|Paying(c)|] == Paying(c);
    WalletlessEscrowIsStranded(all, |Paying(c)|, 0, cfg, outcome, courierAmount, now);
  }

  // ------------------------------------------------------------------ a payout that rounds to zero

  /** One halala at a commission of one half: the delivered order can be approved neither by a participant nor
      automatically, at any time. */
  lemma {:induction false} PayoutCanVanish(actor: nat, now: int)
    ensures var c := Case(0.5, 1, true);
            var db := Run(Seeded(), Delivering(c));
            && Inv(db) && PaidFor(db, 1, Delivered)
            && ApproveOrder(Shop(0.5), db, 0, actor, now).Err?
            && AutoApprove(Shop(0.5), db, 0, now) == Err(LedgerImbalance)
  {
    hide Run, Inv, CompleteAndRelease, PaidInvoice, Moves;
    var c := Case(0.5, 1, true);
    DeliveringReaches(c);
    var db := Run(Seeded(), Delivering(c));
    CompletionOutcome(Shop(0.5), db, 0, now);
    PaidIs(db);
  }

  lemma PaidIs(db: Db)
    requires |db.invoices| == 1 && PaidInvoice(db, 0).Ok?
    ensures PaidInvoice(db, 0) == Ok(0)
  {
    hide ActiveInvoice;
  }

  // ------------------------------------------------------------------ an approved dispute

  function Disputing(c: Case): seq<Request> {
    Paying(c) + [At(c, CallRaiseDispute(0, CUSTOMER))]
  }

  function ApprovingDispute(c: Case): seq<Request> {
    Disputing(c) + [At(c, CallApproveOrder(0, CUSTOMER))]
  }

  lemma {:induction false} DisputingReaches(c: Case)
    requires c.Valid()
    ensures var db := Run(Seeded(), Disputing(c));
            && Inv(db) && PaidFor(db, c.price, Disputed) && db.disputes == map[0 := Open]
            && db.emptySlots == AssignedDb(c).emptySlots && |db.wallets| == 6
  {
    hide Run, Inv;
    PayingReaches(c);
    RunExtends(Paying(c), At(c, CallRaiseDispute(0, CUSTOMER)));
    RunKeepsInv(Disputing(c));
    assert Run(Seeded(), Disputing(c)).disputes == map[0 := Open];
  }

  /** The customer disputes the order and then approves it: the courier is paid, the dispute stays open, and over
      every continuation no resolution of it commits. */
  lemma {:induction false} DisputeCanBeOrphaned(
      c: Case, rest: seq<Request>, cfg: Settings, outcome: DisputeStatus, courierAmount: Option<real>, now: int)
    requires c.Valid() && c.rate == 0.0 && c.registered && AllValid(rest) && cfg.Valid()
    ensures var db, late := Run(Seeded(), ApprovingDispute(c)), Run(Seeded(), ApprovingDispute(c) + rest);
            && |db.orders| == 1 && db.orders[0].status.Completed? && db.orders[0].payout == c.price
            && 0 in late.disputes && late.disputes[0].Open?
            && ResolveDispute(cfg, late, 0, outcome, courierAmount, now).Err?
  {
    hide Run, Inv, CompleteAndRelease, PaidInvoice, Moves, ResolveDispute;
    DisputingReaches(c);
    var disputed := Run(Seeded(), Disputing(c));
    CompletionOutcome(Shop(0.0), disputed, 0, 0);
    PaidIs(disputed);
    NoCommission(disputed.invoices[0]);
    RunExtends(Disputing(c), At(c, CallApproveOrder(0, CUSTOMER)));
    var all := ApprovingDispute(c) + rest;
    assert all[..|ApprovingDispute(c)|] == ApprovingDispute(c);
    OrphanedDisputeStaysOpen(all, |ApprovingDispute(c)|, 0, cfg, outcome, courierAmount, now);
  }

  lemma NoCommission(inv: Invoice)
    ensures SettlementOf(Shop(0.0), inv).payout == inv.itemsNet + inv.courierFee
  {
    assert (inv.itemsNet + inv.courierFee) as real * 0.0 == 0.0;
    QuantizeOnGrid(0);
  }

  // ------------------------------------------------------------------ a payment that comes too late

  function Retiring(c: Case): seq<Request> {
    Pending(c) + [At(c, CallCancelInvoice(0, COURIER))]
  }

  /** The courier cancels the invoice while the customer is at the gateway: over every continuation the payment is
      refused or ignored. */
  lemma {:induction false} PaymentCanBeLost(c: Case, rest: seq<Request>, now: int)
    requires c.Valid() && AllValid(rest)
    ensures var db, late := Run(Seeded(), Retiring(c)),
        Run(Seeded(), Retiring(c) + rest);
            && |db.intents| == 1 && db.intents[0] == Intent(CUSTOMER, OrderInvoice(0), c.price, IntentNew)
            && 0 < |late.intents|
            && (late.intents[0].status.IntentNew? ==> Webhook(late, 0, true, Some(c.price), now).Err?)
            && (!late.intents[0].status.IntentNew? ==> Webhook(late, 0, true, Some(c.price), now) == Ok(late))
  {
    hide Run, Inv, Webhook;
    PendingReaches(c);
    RunExtends(Pending(c), At(c, CallCancelInvoice(0, COURIER)));
    var all := Retiring(c) + rest;
    assert all[..|Retiring(c)|] == Retiring(c);
    LatePaymentNeverBooked(all, |Retiring(c)|, 0, Some(c.price), now);
  }

  // ------------------------------------------------------------------ a reservation that is dropped

  function ToppedUp(c: Case): seq<Request> {
    Opening(c) + [At(c, CallCreateTopup(CUSTOMER, 10000.0))] + [At(c, CallWebhook(0, true, Some(10000)))]
  }

  function Dropping(c: Case): seq<Request> {
    Holding(c) + [At(c, CallWebhook(1, false, None))]
  }

  lemma {:induction false} ToppedUpReaches(c: Case)
    requires c.Valid() && c.price == 20000
    ensures var db := Run(Seeded(), ToppedUp(c));
            && |db.wallets| == 6 && db.wallets[UserWallet(CUSTOMER)] == Wallet(10000, 0)
            && db.intents == [Intent(CUSTOMER, WalletTopup, 10000, IntentPaid)]
            && db.orders == OpenedDb(c).orders && db.invoices == OpenedDb(c).invoices && db.withdrawals == []
            && db.emptySlots == OpenedDb(c).emptySlots
  {
    hide Run, Inv, SettleTopup;
    var r0, r1 := At(c, CallCreateTopup(CUSTOMER, 10000.0)), At(c, CallWebhook(0, true, Some(10000)));
    OpeningReaches(c);
    QuantizeOnGrid(10000);
    RunExtends(Opening(c), r0);
    RunExtends(Opening(c) + [r0], r1);
    RunKeepsInv(Opening(c) + [r0]);
    var before := OpenedDb(c).(intents := [Intent(CUSTOMER, WalletTopup, 10000, IntentNew)]);
    assert Run(Seeded(), Opening(c) + [r0]) == before;
    SettleTopupOutcome(before, 0);
  }

  function Holding(c: Case): seq<Request> {
    ToppedUp(c) + [At(c, CallPayInvoice(0, CUSTOMER))]
  }

  lemma {:induction false} HoldingReaches(c: Case)
    requires c.Valid() && c.price == 20000
    ensures var db := Run(Seeded(), Holding(c));
            && |db.wallets| == 6 && db.wallets[UserWallet(CUSTOMER)] == Wallet(10000, 10000)
            && |db.intents| == 2 && db.intents[1] == Intent(CUSTOMER, OrderInvoice(0), 10000, IntentNew)
            && !db.intents[0].status.IntentNew? && db.orders == OpenedDb(c).orders && db.withdrawals == []
            && |db.invoices| == 1 && db.invoices[0].order == 0 && db.invoices[0].status.Issued?
            && db.invoices[0].fromWallet == 10000
  {
    hide Run, Inv, FundEscrow;
    ToppedUpReaches(c);
    RunExtends(ToppedUp(c), At(c, CallPayInvoice(0, CUSTOMER)));
  }

  /** The customer starts a payment on the delivery day, half of it from the wallet, and does not finish it that day.
      Whatever is called from the next day on, the wallet portion stays held. */
  lemma {:induction false} HoldCanStrand(c: Case, rest: seq<Request>)
    requires c.Valid() && c.price == 20000 && AllValid(rest) && ClockForward(rest)
    requires forall i :: 0 <= i < |rest| ==> rest[i].now >= 86400
    ensures var db := Run(Seeded(), Holding(c) + rest);
            UserWallet(CUSTOMER) < |db.wallets| && db.wallets[UserWallet(CUSTOMER)].held >= 10000
  {
    hide Run;
    HoldingReaches(c);
    var all, k := Holding(c) + rest, |Holding(c)|;
    assert all[..k] == Holding(c);
    assert ClockForward(all);
    assert k < |all| ==> all[k] == rest[0];
    LateHoldIsStranded(all, k, 1, 0);
  }

  /** The gateway reports a failure: the payment's wallet portion stays held although nothing reserves it. */
  lemma {:induction false} ReservationCanBeDropped(c: Case)
    requires c.Valid() && c.price == 20000
    ensures var db := Run(Seeded(), Dropping(c));
            && |db.wallets| == 6 && db.wallets[UserWallet(CUSTOMER)] == Wallet(10000, 10000)
            && LiveHolds(db.intents, db.invoices, db.withdrawals, CUSTOMER) == 0
  {
    hide Run, Inv, SettleInvoice, SettleTopup;
    HoldingReaches(c);
    RunExtends(Holding(c), At(c, CallWebhook(1, false, None)));
    var db := Run(Seeded(), Dropping(c));
    SumZero(IntentHolds(db.intents, db.invoices, CUSTOMER));
    SumZero(WithdrawalHolds(db.withdrawals, CUSTOMER));
  }

  // ------------------------------------------------------------------ promos

  function FixedPromo(amount: int): Promo {
    Promo(Pricing.Promo(Pricing.Fixed, None, Some(amount), None), 0, None, 1, 0, true, None, None)
  }

  function Promoting(c: Case, amount: int): seq<Request> {
    Assigning(c) + [At(c, CallCreatePromo(FixedPromo(amount)))]
  }

  lemma PromotingReaches(c: Case, amount: int)
    requires amount > 0
    ensures Run(Seeded(), Promoting(c, amount)) == AssignedDb(c).(promos := [FixedPromo(amount)])
  {
    hide Run;
    AssigningReaches(c);
    RunExtends(Assigning(c), At(c, CallCreatePromo(FixedPromo(amount))));
  }

  /** Five lines of one halala, the last taxed in full. */
  function FiveLines(): seq<LineInput> {
    [LineInput(1, 1, 0.0), LineInput(1, 1, 0.0), LineInput(1, 1, 0.0), LineInput(1, 1, 0.0), LineInput(1, 1, 1.0)]
  }

  lemma {:induction false} FiveNets()
    ensures Pricing.LineNets(PricingItems(FiveLines())) == [1, 1, 1, 1, 1]
    ensures Sum([1, 1, 1, 1, 1]) == 5 && Sum([1, 1, 1, 1, 1, 0]) == 5
  {
    QuantizeOnGrid(1);
    PricingTheorems.SumOfFive(1, 1, 1, 1, 1);
    SumAppend([1, 1, 1, 1, 1], 0);
    assert [1, 1, 1, 1, 1] + [0] == [1, 1, 1, 1, 1, 0];
  }

  /** A discount of two falls on the last line alone. */
  lemma {:induction false} FiveAllocated()
    ensures Pricing.Absorber([1, 1, 1, 1, 1], 0) == 4
    ensures Pricing.Allocation([1, 1, 1, 1, 1, 0], 2, 4) == [0, 0, 0, 0, 2, 0]
  {
    var comps := [1, 1, 1, 1, 1, 0];
    FiveNets();
    assert Pricing.OtherShares(comps, 2, 4) == [0, 0, 0, 0, 0, 0];
    SumZero([0, 0, 0, 0, 0, 0]);
  }

  /** The last line's tax, and with it the invoice's, is minus one. */
  lemma {:induction false} FivePriced(c: Case)
    ensures var p := PriceGiven(Shop(c.rate), FiveLines(), 0, 2); p.tax == -1 && p.total == 2 && p.discount == 2
  {
    hide Pricing.Allocation, Pricing.Absorber, Quantize, Pricing.Part, Pricing.Tax, Sum, Pricing.LineNet;
    var items := PricingItems(FiveLines());
    FiveNets();
    FiveAllocated();
    QuantizeOnGrid(0);
    TaxAtTheEnds(1);
    TaxAtTheEnds(0);
    TaxAtTheEnds(-1);
    var p := Pricing.Price(items, 0.0, 2, Shop(c.rate).pricing);
    assert Pricing.Components([1, 1, 1, 1, 1], 0) == [1, 1, 1, 1, 1, 0];
    LineTaxAt(items, 0.0, 2, Shop(c.rate).pricing);
    assert Pricing.LineTaxes(p.lines) == [0, 0, 0, 0, -1];
    PricingTheorems.SumOfFive(0, 0, 0, 0, -1);
  }

  /** A line's tax in terms of nets and allocation. */
  lemma LineTaxAt(items: seq<Pricing.Item>, fee: real, d: int, cfg: Pricing.Config)
    ensures var p, nets := Pricing.Price(items, fee, d, cfg), Pricing.LineNets(items);
            var alloc := Pricing.Allocation(Pricing.Components(nets, Quantize(fee)), d,
                Pricing.Absorber(nets, Quantize(fee)));
            forall i :: 0 <= i < |items| ==> p.lines[i].tax == Pricing.Tax(nets[i] - alloc[i], items[i].taxRate)
  {
    hide Pricing.Allocation, Pricing.Absorber, Quantize, Pricing.Part, Pricing.Tax, Sum, Pricing.LineNet,
         Pricing.ServiceFee;
  }

  /** No tax at a rate of zero, everything at a rate of one. */
  lemma TaxAtTheEnds(n: int)
    ensures Pricing.Tax(n, 0.0) == 0 && Pricing.Tax(n, 1.0) == n
  {
    QuantizeOnGrid(0);
    QuantizeOnGrid(n);
  }

  /** A promo that passes every check, and a price the engine accepts; the database refuses the invoice for its
      negative tax. */
  lemma {:induction false} PromoCanBeRefused(c: Case)
    requires c.Valid()
    ensures var cfg := Shop(c.rate);
            var db := Run(Seeded(), Promoting(c, 2));
            && ValidatePromo(db, 0, DiscountableBase(FiveLines(), 0), CUSTOMER, 0).Ok?
            && Pricing.InvoiceTotals(PricingItems(FiveLines()), 0.0, Some(FixedPromo(2).pricing), cfg.pricing).Ok?
            && CreateInvoice(cfg, db, 0, COURIER, FiveLines(), 0, Some(0), 0) == Err(CheckViolation)
  {
    hide Run, Pricing.InvoiceTotals, Pricing.Price, Quantize, Sum;
    var cfg := Shop(c.rate);
    PromotingReaches(c, 2);
    var db := AssignedDb(c).(promos := [FixedPromo(2)]);
    FiveNets();
    FivePriced(c);
    NoUsesYet(0, CUSTOMER);
    assert DiscountGiven(db, FiveLines(), 0, Some(0)) == Ok(2);
    EngineOutcome(cfg, db, FiveLines(), 0, Some(0));
  }

  lemma NoUsesYet(promo: nat, user: nat)
    ensures Uses([], promo, Some(user)) == 0
  {
  }

  // ------------------------------------------------------------------ a cancelled order keeps its promo slot

  lemma {:induction false} TenOff()
    ensures Pricing.LineNets(PricingItems(OneLine(100))) == [100] && Sum([100]) == 100
    ensures Pricing.Absorber([100], 0) == 0 && Pricing.Allocation([100, 0], 10, 0) == [10, 0]
  {
    QuantizeOnGrid(100);
    QuantizeOnGrid(0);
    SumAppend([], 100);
    SumAppend([100], 0);
    assert [] + [100] == [100] && [100] + [0] == [100, 0];
    assert Pricing.OtherShares([100, 0], 10, 0) == [0, 0];
    SumZero([0, 0]);
  }

  lemma NoServiceFee(c: Case, base: int)
    ensures Pricing.ServiceFee(base, Shop(c.rate).pricing) == 0
  {
    hide Quantize, Pricing.Part;
  }

  lemma {:induction false} DiscountedPrice(c: Case)
    ensures var p := PriceGiven(Shop(c.rate), OneLine(100), 0, 10); p.tax == 0 && p.total == 90 && p.serviceFee == 0
  {
    hide Pricing.Allocation, Pricing.Absorber, Sum, Quantize, Pricing.Part, Pricing.Tax, Pricing.LineNet,
         Pricing.ServiceFee;
    var items, cfg := PricingItems(OneLine(100)), Shop(c.rate).pricing;
    TenOff();
    QuantizeOnGrid(0);
    TaxAtTheEnds(90);
    TaxAtTheEnds(0);
    NoServiceFee(c, 100);
    assert Pricing.Components([100], 0) == [100, 0];
    var p := Pricing.Price(items, 0.0, 10, cfg);
    LineTaxAt(items, 0.0, 10, cfg);
    assert Pricing.LineTaxes(p.lines) == [0];
    SumZero([0]);
  }

  function Discounting(c: Case): seq<Request> {
    Promoting(c, 10) + [At(c, CallCreateInvoice(0, COURIER, OneLine(100), 0, Some(0)))]
  }

  function Abandoning(c: Case): seq<Request> {
    Discounting(c) + [At(c, CallCancelOrder(0, CUSTOMER))]
  }

  lemma {:induction false} DiscountingReaches(c: Case)
    requires c.Valid()
    ensures var db := Run(Seeded(), Discounting(c));
            && db.orders == [Order(CUSTOMER, Some(COURIER), WaitingPayment, 90, 0, 0, 0)]
            && |db.promos| == 1 && db.promos[0].used == 1 && db.intents == []
            && db.redemptions == [Some(Redemption(0, CUSTOMER, Reserved))]
            && |db.invoices| == 1 && db.invoices[0].order == 0 && db.invoices[0].status.Issued?
  {
    hide Run, Pricing.InvoiceTotals, Pricing.Price, Quantize, Sum;
    var cfg, db := Shop(c.rate), AssignedDb(c).(promos := [FixedPromo(10)]);
    PromotingReaches(c, 10);
    DiscountedPrice(c);
    NoUsesYet(0, CUSTOMER);
    ValidLineNet(cfg, OneLine(100), 0);
    OneNet();
    assert DiscountGiven(db, OneLine(100), 0, Some(0)) == Ok(10);
    EngineOutcome(cfg, db, OneLine(100), 0, Some(0));
    RunExtends(Promoting(c, 10), At(c, CallCreateInvoice(0, COURIER, OneLine(100), 0, Some(0))));
  }

  /** The customer cancels the order, but the promo stays used up until the sweep expires the invoice. */
  lemma {:induction false} SlotOutlivesOrder(c: Case)
    requires c.Valid()
    ensures var db := Run(Seeded(), Abandoning(c));
            && |db.orders| == 1 && db.orders[0].status.Cancelled?
            && |db.promos| == 1 && db.promos[0].used == 1
            && db.redemptions == [Some(Redemption(0, CUSTOMER, Reserved))]
            && var expired := ExpireInvoice(db, 0, 172801);
               expired.Ok? && |expired.value.promos| == 1 && expired.value.promos[0].used == 0
  {
    hide Run;
    DiscountingReaches(c);
    RunExtends(Discounting(c), At(c, CallCancelOrder(0, CUSTOMER)));
  }

  lemma OneNet()
    ensures DiscountableBase(OneLine(100), 0) == 100
  {
    QuantizeOnGrid(100);
    var items := PricingItems(OneLine(100));
    assert Pricing.LineNets(items) == [100];
    SumAppend([], 100);
    assert [] + [100] == [100];
  }
}
