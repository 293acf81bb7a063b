/** What a wallet reserves for an invoice that waits past its order's delivery date, over every later state. */
module Reservations {
  import opened Results
  import opened Tables
  import opened OrderState
  import opened Ledger
  import opened MoneyOps
  import opened Market
  import opened Laws
  import opened HoldProofs
  import opened MoneyProofs
  import opened Evolution
  import opened Outcomes
  import opened Theorems
  import opened Lifetimes
  import Money

  /** The open intent `j` of an ISSUED invoice whose order waits past its date. */
  ghost predicate Overdue(db: Db, j: nat, i: nat, now: int) {
    && j < |db.intents| && IsOpenFor(db.intents[j], i) && Waiting(db, i)
    && PastDate(db.orders[db.invoices[i].order], now)
  }

  /** The intent and the invoice it is for are as they were. */
  ghost predicate Undisturbed(db: Db, db': Db, j: nat, i: nat) {
    && j < |db.intents| && j < |db'.intents| && db'.intents[j] == db.intents[j]
    && i < |db.invoices| && i < |db'.invoices| && db'.invoices[i] == db.invoices[i]
  }

  // ------------------------------------------------------------------ one call

  lemma PostKeepsRecords(db: Db, legs: seq<Leg>)
    requires Post(db, legs).Ok?
    ensures Post(db, legs).value.0.intents == db.intents && Post(db, legs).value.0.invoices == db.invoices
  {
    hide WellFormed, AnyKeyExists, Overdrawn, ApplyLegs, RowsOf;
  }

  lemma CompletionUndisturbed(cfg: Settings, db: Db, o: nat, now: int)
    requires o < |db.orders| && CompleteAndRelease(cfg, db, o, now).Ok?
    ensures var db' := CompleteAndRelease(cfg, db, o, now).value;
            db'.intents == db.intents && db'.invoices == db.invoices
  {
    hide Post, PaidInvoice, SettlementOf, ReleaseLegs, InWindow;
    var i := PaidInvoice(db, o).value;
    var s := SettlementOf(cfg, db.invoices[i]);
    PostKeepsRecords(db, ReleaseLegs(o, i, UserWallet(db.orders[o].courier.value), s.payout, s.tax, s.revenue));
  }

  lemma ResolutionUndisturbed(cfg: Settings, db: Db, o: nat, outcome: DisputeStatus, courierAmount: Option<real>,
      now: int)
    requires ResolveDispute(cfg, db, o, outcome, courierAmount, now).Ok?
    ensures var db' := ResolveDispute(cfg, db, o, outcome, courierAmount, now).value;
            db'.intents == db.intents && db'.invoices == db.invoices
  {
    hide PostGroup, PaidInvoice, SettlementOf, ReleaseLegs, RefundLegs, SplitLegs, InWindow, Money.Quantize;
    var i, courier, customer := PaidInvoice(db, o).value, UserWallet(db.orders[o].courier.value),
                                UserWallet(db.orders[o].customer);
    match outcome {
      case Open =>
      case ResolvedCustomer => PostKeepsRecords(db, RefundLegs(o, i, customer, db.invoices[i].total));
      case ResolvedCourier =>
        var s := SettlementOf(cfg, db.invoices[i]);
        PostKeepsRecords(db, ReleaseLegs(o, i, courier, s.payout, s.tax, s.revenue));
      case ResolvedSplit =>
        var share := Money.Quantize(courierAmount.value);
        PostKeepsRecords(db, SplitLegs(o, i, courier, customer, share, db.invoices[i].total - share));
    }
  }

  lemma WithdrawalsUndisturbed(cfg: Settings, db: Db, k: nat, courier: nat, amount: real, key: string)
    ensures var r := RequestWithdrawal(cfg, db, courier, amount, key);
            r.Ok? ==> r.value.intents == db.intents && r.value.invoices == db.invoices
    ensures var r := ApproveWithdrawal(db, k);
            r.Ok? ==> r.value.intents == db.intents && r.value.invoices == db.invoices
    ensures var r := RejectWithdrawal(db, k);
            r.Ok? ==> r.value.intents == db.intents && r.value.invoices == db.invoices
    ensures var r := MarkWithdrawalPaid(db, k);
            r.Ok? ==> r.value.intents == db.intents && r.value.invoices == db.invoices
  {
    hide HasWithdrawal, Money.Quantize, PostGroup, PayoutLegs;
    if k < |db.withdrawals| {
      var legs := PayoutLegs(UserWallet(db.withdrawals[k].courier), db.withdrawals[k].amount, k);
      if Post(db, legs).Ok? {
        PostKeepsRecords(db, legs);
      }
    }
  }

  lemma OrderCallsUndisturbed(db: Db, o: nat, actor: nat, date: int, photos: nat, inRadius: bool, now: int)
    ensures var r := CreateOrder(db, actor, date, now);
            r.Ok? ==> r.value.intents == db.intents && r.value.invoices == db.invoices
    ensures var r := RescheduleOrder(db, o, date, now);
            r.Ok? ==> r.value.intents == db.intents && r.value.invoices == db.invoices
    ensures var r := AcceptOrder(db, o, actor, now);
            r.Ok? ==> r.value.intents == db.intents && r.value.invoices == db.invoices
    ensures var r := CancelOrder(db, o, actor, now);
            r.Ok? ==> r.value.intents == db.intents && r.value.invoices == db.invoices
    ensures var r := Deliver(db, o, actor, photos, inRadius, now);
            r.Ok? ==> r.value.intents == db.intents && r.value.invoices == db.invoices
    ensures var r := RaiseDispute(db, o, actor, now);
            r.Ok? ==> r.value.intents == db.intents && r.value.invoices == db.invoices
  {
    hide InWindow;
  }

  lemma IssueUndisturbed(cfg: Settings, db: Db, o: nat, actor: nat, lines: seq<LineInput>, fee: nat,
      promo: Option<nat>, now: int, j: nat, i: nat)
    requires CreateInvoice(cfg, db, o, actor, lines, fee, promo, now).Ok? && j < |db.intents| && i < |db.invoices|
    ensures Undisturbed(db, CreateInvoice(cfg, db, o, actor, lines, fee, promo, now).value, j, i)
  {
    hide CreateInvoice;
    IssueShape(cfg, db, o, actor, lines, fee, promo, now);
  }

  /** Neither its courier nor the sweep retires the overdue invoice, and retiring another leaves it alone. */
  lemma RetireUndisturbed(db: Db, i': nat, actor: nat, now: int, j: nat, i: nat)
    requires Inv(db) && WalletLaw(db) && Overdue(db, j, i, now)
    ensures var r := CancelInvoice(db, i', actor, now); r.Ok? ==> Undisturbed(db, r.value, j, i)
    ensures var r := ExpireInvoice(db, i', now); r.Ok? ==> Undisturbed(db, r.value, j, i)
  {
    hide Inv, ReleasePromo, OpenIntent, Overdrawn;
    CancelInvoiceOutcome(db, i', actor, now);
    ExpireInvoiceOutcome(db, i', now);
    PromoOnly(db, i');
    if i' < |db.invoices| && CloseOpenIntent(db, i').Ok? {
      PromoOnly(CloseOpenIntent(db, i').value, i');
    }
  }

  lemma SettleUndisturbed(db: Db, i': nat, via: PaymentMethod, fromWallet: int, fromGateway: int, now: int)
    requires i' < |db.invoices| && SettleRecord(db, i', via, fromWallet, fromGateway, now).Ok?
    ensures var db' := SettleRecord(db, i', via, fromWallet, fromGateway, now).value;
            db'.intents == db.intents && db'.invoices == db.invoices[i' := db'.invoices[i']]
  {
    hide OneActivePerOrder, InWindow;
  }

  lemma FundUndisturbed(db: Db, w: nat, fromWallet: int, fromGateway: int, i: nat, o: nat, intent: Option<nat>,
      wasHeld: bool)
    requires FundEscrow(db, w, fromWallet, fromGateway, i, o, intent, wasHeld).Ok?
    ensures var db' := FundEscrow(db, w, fromWallet, fromGateway, i, o, intent, wasHeld).value;
            db'.intents == db.intents && db'.invoices == db.invoices
  {
    hide PostGroup, FundLegs;
    PostKeepsRecords(db, FundLegs(w, fromWallet, fromGateway, i, o, intent));
  }

  /** Paying the overdue invoice again hands out its open payment link or fails. */
  lemma PayUndisturbed(db: Db, i': nat, actor: nat, now: int, j: nat, i: nat)
    requires Inv(db) && Overdue(db, j, i, now) && PayInvoice(db, i', actor, now).Ok?
    ensures Undisturbed(db, PayInvoice(db, i', actor, now).value, j, i)
  {
    hide Inv, FundEscrow, SettleRecord, OpenIntent, Moves, Settles;
    PayInvoiceOutcome(db, i', actor, now);
    var w, inv := UserWallet(actor), db.invoices[i'];
    if WalletCovers(db, i', actor) {
      FundUndisturbed(db, w, inv.total, 0, i', inv.order, None, false);
      var funded := FundEscrow(db, w, inv.total, 0, i', inv.order, None, false).value;
      SettleUndisturbed(funded, i', WalletOnly, inv.total, 0, now);
    }
  }

  lemma OneOpenOf(db: Db, j: nat, k: nat, i: nat)
    requires Inv(db) && j < |db.intents| && k < |db.intents| && IsOpenFor(db.intents[j], i)
    requires IsOpenFor(db.intents[k], i)
    ensures j == k
  {
    hide LedgerLaw, FlowLaw, EscrowFunded, EscrowOnce, HoldLaw, KeyLaw, TopupOnce, PayoutOnce, PromoLaw, Overdrawn,
         PortionsAddUp;
    assert OneOpenPerInvoice(db.intents);
  }

  /** An event for another intent, or one that reports the overdue payment PAID. */
  lemma WebhookUndisturbed(db: Db, k: nat, paid: bool, amount: Option<int>, now: int, j: nat, i: nat)
    requires Inv(db) && WalletLaw(db) && Overdue(db, j, i, now) && Webhook(db, k, paid, amount, now).Ok?
    requires k == j ==> paid
    ensures Undisturbed(db, Webhook(db, k, paid, amount, now).value, j, i)
  {
    hide Inv, FundEscrow, SettleRecord, PostGroup, Booked, TopupLegs;
    WebhookOutcome(db, k, paid, amount, now);
    var it := db.intents[k];
    if it.status.IntentNew? && paid {
      match it.purpose {
        case WalletTopup => PostKeepsRecords(db, TopupLegs(UserWallet(it.user), it.amount, k));
        case OrderInvoice(i') =>
          var inv := db.invoices[i'];
          if !inv.status.InvoicePaid? {
            if i' == i {
              OneOpenOf(db, j, k, i);
            } else {
              var via := if inv.paymentMethod.Some? then inv.paymentMethod.value else GatewayOnly;
              var w := UserWallet(it.user);
              FundUndisturbed(db, w, inv.fromWallet, it.amount, i', inv.order, Some(k), inv.fromWallet > 0);
              var funded := FundEscrow(db, w, inv.fromWallet, it.amount, i', inv.order, Some(k), inv.fromWallet > 0);
              SettleUndisturbed(funded.value, i', via, inv.fromWallet, it.amount, now);
            }
          }
      }
    }
  }

  /** A failed payment reported for the intent. */
  ghost predicate Fails(call: Call, j: nat) {
    call.CallWebhook? && call.intent == j && !call.paid
  }

  /** Nothing but a failed payment disturbs an overdue intent or its invoice. */
  lemma StepUndisturbed(db: Db, request: Request, j: nat, i: nat)
    requires Inv(db) && WalletLaw(db) && Overdue(db, j, i, request.now) && Step(db, request).Ok?
    requires !Fails(request.call, j)
    ensures Undisturbed(db, Step(db, request).value, j, i)
  {
    hide Inv, WalletLaw, CreateOrder, RescheduleOrder, AcceptOrder, CancelOrder, Deliver, RaiseDispute, CreateInvoice,
         CancelInvoice, ExpireInvoice, PayInvoice, Webhook, CompleteAndRelease, ResolveDispute, RequestWithdrawal,
         ApproveWithdrawal, RejectWithdrawal, MarkWithdrawalPaid, PastDate, Money.Quantize;
    var cfg, now := request.cfg, request.now;
    match request.call {
      case CallCreateOrder(customer, date) => OrderCallsUndisturbed(db, 0, customer, date, 0, false, now);
      case CallRescheduleOrder(order, date) => OrderCallsUndisturbed(db, order, 0, date, 0, false, now);
      case CallAcceptOrder(order, courier) => OrderCallsUndisturbed(db, order, courier, 0, 0, false, now);
      case CallCancelOrder(order, actor) => OrderCallsUndisturbed(db, order, actor, 0, 0, false, now);
      case CallDeliver(order, actor, photos, inRadius) =>
        OrderCallsUndisturbed(db, order, actor, 0, photos, inRadius, now);
      case CallRaiseDispute(order, actor) => OrderCallsUndisturbed(db, order, actor, 0, 0, false, now);
      case CallCreateInvoice(order, actor, lines, fee, promo) =>
        IssueUndisturbed(cfg, db, order, actor, lines, fee, promo, now, j, i);
      case CallCancelInvoice(invoice, actor) => RetireUndisturbed(db, invoice, actor, now, j, i);
      case CallExpireInvoice(invoice) => RetireUndisturbed(db, invoice, 0, now, j, i);
      case CallPayInvoice(invoice, actor) => PayUndisturbed(db, invoice, actor, now, j, i);
      case CallWebhook(intent, paid, reported) => WebhookUndisturbed(db, intent, paid, reported, now, j, i);
      case CallApproveOrder(order, actor) => CompletionUndisturbed(cfg, db, order, now);
      case CallAutoApprove(order) =>
        if order < |db.orders| && db.orders[order].status.Delivered? {
          CompletionUndisturbed(cfg, db, order, now);
        }
      case CallResolveDispute(order, outcome, courierAmount) =>
        ResolutionUndisturbed(cfg, db, order, outcome, courierAmount, now);
      case CallRequestWithdrawal(courier, amount, key) => WithdrawalsUndisturbed(cfg, db, 0, courier, amount, key);
      case CallApproveWithdrawal(withdrawal) => WithdrawalsUndisturbed(cfg, db, withdrawal, 0, 0.0, "");
      case CallRejectWithdrawal(withdrawal) => WithdrawalsUndisturbed(cfg, db, withdrawal, 0, 0.0, "");
      case CallMarkWithdrawalPaid(withdrawal) => WithdrawalsUndisturbed(cfg, db, withdrawal, 0, 0.0, "");
      case _ =>
    }
  }

  // ------------------------------------------------------------------ what the invoice keeps tied up

  /** What is held for an invoice's open intent, and what is held for no live reservation. */
  ghost function Tied(db: Db, i: nat, user: nat): int
    requires UserWallet(user) < |db.wallets|
  {
    Slack(db, user) + OpenHold(db.intents, db.invoices, i, user)
  }

  lemma HoldsBound(db: Db, i: nat, user: nat)
    requires Inv(db)
    ensures 0 <= OpenHold(db.intents, db.invoices, i, user)
    ensures UserWallet(user) < |db.wallets| ==>
              OpenHold(db.intents, db.invoices, i, user) <= Tied(db, i, user) <= db.wallets[UserWallet(user)].held
  {
    hide LedgerLaw, FlowLaw, EscrowFunded, EscrowOnce, KeyLaw, TopupOnce, PayoutOnce, PromoLaw, Overdrawn,
         OpenHold, LiveHolds, IntentLaw, WithdrawalLaw;
    OpenHoldBounds(|db.wallets|, db.intents, db.invoices, db.withdrawals, i, user);
  }

  lemma DroppedNonNegative(db: Db, call: Call, user: nat)
    requires Inv(db)
    ensures 0 <= Dropped(db, call, user)
  {
    hide LedgerLaw, FlowLaw, EscrowFunded, EscrowOnce, HoldLaw, KeyLaw, TopupOnce, PayoutOnce, PromoLaw, Overdrawn,
         OpenHold, LiveHolds, IntentLaw, WithdrawalLaw, IntentHold, WalletCovers;
    forall i: nat ensures 0 <= OpenHold(db.intents, db.invoices, i, user) {
      HoldsBound(db, i, user);
    }
    HoldNonNegative(|db.wallets|, db.intents, db.invoices, user);
  }

  lemma UndisturbedHold(db: Db, db': Db, j: nat, i: nat, user: nat)
    requires Inv(db) && Inv(db') && j < |db.intents| && IsOpenFor(db.intents[j], i) && Undisturbed(db, db', j, i)
    ensures OpenHold(db'.intents, db'.invoices, i, user) == OpenHold(db.intents, db.invoices, i, user)
  {
    hide LedgerLaw, FlowLaw, EscrowFunded, EscrowOnce, HoldLaw, KeyLaw, TopupOnce, PayoutOnce, PromoLaw, Overdrawn,
         OpenIntent, PortionsAddUp;
    OpenIs(db.intents, j, i);
    OpenIs(db'.intents, j, i);
  }

  lemma CommitKeepsTied(db: Db, request: Request, i: nat, user: nat)
    requires request.cfg.Valid() && Inv(db) && WalletLaw(db) && Waiting(db, i) && UserWallet(user) < |db.wallets|
    requires PastDate(db.orders[db.invoices[i].order], request.now)
    ensures var db' := Commit(db, request);
            UserWallet(user) < |db'.wallets| && Tied(db, i, user) <= Tied(db', i, user)
  {
    hide Inv, WalletLaw, Step, Slack, OpenHold, Dropped, OpenIntent, PastDate, Undisturbed, IntentHold;
    var db' := Commit(db, request);
    if Step(db, request).Ok? {
      StepKeepsInv(db, request);
      DroppedNonNegative(db, request.call, user);
      HoldsBound(db', i, user);
      var open := OpenIntent(db.intents, i);
      if open.None? || Fails(request.call, open.value) {
        ReleasedIsDropped(db, request.call, i, user);
      } else {
        StepUndisturbed(db, request, open.value, i);
        UndisturbedHold(db, db', open.value, i, user);
      }
    }
  }

  /** A failed payment drops just what its intent held. */
  lemma ReleasedIsDropped(db: Db, call: Call, i: nat, user: nat)
    requires var open := OpenIntent(db.intents, i); open.None? || Fails(call, open.value)
    ensures OpenHold(db.intents, db.invoices, i, user) == 0
            || OpenHold(db.intents, db.invoices, i, user) == Dropped(db, call, user)
  {
    hide OpenIntent, IntentHold;
  }

  lemma {:induction false} TiedForLife(requests: seq<Request>, k: nat, i: nat, user: nat)
    requires AllValid(requests) && ClockForward(requests) && k <= |requests|
    requires var early := Run(Seeded(), requests[..k]);
             && Waiting(early, i) && UserWallet(user) < |early.wallets|
             && (k < |requests| ==> PastDate(early.orders[early.invoices[i].order], requests[k].now))
    ensures var early, late := Run(Seeded(), requests[..k]), Run(Seeded(), requests);
            UserWallet(user) < |late.wallets| && Tied(early, i, user) <= Tied(late, i, user)
    decreases |requests|
  {
    hide Commit, Inv, WalletLaw, Tied;
    if k == |requests| {
      assert requests[..k] == requests;
    } else {
      var n := |requests| - 1;
      var init := requests[..n];
      assert init[..k] == requests[..k];
      TiedForLife(init, k, i, user);
      LateInvoiceIsStranded(init, k, i);
      RunKeepsInv(init);
      assert requests[k].now <= requests[n].now;
      CommitKeepsTied(Run(Seeded(), init), requests[n], i, user);
    }
  }

  /** The wallet portion reserved for an invoice that waits past its order's date stays held in the payer's wallet
      for good, whatever is called: no payment spends it and nothing releases it, even if the payment fails. */
  lemma {:induction false} LateHoldIsStranded(requests: seq<Request>, k: nat, j: nat, i: nat)
    requires AllValid(requests) && ClockForward(requests) && k <= |requests|
    requires var early := Run(Seeded(), requests[..k]);
             && j < |early.intents| && IsOpenFor(early.intents[j], i) && Waiting(early, i)
             && (k < |requests| ==> PastDate(early.orders[early.invoices[i].order], requests[k].now))
    ensures var early, late := Run(Seeded(), requests[..k]), Run(Seeded(), requests);
            var w := UserWallet(early.intents[j].user);
            && w < |late.wallets| && early.invoices[i].fromWallet <= late.wallets[w].held <= late.wallets[w].balance
  {
    hide Run, Inv, WalletLaw, OpenIntent, Slack, LiveHolds, ClockForward, PaymentFits;
    var early, late := Run(Seeded(), requests[..k]), Run(Seeded(), requests);
    var user := early.intents[j].user;
    RunKeepsInv(requests[..k]);
    RunKeepsInv(requests);
    GatewayPaymentFits(early, j, i);
    TiedForLife(requests, k, i, user);
    HoldsBound(early, i, user);
    HoldsBound(late, i, user);
    UserWalletFacts(late, user);
  }
}
