/** Every call that moves no money keeps every law. */
module StepProofs {
  import opened Results
  import opened Sums
  import opened Money
  import opened Tables
  import opened OrderState
  import opened Ledger
  import opened MoneyOps
  import opened Market
  import opened Laws
  import opened LedgerProofs
  import opened FlowProofs
  import opened HoldProofs
  import opened PromoProofs
  import opened RecordProofs
  import Pricing
  import PricingTheorems

  /** Nobody's slack changes. */
  ghost predicate SlackKept(db: Db, db': Db) {
    && |db.wallets| <= |db'.wallets|
    && forall u: nat :: UserWallet(u) < |db.wallets| ==> Slack(db', u) == Slack(db, u)
  }

  /** The slack of every user grows by the open hold of one invoice. */
  ghost predicate SlackGrows(db: Db, db': Db, invoice: nat) {
    && |db.wallets| == |db'.wallets|
    && forall u: nat :: UserWallet(u) < |db.wallets| ==>
         Slack(db', u) == Slack(db, u) + OpenHold(db.intents, db.invoices, invoice, u)
  }

  // ------------------------------------------------------------------ registration and orders

  lemma NoRowsYet(ledger: seq<Row>, n: nat)
    requires RunningBalances(n, ledger)
    ensures SumBy(Entries(ledger), OnWallet(n)) == 0
  {
    NoEntriesYet(Entries(ledger), n);
  }

  lemma {:induction false} NoEntriesYet(es: seq<Entry>, n: nat)
    requires forall i :: 0 <= i < |es| ==> es[i].wallet < n
    ensures SumBy(es, OnWallet(n)) == 0
  {
    if |es| > 0 {
      NoEntriesYet(es[..|es| - 1], n);
    }
  }

  lemma NewWalletKeepsLedger(wallets: seq<Wallet>, ledger: seq<Row>)
    requires LedgerLaw(wallets, ledger)
    ensures LedgerLaw(wallets + [Wallet(0, 0)], ledger)
  {
    hide SumBy, Sum;
    var wallets' := wallets + [Wallet(0, 0)];
    NoRowsYet(ledger, |wallets|);
    assert Balances(wallets') == Balances(wallets) + [0];
    SumAppend(Balances(wallets), 0);
    assert BalancesAreSums(wallets', Entries(ledger));
  }

  /** Somebody who has no wallet has no reservation. */
  lemma StrangerHoldsNothing(n: nat, intents: seq<Intent>, invoices: seq<Invoice>, withdrawals: seq<Withdrawal>,
      user: nat)
    requires IntentLaw(n, intents, invoices) && WithdrawalLaw(n, withdrawals) && UserWallet(user) >= n
    ensures LiveHolds(intents, invoices, withdrawals, user) == 0
  {
    hide Sum;
    forall j | 0 <= j < |intents| ensures IntentHold(intents[j], invoices, user) == 0 {
      assert IntentWellFormed(intents[j], n, |invoices|);
    }
    SumZero(IntentHolds(intents, invoices, user));
    SumZero(WithdrawalHolds(withdrawals, user));
  }

  lemma NewWalletHolds(wallets: seq<Wallet>, intents: seq<Intent>, invoices: seq<Invoice>, withdrawals: seq<Withdrawal>)
    requires HoldLaw(wallets, intents, invoices, withdrawals) && |wallets| >= SYSTEM_WALLETS
    requires IntentLaw(|wallets|, intents, invoices) && WithdrawalLaw(|wallets|, withdrawals)
    ensures HoldLaw(wallets + [Wallet(0, 0)], intents, invoices, withdrawals)
  {
    hide LiveHolds, IntentLaw;
    var wallets' := wallets + [Wallet(0, 0)];
    forall v: nat | UserWallet(v) < |wallets'|
      ensures LiveHolds(intents, invoices, withdrawals,
          v) <= wallets'[UserWallet(v)].held <= wallets'[UserWallet(v)].balance
    {
      if UserWallet(v) < |wallets| {
        assert wallets'[UserWallet(v)] == wallets[UserWallet(v)];
      } else {
        StrangerHoldsNothing(|wallets|, intents, invoices, withdrawals, v);
      }
    }
  }

  lemma RegisterKeepsInv(db: Db)
    requires Inv(db)
    ensures Inv(Register(db).value) && SlackKept(db, Register(db).value)
  {
    hide LedgerLaw, HoldLaw, PromoLaw, EscrowDue, EscrowOnce, KeyLaw, TopupOnce, PayoutOnce, LiveHolds, FlowLaw;
    assert |db.wallets| >= SYSTEM_WALLETS;
    NewWalletKeepsLedger(db.wallets, db.ledger);
    MoreWalletsKeepFlow(|db.wallets|, |db.wallets| + 1, db.orders, db.invoices);
    NewWalletHolds(db.wallets, db.intents, db.invoices, db.withdrawals);
    assert IntentLaw(|db.wallets| + 1, db.intents, db.invoices) by {
      forall j | 0 <= j < |db.intents| ensures IntentWellFormed(db.intents[j], |db.wallets| + 1, |db.invoices|) {
        assert IntentWellFormed(db.intents[j], |db.wallets|, |db.invoices|);
      }
    }
  }

  /** The laws do not read which slots are empty. */
  lemma CreateUserKeepsInv(db: Db)
    requires Inv(db)
    ensures Inv(CreateUser(db).value) && SlackKept(db, CreateUser(db).value)
  {
    hide LedgerLaw, HoldLaw, PromoLaw, EscrowFunded, EscrowOnce, KeyLaw, TopupOnce, PayoutOnce, LiveHolds, FlowLaw,
         IntentLaw, WithdrawalLaw, Overdrawn;
    RegisterKeepsInv(db);
  }

  lemma CreateOrderKeepsInv(db: Db, customer: nat, date: int, now: int)
    requires Inv(db) && CreateOrder(db, customer, date, now).Ok?
    ensures Inv(CreateOrder(db, customer, date, now).value) && SlackKept(db, CreateOrder(db, customer, date, now).value)
  {
    hide LedgerLaw, HoldLaw, PromoLaw, EscrowDue, EscrowOnce, KeyLaw, TopupOnce, PayoutOnce, LiveHolds, FlowLaw,
         IntentLaw;
    var r := Order(customer, None, New, 0, 0, 0, date);
    NewOrderKeepsFlow(|db.wallets|, db.orders, db.invoices, r);
    NewOrderKeepsHistory(Entries(db.ledger), db.orders, db.invoices, r);
    KeysKept(db, CreateOrder(db, customer, date, now).value);
  }

  /** A new date, acceptance, cancellation, delivery and disputes: the order stays within its money phase. */
  lemma SidestepKeepsInv(db: Db, o: nat, r: Order, disputes: map<nat, DisputeStatus>)
    requires Inv(db) && o < |db.orders|
    requires OrderWellFormed(r, |db.wallets|) && Sidestep(db.orders[o].status, r.status)
    ensures var db' := db.(orders := db.orders[o := r], disputes := disputes);
            Inv(db') && SlackKept(db, db')
  {
    hide LedgerLaw, HoldLaw, PromoLaw, EscrowDue, EscrowOnce, KeyLaw, TopupOnce, PayoutOnce, LiveHolds, FlowLaw,
         IntentLaw;
    SidestepKeepsFlow(|db.wallets|, db.orders, db.invoices, o, r);
    SidestepKeepsHistory(Entries(db.ledger), db.orders, db.invoices, o, r);
    if db.orders[o].status != r.status {
      PhasesAdvance(db.orders[o].status, r.status);
    }
    KeysKept(db, db.(orders := db.orders[o := r], disputes := disputes));
  }

  lemma OrdersWellFormed(db: Db, o: nat)
    requires Inv(db) && o < |db.orders|
    ensures OrderWellFormed(db.orders[o], |db.wallets|)
  {
  }

  lemma AcceptOrderKeepsInv(db: Db, o: nat, courier: nat, now: int)
    requires Inv(db) && AcceptOrder(db, o, courier, now).Ok?
    ensures Inv(AcceptOrder(db, o, courier, now).value) && SlackKept(db, AcceptOrder(db, o, courier, now).value)
  {
    hide Inv, SlackKept;
    OrdersWellFormed(db, o);
    SidestepKeepsInv(db, o, db.orders[o].(courier := Some(courier), status := Assigned), db.disputes);
  }

  lemma RescheduleKeepsInv(db: Db, o: nat, date: int, now: int)
    requires Inv(db) && RescheduleOrder(db, o, date, now).Ok?
    ensures Inv(RescheduleOrder(db, o, date, now).value) && SlackKept(db, RescheduleOrder(db, o, date, now).value)
  {
    hide Inv, SlackKept;
    OrdersWellFormed(db, o);
    SidestepKeepsInv(db, o, db.orders[o].(deliveryDate := date), db.disputes);
  }

  lemma CancelOrderKeepsInv(db: Db, o: nat, actor: nat, now: int)
    requires Inv(db) && CancelOrder(db, o, actor, now).Ok?
    ensures Inv(CancelOrder(db, o, actor, now).value) && SlackKept(db, CancelOrder(db, o, actor, now).value)
  {
    hide Inv, SlackKept;
    OrdersWellFormed(db, o);
    SidestepKeepsInv(db, o, db.orders[o].(status := Cancelled), db.disputes);
  }

  lemma DeliverKeepsInv(db: Db, o: nat, actor: nat, photos: nat, inRadius: bool, now: int)
    requires Inv(db) && Deliver(db, o, actor, photos, inRadius, now).Ok?
    ensures Inv(Deliver(db, o, actor, photos, inRadius, now).value)
        && SlackKept(db, Deliver(db, o, actor, photos, inRadius, now).value)
  {
    hide Inv, SlackKept;
    OrdersWellFormed(db, o);
    SidestepKeepsInv(db, o, db.orders[o].(status := Delivered), db.disputes);
  }

  lemma RaiseDisputeKeepsInv(db: Db, o: nat, actor: nat, now: int)
    requires Inv(db) && RaiseDispute(db, o, actor, now).Ok?
    ensures Inv(RaiseDispute(db, o, actor, now).value) && SlackKept(db, RaiseDispute(db, o, actor, now).value)
  {
    hide Inv, SlackKept;
    OrdersWellFormed(db, o);
    SidestepKeepsInv(db, o, db.orders[o].(status := Disputed), db.disputes[o := Open]);
  }

  // ------------------------------------------------------------------ promos

  lemma CreatePromoKeepsInv(db: Db, promo: Promo)
    requires Inv(db) && CreatePromo(db, promo).Ok?
    ensures Inv(CreatePromo(db, promo).value) && SlackKept(db, CreatePromo(db, promo).value)
  {
    hide LedgerLaw, HoldLaw, PromoLaw, EscrowDue, EscrowOnce, KeyLaw, TopupOnce, PayoutOnce, LiveHolds, FlowLaw,
         IntentLaw;
    NewPromoKeeps(db.promos, db.invoices, db.redemptions, promo);
  }

  lemma SetPromoActiveKeepsInv(db: Db, promo: nat, active: bool)
    requires Inv(db) && SetPromoActive(db, promo, active).Ok?
    ensures Inv(SetPromoActive(db, promo, active).value) && SlackKept(db, SetPromoActive(db, promo, active).value)
  {
    hide LedgerLaw, HoldLaw, PromoLaw, EscrowDue, EscrowOnce, KeyLaw, TopupOnce, PayoutOnce, LiveHolds, FlowLaw,
         IntentLaw;
    ToggleKeeps(db.promos, db.invoices, db.redemptions, promo, active);
  }

  // ------------------------------------------------------------------ invoices

  /** The state `create_invoice` commits, in terms of what it priced. */
  lemma IssuedKeepsInv(db: Db, db': Db, inv: Invoice, r: Order, redemption: Option<Redemption>, promos: seq<Promo>)
    requires Inv(db) && Issues(|db.wallets|, db.orders, db.invoices, r, inv)
    requires PromoLaw(promos, db.invoices + [inv], db.redemptions + [redemption])
    requires db' == db.(promos := promos, invoices := db.invoices + [inv], redemptions := db.redemptions + [redemption],
                        orders := db.orders[inv.order := r])
    ensures Inv(db') && SlackKept(db, db')
  {
    hide LedgerLaw, HoldLaw, PromoLaw, EscrowDue, EscrowOnce, KeyLaw, TopupOnce, PayoutOnce, IntentLaw, Sum,
         ActiveInvoice;
    IssueKeepsFlow(|db.wallets|, db.orders, db.invoices, r, inv);
    IssueKeepsEscrow(|db.wallets|, db.orders, db.invoices, r, inv);
    IssueKeepsHistory(|db.wallets|, Entries(db.ledger), db.orders, db.invoices, r, inv);
    IssueKeepsHolds(|db.wallets|, db.intents, db.invoices, inv);
    HoldsAlike(db, db');
    KeysKept(db, db');
  }

  /** Same wallets and withdrawals, and intents that hold what they held: the hold law carries over. */
  lemma HoldsAlike(db: Db, db': Db)
    requires HoldLaw(db.wallets, db.intents, db.invoices, db.withdrawals)
    requires db'.wallets == db.wallets && db'.withdrawals == db.withdrawals
    requires forall u: nat ::
               Sum(IntentHolds(db'.intents, db'.invoices, u)) == Sum(IntentHolds(db.intents, db.invoices, u))
    ensures HoldLaw(db'.wallets, db'.intents, db'.invoices, db'.withdrawals) && SlackKept(db, db')
  {
    hide Sum;
    forall u: nat ensures LiveHolds(db'.intents, db'.invoices, db'.withdrawals, u)
        == LiveHolds(db.intents, db.invoices, db.withdrawals, u) {
    }
  }

  lemma CreateInvoiceKeepsInv(cfg: Settings, db: Db, o: nat, actor: nat, lines: seq<LineInput>, fee: nat,
      promo: Option<nat>, now: int)
    requires Inv(db) && CreateInvoice(cfg, db, o, actor, lines, fee, promo, now).Ok?
    ensures var db' := CreateInvoice(cfg, db, o, actor, lines, fee, promo, now).value;
            Inv(db') && SlackKept(db, db')
  {
    hide Inv, SlackKept, Uses, PromoLaw, ActiveInvoice, FlowLaw, Pricing.InvoiceTotals, LinesValid, DiscountableBase;
    var db' := CreateInvoice(cfg, db, o, actor, lines, fee, promo, now).value;
    var order := db.orders[o];
    var pricingPromo := if promo.Some? && promo.value < |db.promos| then Some(db.promos[promo.value].pricing) else None;
    var p := Pricing.InvoiceTotals(PricingItems(lines), fee as real, pricingPromo, cfg.pricing).value;
    TotalPositive(PricingItems(lines), fee as real, pricingPromo, cfg.pricing);
    var inv := NewInvoice(o, actor, p, promo, now + cfg.expirySeconds);
    var redemption := if promo.Some? then Some(Redemption(promo.value, order.customer, Reserved)) else None;
    var r := order.(status := WaitingPayment, total := p.total);
    OrdersWellFormed(db, o);
    PromosOf(db);
    if promo.None? {
      IssuePlainKeeps(db.promos, db.invoices, db.redemptions, inv);
    } else {
      IssueReservedKeeps(db.promos, db.invoices, db.redemptions, inv, promo.value, order.customer);
    }
    IssuedKeepsInv(db, db', inv, r, redemption, db'.promos);
  }

  lemma PromosOf(db: Db)
    requires Inv(db)
    ensures PromoLaw(db.promos, db.invoices, db.redemptions)
  {
  }

  lemma TotalPositive(items: seq<Pricing.Item>, fee: real, promo: Option<Pricing.Promo>, cfg: Pricing.Config)
    requires Pricing.InvoiceTotals(items, fee, promo, cfg).Ok?
    ensures Pricing.InvoiceTotals(items, fee, promo, cfg).value.total > 0
  {
    hide Pricing.Price, Pricing.Allocated, Pricing.Reconstructed, Quantize;
  }

  /** A retired invoice: its promo slot is returned, its order reopened. */
  lemma RetiredKeepsInv(db: Db, closed: Db, i: nat, status: InvoiceStatus, r: Order)
    requires Inv(db) && i < |db.invoices| && db.invoices[i].status.Issued?
    requires status.InvoiceCancelled? || status.InvoiceExpired?
    requires Reopened(db.orders[db.invoices[i].order], r)
    requires closed == db.(wallets := closed.wallets, intents := closed.intents)
    requires ClosedAtMost(db.intents, closed.intents, i)
    requires LedgerLaw(closed.wallets, closed.ledger) && !Overdrawn(closed.wallets) && |closed.wallets| == |db.wallets|
    requires closed.wallets[ESCROW].balance == db.wallets[ESCROW].balance
    requires var invoices' := db.invoices[i := db.invoices[i].(status := status)];
             HoldLaw(closed.wallets, closed.intents, invoices', db.withdrawals)
    ensures var o := db.invoices[i].order;
            Inv(ReleasePromo(closed, i).(invoices := db.invoices[i := db.invoices[i].(status := status)],
                                         orders := db.orders[o := r]))
  {
    hide LedgerLaw, HoldLaw, PromoLaw, EscrowDue, EscrowOnce, KeyLaw, TopupOnce, PayoutOnce, IntentLaw,
         ActiveInvoice, Overdrawn;
    var n, o, inv' := |db.wallets|, db.invoices[i].order, db.invoices[i].(status := status);
    var db' := ReleasePromo(closed, i).(invoices := db.invoices[i := inv'], orders := db.orders[o := r]);
    assert InvoiceWellFormed(db.invoices[i], |db.orders|);
    RetireKeepsFlow(n, db.orders, db.invoices, i, inv', r);
    RetireKeepsHistory(n, Entries(db.ledger), db.orders, db.invoices, i, inv', r);
    LeavingIssuedKeepsIntents(n, db.intents, closed.intents, db.invoices, i, inv');
    RetireKeeps(db.promos, db.invoices, db.redemptions, i, inv');
    RedemptionsAlign(db.promos, db.invoices, db.redemptions);
    CreditsKept(Entries(db.ledger), db.intents, closed.intents);
    KeysKept(db, db');
  }

  lemma RedemptionsAlign(promos: seq<Promo>, invoices: seq<Invoice>, redemptions: seq<Option<Redemption>>)
    requires PromoLaw(promos, invoices, redemptions)
    ensures |redemptions| == |invoices|
  {
  }

  lemma IssuedOrder(db: Db, i: nat)
    requires Inv(db) && i < |db.invoices|
    ensures InvoiceWellFormed(db.invoices[i], |db.orders|)
    ensures InvoiceFits(db.invoices[i], db.orders[db.invoices[i].order].status)
  {
  }

  /** The hold behind a cancelled invoice is not released: it stays on as slack. */
  lemma CancelHolds(db: Db, i: nat, inv': Invoice)
    requires Inv(db) && i < |db.invoices| && !inv'.status.Issued?
    ensures HoldLaw(db.wallets, db.intents, db.invoices[i := inv'], db.withdrawals)
    ensures forall u: nat ::
              LiveHolds(db.intents, db.invoices[i := inv'], db.withdrawals, u)
              == LiveHolds(db.intents, db.invoices, db.withdrawals, u) - OpenHold(db.intents, db.invoices, i, u)
  {
    hide Sum, LedgerLaw, PromoLaw, FlowLaw, OpenHold;
    forall u: nat
      ensures LiveHolds(db.intents, db.invoices[i := inv'], db.withdrawals, u)
           == LiveHolds(db.intents, db.invoices, db.withdrawals, u) - OpenHold(db.intents, db.invoices, i, u)
      ensures 0 <= OpenHold(db.intents, db.invoices, i, u)
    {
      LeavingIssuedDropsHold(|db.wallets|, db.intents, db.intents, db.invoices, i, inv', u);
      OpenHoldBounds(|db.wallets|, db.intents, db.invoices, db.withdrawals, i, u);
    }
  }

  lemma CancelInvoiceKeepsInv(db: Db, i: nat, courier: nat, now: int)
    requires Inv(db) && CancelInvoice(db, i, courier, now).Ok?
    ensures var db' := CancelInvoice(db, i, courier, now).value;
            Inv(db') && SlackGrows(db, db', i)
  {
    hide Inv, HoldLaw, LedgerLaw, LiveHolds, OpenHold, Overdrawn;
    var inv' := db.invoices[i].(status := InvoiceCancelled);
    var o := db.invoices[i].order;
    IssuedOrder(db, i);
    CancelHolds(db, i, inv');
    MoneyOf(db);
    RetiredKeepsInv(db, db, i, InvoiceCancelled, db.orders[o].(status := Assigned, total := 0));
  }

  lemma MoneyOf(db: Db)
    requires Inv(db)
    ensures LedgerLaw(db.wallets, db.ledger) && !Overdrawn(db.wallets) && |db.wallets| >= SYSTEM_WALLETS
  {
  }
}
