/** How the tables of the money system evolve: what one call may change, and what no run ever undoes. */
module Evolution {
  import opened Results
  import opened Tables
  import opened OrderState
  import opened Ledger
  import opened MoneyOps
  import opened Market
  import opened Laws
  import opened FlowProofs
  import opened MoneyProofs
  import opened SettlementProofs
  import Sums
  import Pricing

  // ------------------------------------------------------------------ rows

  /** An order keeps its customer and its first courier, never becomes NEW again, never moves back to an
      earlier money phase, and is frozen once settled or cancelled. */
  ghost predicate OrderEvolves(o: Order, o': Order) {
    && o'.customer == o.customer
    && (o.courier.Some? ==> o'.courier == o.courier)
    && (o'.status.New? ==> o.status.New?)
    && Phase(o.status) <= Phase(o'.status)
    && (OrderState.Settled(o.status) || o.status.Cancelled? ==> o' == o)
  }

  /** An invoice keeps its price and parties, and is frozen once it has left ISSUED. */
  ghost predicate InvoiceEvolves(inv: Invoice, inv': Invoice) {
    && inv' == inv.(status := inv'.status, fromWallet := inv'.fromWallet, fromGateway := inv'.fromGateway,
                    paymentMethod := inv'.paymentMethod)
    && (!inv.status.Issued? ==> inv' == inv)
  }

  /** An intent keeps its payer, purpose and amount, and never becomes NEW again. */
  ghost predicate IntentEvolves(it: Intent, it': Intent) {
    && it' == it.(status := it'.status)
    && (it'.status.IntentNew? ==> it.status.IntentNew?)
  }

  /** A withdrawal keeps its courier and amount, and is frozen once paid or rejected. */
  ghost predicate WithdrawalEvolves(wd: Withdrawal, wd': Withdrawal) {
    && wd' == wd.(status := wd'.status)
    && (wd.status.WithdrawalPaid? || wd.status.Rejected? ==> wd' == wd)
    && (wd'.status.Requested? ==> wd.status.Requested?)
  }

  /** A resolved dispute stays resolved. */
  ghost predicate DisputesEvolve(d: map<nat, DisputeStatus>, d': map<nat, DisputeStatus>) {
    forall o :: o in d ==> o in d' && (!d[o].Open? ==> d'[o] == d[o])
  }

  ghost predicate OrdersEvolve(s: seq<Order>, s': seq<Order>) {
    |s| <= |s'| && forall i :: 0 <= i < |s| ==> OrderEvolves(s[i], s'[i])
  }

  ghost predicate InvoicesEvolve(s: seq<Invoice>, s': seq<Invoice>) {
    |s| <= |s'| && forall i :: 0 <= i < |s| ==> InvoiceEvolves(s[i], s'[i])
  }

  ghost predicate IntentsEvolve(s: seq<Intent>, s': seq<Intent>) {
    |s| <= |s'| && forall i :: 0 <= i < |s| ==> IntentEvolves(s[i], s'[i])
  }

  ghost predicate WithdrawalsEvolve(s: seq<Withdrawal>, s': seq<Withdrawal>) {
    |s| <= |s'| && forall i :: 0 <= i < |s| ==> WithdrawalEvolves(s[i], s'[i])
  }

  /** No top-up intent that has left NEW is credited. */
  ghost predicate NoLateCredit(db: Db, db': Db) {
    forall j: nat :: j < |db.intents| && !db.intents[j].status.IntentNew? ==>
      Trail(Entries(db'.ledger), TopupOf(j)) == Trail(Entries(db.ledger), TopupOf(j))
  }

  /** A dispute still open when its order was settled stays open. */
  ghost predicate OrphansStayOpen(db: Db, db': Db) {
    forall o :: o in db.disputes && db.disputes[o].Open? ==>
      o < |db.orders| && OrderState.Settled(db.orders[o].status) ==> o in db'.disputes && db'.disputes[o].Open?
  }

  /** What no run undoes: the ledger only grows, and every row evolves as above. */
  ghost predicate Evolves(db: Db, db': Db) {
    && |db.wallets| <= |db'.wallets| && db.emptySlots <= db'.emptySlots && db.ledger <= db'.ledger
    && OrdersEvolve(db.orders, db'.orders) && InvoicesEvolve(db.invoices, db'.invoices)
    && IntentsEvolve(db.intents, db'.intents) && WithdrawalsEvolve(db.withdrawals, db'.withdrawals)
    && DisputesEvolve(db.disputes, db'.disputes) && OrphansStayOpen(db, db')
    && NoLateCredit(db, db')
  }

  /** Every change of an order's status is a move of the transition table, also where the code sets the
      status without consulting it. */
  ghost predicate FollowsTable(db: Db, db': Db) {
    forall o :: 0 <= o < |db.orders| && o < |db'.orders| ==>
      db'.orders[o].status == db.orders[o].status || CanTransition(db.orders[o].status, db'.orders[o].status)
  }

  lemma EvolvesTransitive(a: Db, b: Db, c: Db)
    requires Evolves(a, b) && Evolves(b, c)
    ensures Evolves(a, c)
  {
    hide Trail;
  }

  // ------------------------------------------------------------------ postings that credit no top-up

  /** The rows appended belong to wallets that exist. */
  ghost predicate RowsHaveWallets(db: Db, db': Db) {
    forall i :: |db.ledger| <= i < |db'.ledger| ==> db'.ledger[i].entry.wallet !in db.emptySlots
  }

  ghost predicate LegsHaveWallets(db: Db, legs: seq<Leg>) {
    forall i :: 0 <= i < |legs| ==> legs[i].wallet !in db.emptySlots
  }

  /** Only the books change: wallets, the ledger by appending rows that credit no top-up, and the warning count. */
  ghost predicate BooksOnly(db: Db, db': Db) {
    && db' == db.(wallets := db'.wallets, ledger := db'.ledger, overReleases := db'.overReleases)
    && |db'.wallets| == |db.wallets| && db.ledger <= db'.ledger && RowsHaveWallets(db, db')
    && forall j: nat :: Trail(Entries(db'.ledger), TopupOf(j)) == Trail(Entries(db.ledger), TopupOf(j))
  }

  lemma {:induction false} NoTopupTrail(es: seq<Entry>, j: nat)
    requires forall i :: 0 <= i < |es| ==> !es[i].kind.Topup?
    ensures Trail(es, TopupOf(j)) == []
  {
    if |es| > 0 {
      NoTopupTrail(es[..|es| - 1], j);
    }
  }

  lemma PostBooksOnly(db: Db, legs: seq<Leg>)
    requires Post(db, legs).Ok? && LegsHaveWallets(db, legs) && forall i :: 0 <= i < |legs| ==> !legs[i].kind.Topup?
    ensures BooksOnly(db, Post(db, legs).value.0)
  {
    hide WellFormed, AnyKeyExists, Overdrawn, ApplyLegs, Trail, TopupOf;
    var db' := Post(db, legs).value.0;
    if db' != db {
      var rows := RowsOf(db.wallets, legs, |db.ledger|);
      EntriesConcat(db.ledger, rows);
      forall j: nat ensures Trail(Entries(db'.ledger), TopupOf(j)) == Trail(Entries(db.ledger), TopupOf(j)) {
        NoTopupTrail(Entries(rows), j);
        TrailConcat(Entries(db.ledger), Entries(rows), TopupOf(j));
      }
    }
  }

  lemma FundBooksOnly(db: Db, w: nat, fromWallet: int, fromGateway: int, i: nat, o: nat, intent: Option<nat>,
      wasHeld: bool)
    requires FundEscrow(db, w, fromWallet, fromGateway, i, o, intent, wasHeld).Ok?
    requires WalletLaw(db) && w !in db.emptySlots
    ensures BooksOnly(db, FundEscrow(db, w, fromWallet, fromGateway, i, o, intent, wasHeld).value)
  {
    hide Post, Trail;
    PostBooksOnly(db, FundLegs(w, fromWallet, fromGateway, i, o, intent));
  }

  lemma ReleaseBooksOnly(cfg: Settings, db: Db, o: nat, i: nat, courier: nat)
    requires i < |db.invoices| && ReleaseEscrow(cfg, db, o, i, courier).Ok?
    requires WalletLaw(db) && HasWallet(db, courier)
    ensures BooksOnly(db, ReleaseEscrow(cfg, db, o, i, courier).value)
  {
    hide Post, Trail, SettlementOf;
    var s := SettlementOf(cfg, db.invoices[i]);
    PostBooksOnly(db, ReleaseLegs(o, i, UserWallet(courier), s.payout, s.tax, s.revenue));
  }

  lemma OutcomeBooksOnly(cfg: Settings, db: Db, o: nat, i: nat, courier: nat, outcome: DisputeStatus,
      courierAmount: Option<real>)
    requires o < |db.orders| && i < |db.invoices| && ApplyOutcome(cfg, db, o, i, courier, outcome, courierAmount).Ok?
    requires WalletLaw(db) && HasWallet(db, courier) && HasWallet(db, db.orders[o].customer)
    ensures var (posted, r) := ApplyOutcome(cfg, db, o, i, courier, outcome, courierAmount).value;
            && BooksOnly(db, posted) && OrderState.Settled(r.status) && !outcome.Open?
            && r.customer == db.orders[o].customer && r.courier == db.orders[o].courier
  {
    hide Post, Trail, SettlementOf, BooksOnly, ReleaseEscrow, Money.Quantize;
    var customer, total := UserWallet(db.orders[o].customer), db.invoices[i].total;
    match outcome {
      case Open =>
      case ResolvedCustomer => PostBooksOnly(db, RefundLegs(o, i, customer, total));
      case ResolvedCourier => ReleaseBooksOnly(cfg, db, o, i, courier);
      case ResolvedSplit =>
        var share := Money.Quantize(courierAmount.value);
        PostBooksOnly(db, SplitLegs(o, i, UserWallet(courier), customer, share, total - share));
    }
  }

  lemma PayoutBooksOnly(db: Db, w: nat, amount: int, k: nat)
    requires PayWithdrawal(db, w, amount, k).Ok? && WalletLaw(db) && w !in db.emptySlots
    ensures BooksOnly(db, PayWithdrawal(db, w, amount, k).value.0)
  {
    hide Post, Trail;
    PostBooksOnly(db, PayoutLegs(w, amount, k));
  }

  // ------------------------------------------------------------------ one call

  /** Invoices are issued only for ASSIGNED orders. */
  ghost predicate IssuesOnlyAssigned(db: Db, db': Db) {
    forall i :: |db.invoices| <= i < |db'.invoices| ==>
      db'.invoices[i].order < |db.orders| && db.orders[db'.invoices[i].order].status.Assigned?
  }

  /** An order is settled only if its courier has a wallet. */
  ghost predicate SettlesWithWallet(db: Db, db': Db) {
    forall o :: 0 <= o < |db.orders| && o < |db'.orders| && OrderState.Settled(db'.orders[o].status) ==>
      OrderState.Settled(db.orders[o].status)
        || (db.orders[o].courier.Some? && HasWallet(db, db.orders[o].courier.value))
  }

  ghost predicate Advances(db: Db, db': Db) {
    && Evolves(db, db') && FollowsTable(db, db') && IssuesOnlyAssigned(db, db') && SettlesWithWallet(db, db')
    && (WalletLaw(db) ==> WalletLaw(db'))
    && (DisputeLaw(db.orders, db.disputes) ==> DisputeLaw(db'.orders, db'.disputes))
    && (RequestsUnique(db.withdrawals) ==> RequestsUnique(db'.withdrawals))
  }

  lemma NewHasNoCourier(db: Db, o: nat)
    requires Inv(db) && o < |db.orders| && db.orders[o].status.New?
    ensures db.orders[o].courier.None?
  {
    hide LedgerLaw, EscrowFunded, EscrowOnce, IntentLaw, HoldLaw, KeyLaw, TopupOnce, PayoutOnce, PromoLaw, Overdrawn,
         ActiveInvoice, OneActivePerOrder;
    assert OrderWellFormed(db.orders[o], |db.wallets|);
  }

  /** What issuing an invoice adds. */
  ghost predicate FreshlyIssued(db: Db, issued: Db, o: nat, actor: nat, promo: Option<nat>) {
    && o < |db.orders| && db.orders[o].status.Assigned? && (promo.Some? ==> promo.value < |db.promos|)
    && |issued.invoices| == |db.invoices| + 1
    && var inv := issued.invoices[|db.invoices|];
       && inv.order == o && inv.issuer == actor && inv.status.Issued?
       && issued == db.(
            invoices := db.invoices + [inv],
            orders := db.orders[o := db.orders[o].(status := WaitingPayment, total := inv.total)],
            redemptions := db.redemptions
                           + [if promo.Some? then Some(Redemption(promo.value, db.orders[o].customer, Reserved))
                               else None],
            promos := if promo.None? then db.promos
                      else db.promos[promo.value := db.promos[promo.value].(used := db.promos[promo.value].used + 1)])
  }

  lemma IssueShape(cfg: Settings, db: Db, o: nat, actor: nat, lines: seq<LineInput>, fee: nat, promo: Option<nat>,
      now: int)
    requires CreateInvoice(cfg, db, o, actor, lines, fee, promo, now).Ok?
    ensures FreshlyIssued(db, CreateInvoice(cfg, db, o, actor, lines, fee, promo, now).value, o, actor, promo)
  {
    hide Pricing.InvoiceTotals, ValidatePromo, LinesValid, ActiveInvoice, Uses, DiscountableBase, InWindow;
  }

  lemma IssueAdvances(cfg: Settings, db: Db, o: nat, actor: nat, lines: seq<LineInput>, fee: nat, promo: Option<nat>,
      now: int)
    requires CreateInvoice(cfg, db, o, actor, lines, fee, promo, now).Ok?
    ensures var db' := CreateInvoice(cfg, db, o, actor, lines, fee, promo, now).value;
            Advances(db, db') && |db'.wallets| == |db.wallets|
  {
    hide Trail, CreateInvoice;
    IssueShape(cfg, db, o, actor, lines, fee, promo, now);
  }

  /** A call that leaves the books' rows, and the number of wallets, alone. */
  ghost predicate BooksKept(db: Db, db': Db) {
    db'.ledger == db.ledger && |db'.wallets| == |db.wallets|
  }

  lemma PromoOnly(db: Db, i: nat)
    ensures ReleasePromo(db, i) == db.(promos := ReleasePromo(db, i).promos,
        redemptions := ReleasePromo(db, i).redemptions)
    ensures ConsumePromo(db, i) == db.(redemptions := ConsumePromo(db, i).redemptions)
  {
  }

  lemma ReservesOnlyPromos(db: Db, promo: nat, user: nat, now: int)
    requires ReservePromo(db, promo, user, now).Ok?
    ensures ReservePromo(db, promo, user, now).value == db.(promos := ReservePromo(db, promo, user, now).value.promos)
  {
    hide Uses;
  }

  lemma CancelInvoiceAdvances(db: Db, i: nat, actor: nat, now: int)
    requires CancelInvoice(db, i, actor, now).Ok?
    ensures var db' := CancelInvoice(db, i, actor, now).value; Advances(db, db') && BooksKept(db, db')
  {
    hide Trail, ReleasePromo;
    PromoOnly(db, i);
  }

  lemma CloseOnly(db: Db, i: nat)
    requires i < |db.invoices| && CloseOpenIntent(db, i).Ok?
    ensures var db' := CloseOpenIntent(db, i).value;
            && db' == db.(wallets := db'.wallets, intents := db'.intents, overReleases := db'.overReleases)
            && |db'.wallets| == |db.wallets| && IntentsEvolve(db.intents, db'.intents)
            && |db'.intents| == |db.intents|
  {
    hide OpenIntent;
  }

  lemma ExpireInvoiceAdvances(db: Db, i: nat, now: int)
    requires ExpireInvoice(db, i, now).Ok?
    ensures var db' := ExpireInvoice(db, i, now).value; Advances(db, db') && BooksKept(db, db')
  {
    hide Trail, ReleasePromo, CloseOpenIntent;
    if i < |db.invoices| && db.invoices[i].status.Issued? {
      CloseOnly(db, i);
      PromoOnly(CloseOpenIntent(db, i).value, i);
      UsersKept(db.intents, CloseOpenIntent(db, i).value.intents);
    }
  }

  lemma UsersKept(intents: seq<Intent>, intents': seq<Intent>)
    requires IntentsEvolve(intents, intents') && |intents'| == |intents|
    ensures forall j :: 0 <= j < |intents'| ==> intents'[j].user == intents[j].user
  {
    forall j | 0 <= j < |intents'| ensures intents'[j].user == intents[j].user {
      assert IntentEvolves(intents[j], intents'[j]);
    }
  }

  /** A settled payment, given that the invoice it settles is ISSUED. */
  lemma SettleAdvances(db: Db, funded: Db, i: nat, via: PaymentMethod, fromWallet: int, fromGateway: int,
      intents: seq<Intent>, now: int)
    requires BooksOnly(db, funded) && i < |db.invoices| && db.invoices[i].status.Issued?
    requires SettleRecord(funded, i, via, fromWallet, fromGateway, now).Ok?
    requires IntentsEvolve(db.intents, intents) && |intents| == |db.intents|
    ensures var db' := SettleRecord(funded, i, via, fromWallet, fromGateway, now).value.(intents := intents);
            Advances(db, db') && |db'.wallets| == |db.wallets|
  {
    hide Trail, ConsumePromo, OneActivePerOrder;
    PromoOnly(funded, i);
    UsersKept(db.intents, intents);
  }

  lemma PayInvoiceAdvances(db: Db, i: nat, actor: nat, now: int)
    requires WalletLaw(db) && PayInvoice(db, i, actor, now).Ok?
    ensures var db' := PayInvoice(db, i, actor, now).value; Advances(db, db') && |db'.wallets| == |db.wallets|
  {
    hide Trail, FundEscrow, SettleRecord, OpenIntent;
    var inv := db.invoices[i];
    if Pricing.Min(Available(db, UserWallet(actor)), inv.total) >= inv.total {
      FundBooksOnly(db, UserWallet(actor), inv.total, 0, i, inv.order, None, false);
      var funded := FundEscrow(db, UserWallet(actor), inv.total, 0, i, inv.order, None, false).value;
      SettleAdvances(db, funded, i, WalletOnly, inv.total, 0, db.intents, now);
      SettleKeepsIntents(funded, i, WalletOnly, inv.total, 0, now);
    }
  }

  lemma SettleKeepsIntents(db: Db, i: nat, via: PaymentMethod, fromWallet: int, fromGateway: int, now: int)
    requires i < |db.invoices| && SettleRecord(db, i, via, fromWallet, fromGateway, now).Ok?
    ensures SettleRecord(db, i, via, fromWallet, fromGateway, now).value.intents == db.intents
  {
    hide OneActivePerOrder;
  }

  lemma IntentClosed(intents: seq<Intent>, j: nat, status: IntentStatus)
    requires j < |intents| && !status.IntentNew?
    ensures IntentsEvolve(intents, intents[j := intents[j].(status := status)])
  {
  }

  lemma InvoiceWebhookAdvances(db: Db, j: nat, i: nat, now: int)
    requires Inv(db) && WalletLaw(db) && j < |db.intents| && IsOpenFor(db.intents[j], i)
    requires SettleInvoice(db, j, i, now).Ok?
    ensures var db' := SettleInvoice(db, j, i, now).value
        .(intents := db.intents[j := db.intents[j].(status := IntentPaid)]);
            Advances(db, db') && |db'.wallets| == |db.wallets|
  {
    hide Trail, FundEscrow, SettleRecord, Inv, Advances;
    var inv, it := db.invoices[i], db.intents[j];
    IntentClosed(db.intents, j, IntentPaid);
    if inv.status.InvoicePaid? {
      IdleAdvances(db, j, IntentPaid);
    } else {
      SettlesOnlyWaiting(db, j, i, now);
      FundBooksOnly(db, UserWallet(it.user), inv.fromWallet, it.amount, i, inv.order, Some(j), inv.fromWallet > 0);
      var funded := FundEscrow(db, UserWallet(it.user), inv.fromWallet, it.amount, i, inv.order, Some(j),
          inv.fromWallet > 0).value;
      SettleAdvances(db, funded, i, if inv.paymentMethod.Some? then inv.paymentMethod.value else GatewayOnly,
                     inv.fromWallet, it.amount, db.intents[j := it.(status := IntentPaid)], now);
    }
  }

  lemma IdleAdvances(db: Db, j: nat, status: IntentStatus)
    requires j < |db.intents| && !status.IntentNew?
    ensures Advances(db, SetIntent(db, j, status))
  {
    hide Trail;
  }

  /** Crediting a NEW top-up leaves the credits of every other intent alone. */
  lemma TopupCreditsOnlyItself(db: Db, j: nat)
    requires WalletLaw(db) && j < |db.intents| && db.intents[j].status.IntentNew? && SettleTopup(db, j).Ok?
    ensures var db' := SettleTopup(db, j).value;
            && db' == db.(wallets := db'.wallets, ledger := db'.ledger) && |db'.wallets| == |db.wallets|
            && db.ledger <= db'.ledger && NoLateCredit(db, db') && RowsHaveWallets(db, db')
  {
    hide WellFormed, AnyKeyExists, Overdrawn, ApplyLegs, Trail, Money.Quantize;
    var db', legs := SettleTopup(db, j).value, TopupLegs(UserWallet(db.intents[j].user), db.intents[j].amount, j);
    if db' != db {
      var rows := RowsOf(db.wallets, legs, |db.ledger|);
      EntriesConcat(db.ledger, rows);
      forall k: nat | k != j ensures Trail(Entries(db'.ledger), TopupOf(k)) == Trail(Entries(db.ledger), TopupOf(k)) {
        var es := Entries(rows);
        assert es == [es[0]] + [es[1]];
        TrailConcat([es[0]], [es[1]], TopupOf(k));
        TrailOne(es[0], TopupOf(k));
        TrailOne(es[1], TopupOf(k));
        TrailConcat(Entries(db.ledger), es, TopupOf(k));
      }
    }
  }

  lemma WebhookAdvances(db: Db, j: nat, paid: bool, amount: Option<int>, now: int)
    requires Inv(db) && WalletLaw(db) && Webhook(db, j, paid, amount, now).Ok?
    ensures var db' := Webhook(db, j, paid, amount, now).value; Advances(db, db') && |db'.wallets| == |db.wallets|
  {
    hide Trail, SettleTopup, SettleInvoice, Inv;
    var it := db.intents[j];
    if it.status.IntentNew? {
      if !paid {
        IdleAdvances(db, j, IntentFailed);
      } else if it.purpose.WalletTopup? {
        TopupCreditsOnlyItself(db, j);
        IntentClosed(db.intents, j, IntentPaid);
      } else {
        InvoiceWebhookAdvances(db, j, it.purpose.invoice, now);
      }
    }
  }

  lemma FinishAdvances(db: Db, posted: Db, o: nat, r: Order, disputes: map<nat, DisputeStatus>)
    requires BooksOnly(db, posted) && o < |db.orders| && CanTransition(db.orders[o].status, r.status)
    requires OrderState.Settled(r.status) && r.customer == db.orders[o].customer && r.courier == db.orders[o].courier
    requires DisputesEvolve(db.disputes, disputes) && r.courier.Some? && HasWallet(db, r.courier.value)
    requires disputes.Keys == db.disputes.Keys && forall k :: k in disputes && k != o ==> disputes[k] == db.disputes[k]
    ensures var db' := posted.(orders := db.orders[o := r], disputes := disputes);
            Advances(db, db') && |db'.wallets| == |db.wallets|
  {
    hide Trail;
  }

  lemma CompleteAdvances(cfg: Settings, db: Db, o: nat, now: int)
    requires WalletLaw(db) && o < |db.orders| && CompleteAndRelease(cfg, db, o, now).Ok?
    ensures var db' := CompleteAndRelease(cfg, db, o, now).value; Advances(db, db') && |db'.wallets| == |db.wallets|
  {
    hide Trail, ReleaseEscrow, BooksOnly, Advances, SettlementOf, PaidInvoice, ActiveInvoice;
    var i, db' := PaidInvoice(db, o).value, CompleteAndRelease(cfg, db, o, now).value;
    ReleaseBooksOnly(cfg, db, o, i, db.orders[o].courier.value);
    var posted := ReleaseEscrow(cfg, db, o, i, db.orders[o].courier.value).value;
    FinishAdvances(db, posted, o, db'.orders[o], db.disputes);
    assert posted.disputes == db.disputes by { BooksKeepDisputes(db, posted); }
  }

  lemma BooksKeepDisputes(db: Db, db': Db)
    requires BooksOnly(db, db')
    ensures db'.disputes == db.disputes && db'.withdrawals == db.withdrawals
  {
    hide Trail;
  }

  lemma ResolveAdvances(cfg: Settings, db: Db, o: nat, outcome: DisputeStatus, courierAmount: Option<real>, now: int)
    requires WalletLaw(db) && ResolveDispute(cfg, db, o, outcome, courierAmount, now).Ok?
    ensures var db' := ResolveDispute(cfg, db, o, outcome, courierAmount, now).value;
            Advances(db, db') && |db'.wallets| == |db.wallets|
  {
    hide Trail, ApplyOutcome, BooksOnly, Advances, PaidInvoice, ActiveInvoice;
    var i := PaidInvoice(db, o).value;
    OutcomeBooksOnly(cfg, db, o, i, db.orders[o].courier.value, outcome, courierAmount);
    var (posted, r) := ApplyOutcome(cfg, db, o, i, db.orders[o].courier.value, outcome, courierAmount).value;
    FinishAdvances(db, posted, o, r, db.disputes[o := outcome]);
  }

  lemma ApproveWithdrawalAdvances(db: Db, k: nat)
    requires ApproveWithdrawal(db, k).Ok?
    ensures var db' := ApproveWithdrawal(db, k).value; Advances(db, db') && |db'.wallets| == |db.wallets|
  {
    hide Trail;
  }

  lemma RejectWithdrawalAdvances(db: Db, k: nat)
    requires RejectWithdrawal(db, k).Ok?
    ensures var db' := RejectWithdrawal(db, k).value; Advances(db, db') && |db'.wallets| == |db.wallets|
  {
    hide Trail;
  }

  lemma MarkPaidAdvances(db: Db, k: nat)
    requires WalletLaw(db) && MarkWithdrawalPaid(db, k).Ok?
    ensures var db' := MarkWithdrawalPaid(db, k).value; Advances(db, db') && |db'.wallets| == |db.wallets|
  {
    hide Trail, PayWithdrawal;
    if db.withdrawals[k].status.Approved? {
      PayoutBooksOnly(db, UserWallet(db.withdrawals[k].courier), db.withdrawals[k].amount, k);
    }
  }

  lemma RequestAdvances(cfg: Settings, db: Db, courier: nat, amount: real, key: string)
    requires RequestWithdrawal(cfg, db, courier, amount, key).Ok?
    ensures var db' := RequestWithdrawal(cfg, db, courier, amount, key).value;
            Advances(db, db') && |db'.wallets| == |db.wallets|
  {
    hide Trail, Money.Quantize;
  }

  lemma NewRowAdvances(db: Db, customer: nat, date: int, now: int)
    ensures CreateOrder(db, customer, date, now).Ok? ==> Advances(db, CreateOrder(db, customer, date, now).value)
  {
    hide Trail;
  }

  /** A new slot belongs to nobody yet. */
  lemma NewUserAdvances(db: Db)
    requires Inv(db)
    ensures Advances(db, Register(db).value) && Advances(db, CreateUser(db).value)
  {
    hide Trail, Inv, UserWallet;
    BelongingsExist(db);
  }

  lemma BelongingsExist(db: Db)
    requires Inv(db)
    ensures |db.wallets| >= SYSTEM_WALLETS
    ensures forall j :: 0 <= j < |db.intents| ==> UserWallet(db.intents[j].user) < |db.wallets|
    ensures forall k :: 0 <= k < |db.withdrawals| ==> UserWallet(db.withdrawals[k].courier) < |db.wallets|
    ensures forall i :: 0 <= i < |db.ledger| ==> db.ledger[i].entry.wallet < |db.wallets|
  {
    hide FlowLaw, EscrowFunded, EscrowOnce, HoldLaw, KeyLaw, TopupOnce, PayoutOnce, PromoLaw, Overdrawn, SumBy,
         Sums.Sum, OneOpenPerInvoice, PortionsAddUp;
    forall j | 0 <= j < |db.intents| ensures UserWallet(db.intents[j].user) < |db.wallets| {
      assert IntentWellFormed(db.intents[j], |db.wallets|, |db.invoices|);
    }
  }

  lemma RescheduleAdvances(db: Db, o: nat, date: int, now: int)
    requires RescheduleOrder(db, o, date, now).Ok?
    ensures Advances(db, RescheduleOrder(db, o, date, now).value)
  {
    hide Trail;
  }

  lemma CancelOrderAdvances(db: Db, o: nat, actor: nat, now: int)
    requires CancelOrder(db, o, actor, now).Ok?
    ensures Advances(db, CancelOrder(db, o, actor, now).value)
  {
    hide Trail;
  }

  lemma RaiseDisputeAdvances(db: Db, o: nat, actor: nat, now: int)
    requires RaiseDispute(db, o, actor, now).Ok?
    ensures Advances(db, RaiseDispute(db, o, actor, now).value)
  {
    hide Trail;
  }

  lemma AcceptAdvances(db: Db, o: nat, courier: nat, now: int)
    requires Inv(db) && AcceptOrder(db, o, courier, now).Ok?
    ensures Advances(db, AcceptOrder(db, o, courier, now).value)
  {
    hide Trail, Inv;
    NewHasNoCourier(db, o);
  }

  lemma DeliverAdvances(db: Db, o: nat, actor: nat, photos: nat, inRadius: bool, now: int)
    requires Deliver(db, o, actor, photos, inRadius, now).Ok?
    ensures Advances(db, Deliver(db, o, actor, photos, inRadius, now).value)
  {
    hide Trail;
  }

  lemma TopupCallAdvances(cfg: Settings, db: Db, user: nat, amount: real, j: nat)
    ensures CreateTopup(cfg, db, user, amount).Ok? ==> Advances(db, CreateTopup(cfg, db, user, amount).value)
    ensures Advances(db, ExpireTopup(db, j).value)
  {
    hide Trail, Money.Quantize;
  }

  lemma AdvancesReflexive(db: Db, promos: seq<Promo>)
    ensures Advances(db, db.(promos := promos))
  {
    hide Trail;
  }

  ghost predicate AddsUser(call: Call) {
    call.CallRegister? || call.CallCreateUser?
  }

  /** Every committed call advances the tables and, unless it creates a user, opens no wallet slot. */
  lemma StepAdvances(db: Db, request: Request)
    requires Inv(db) && WalletLaw(db) && Step(db, request).Ok?
    ensures Advances(db, Step(db, request).value)
    ensures |Step(db, request).value.wallets| == |db.wallets| + (if AddsUser(request.call) then 1 else 0)
  {
    hide Inv, Advances, CreateInvoice, CancelInvoice, ExpireInvoice, PayInvoice, Webhook, CompleteAndRelease,
         ResolveDispute, RequestWithdrawal, ApproveWithdrawal, RejectWithdrawal, MarkWithdrawalPaid, Money.Quantize;
    var cfg, now := request.cfg, request.now;
    match request.call {
      case CallRegister => NewUserAdvances(db);
      case CallCreateUser => NewUserAdvances(db);
      case CallCreateOrder(customer, date) => NewRowAdvances(db, customer, date, now);
      case CallRescheduleOrder(order, date) => RescheduleAdvances(db, order, date, now);
      case CallAcceptOrder(order, courier) => AcceptAdvances(db, order, courier, now);
      case CallCancelOrder(order, actor) => CancelOrderAdvances(db, order, actor, now);
      case CallCreatePromo(promo) => AdvancesReflexive(db, db.promos + [promo]);
      case CallSetPromoActive(promo, active) =>
        AdvancesReflexive(db, db.promos[promo := db.promos[promo].(active := active)]);
      case CallCreateInvoice(order, actor, lines, fee, promo) =>
        IssueAdvances(cfg, db, order, actor, lines, fee, promo, now);
      case CallCancelInvoice(invoice, actor) => CancelInvoiceAdvances(db, invoice, actor, now);
      case CallExpireInvoice(invoice) => ExpireInvoiceAdvances(db, invoice, now);
      case CallPayInvoice(invoice, actor) => PayInvoiceAdvances(db, invoice, actor, now);
      case CallCreateTopup(user, amount) => TopupCallAdvances(cfg, db, user, amount, 0);
      case CallWebhook(intent, paid, reported) => WebhookAdvances(db, intent, paid, reported, now);
      case CallExpireTopup(intent) => TopupCallAdvances(cfg, db, 0, 0.0, intent);
      case CallDeliver(order, actor, photos, inRadius) => DeliverAdvances(db, order, actor, photos, inRadius, now);
      case CallApproveOrder(order, actor) => CompleteAdvances(cfg, db, order, now);
      case CallAutoApprove(order) => AutoApproveAdvances(cfg, db, order, now);
      case CallRaiseDispute(order, actor) => RaiseDisputeAdvances(db, order, actor, now);
      case CallResolveDispute(order, outcome, courierAmount) =>
        ResolveAdvances(cfg, db, order, outcome, courierAmount, now);
      case CallRequestWithdrawal(courier, amount, key) => RequestAdvances(cfg, db, courier, amount, key);
      case CallApproveWithdrawal(withdrawal) => ApproveWithdrawalAdvances(db, withdrawal);
      case CallRejectWithdrawal(withdrawal) => RejectWithdrawalAdvances(db, withdrawal);
      case CallMarkWithdrawalPaid(withdrawal) => MarkPaidAdvances(db, withdrawal);
    }
  }

  lemma AutoApproveAdvances(cfg: Settings, db: Db, o: nat, now: int)
    requires WalletLaw(db) && AutoApprove(cfg, db, o, now).Ok?
    ensures var db' := AutoApprove(cfg, db, o, now).value; Advances(db, db') && |db'.wallets| == |db.wallets|
  {
    hide Advances, CompleteAndRelease;
    if o < |db.orders| && db.orders[o].status.Delivered? {
      CompleteAdvances(cfg, db, o, now);
    } else {
      AdvancesReflexive(db, db.promos);
    }
  }

  // ------------------------------------------------------------------ when an order row is written

  ghost predicate Reschedulable(s: OrderStatus) {
    s.New? || s.Assigned?
  }

  /** An order row that changes is left inside its delivery window, and its date changes only while the order is
      NEW or ASSIGNED. */
  ghost predicate WritesInWindow(db: Db, db': Db, now: int) {
    && |db.orders| <= |db'.orders|
    && forall o :: 0 <= o < |db.orders| && db'.orders[o] != db.orders[o] ==>
         && InWindow(db'.orders[o].deliveryDate, now)
         && (Reschedulable(db.orders[o].status) || db'.orders[o].deliveryDate == db.orders[o].deliveryDate)
  }

  lemma PayWritesInWindow(db: Db, i: nat, actor: nat, now: int)
    requires PayInvoice(db, i, actor, now).Ok?
    ensures WritesInWindow(db, PayInvoice(db, i, actor, now).value, now)
  {
    hide FundEscrow, OpenIntent, OneActivePerOrder, BooksOnly, InWindow;
    var inv := db.invoices[i];
    if Pricing.Min(Available(db, UserWallet(actor)), inv.total) >= inv.total {
      FundKeepsRecords(db, UserWallet(actor), inv.total, 0, i, inv.order, None, false);
    }
  }

  lemma WebhookWritesInWindow(db: Db, j: nat, paid: bool, amount: Option<int>, now: int)
    requires Webhook(db, j, paid, amount, now).Ok?
    ensures WritesInWindow(db, Webhook(db, j, paid, amount, now).value, now)
  {
    hide SettleTopup, SettleInvoice, InWindow;
    var it := db.intents[j];
    if it.status.IntentNew? && paid {
      match it.purpose {
        case WalletTopup => TopupKeepsOrders(db, j);
        case OrderInvoice(i) => SettleWritesInWindow(db, j, i, now);
      }
    }
  }

  lemma TopupKeepsOrders(db: Db, j: nat)
    requires j < |db.intents| && SettleTopup(db, j).Ok?
    ensures SettleTopup(db, j).value.orders == db.orders
  {
    hide WellFormed, AnyKeyExists, Overdrawn, ApplyLegs, RowsOf, TopupLegs;
  }

  lemma SettleWritesInWindow(db: Db, j: nat, i: nat, now: int)
    requires j < |db.intents| && SettleInvoice(db, j, i, now).Ok?
    ensures WritesInWindow(db, SettleInvoice(db, j, i, now).value, now)
  {
    hide FundEscrow, OneActivePerOrder, InWindow;
    var it, inv := db.intents[j], db.invoices[i];
    if !inv.status.InvoicePaid? {
      FundKeepsRecords(db, UserWallet(it.user), inv.fromWallet, it.amount, i, inv.order, Some(j), inv.fromWallet > 0);
    }
  }

  lemma CompleteWritesInWindow(cfg: Settings, db: Db, o: nat, now: int)
    requires o < |db.orders| && CompleteAndRelease(cfg, db, o, now).Ok?
    ensures WritesInWindow(db, CompleteAndRelease(cfg, db, o, now).value, now)
  {
    hide ReleaseEscrow, PaidInvoice, SettlementOf, InWindow;
  }

  lemma ResolveWritesInWindow(cfg: Settings, db: Db, o: nat, outcome: DisputeStatus, courierAmount: Option<real>,
      now: int)
    requires ResolveDispute(cfg, db, o, outcome, courierAmount, now).Ok?
    ensures WritesInWindow(db, ResolveDispute(cfg, db, o, outcome, courierAmount, now).value, now)
  {
    hide ApplyOutcome, PaidInvoice, InWindow;
    OutcomeKeepsDate(cfg, db, o, PaidInvoice(db, o).value, db.orders[o].courier.value, outcome, courierAmount);
  }

  lemma OutcomeKeepsDate(cfg: Settings, db: Db, o: nat, i: nat, courier: nat, outcome: DisputeStatus,
      courierAmount: Option<real>)
    requires o < |db.orders| && i < |db.invoices| && ApplyOutcome(cfg, db, o, i, courier, outcome, courierAmount).Ok?
    ensures ApplyOutcome(cfg, db, o, i, courier, outcome, courierAmount).value.1.deliveryDate
        == db.orders[o].deliveryDate
  {
    hide Post, ReleaseEscrow, Money.Quantize, SettlementOf;
  }

  lemma IssueWritesInWindow(cfg: Settings, db: Db, o: nat, actor: nat, lines: seq<LineInput>, fee: nat,
      promo: Option<nat>, now: int)
    requires CreateInvoice(cfg, db, o, actor, lines, fee, promo, now).Ok?
    ensures WritesInWindow(db, CreateInvoice(cfg, db, o, actor, lines, fee, promo, now).value, now)
  {
    hide Pricing.InvoiceTotals, ValidatePromo, LinesValid, ActiveInvoice, Uses, DiscountableBase, InWindow,
         ReservePromo;
  }

  lemma RetireWritesInWindow(db: Db, i: nat, actor: nat, now: int)
    ensures var r := CancelInvoice(db, i, actor, now); r.Ok? ==> WritesInWindow(db, r.value, now)
    ensures var r := ExpireInvoice(db, i, now); r.Ok? ==> WritesInWindow(db, r.value, now)
  {
    hide ReleasePromo, CloseOpenIntent, InWindow;
    PromoOnly(db, i);
    if i < |db.invoices| && CloseOpenIntent(db, i).Ok? {
      CloseOnly(db, i);
      PromoOnly(CloseOpenIntent(db, i).value, i);
    }
  }

  lemma WithdrawalsKeepOrders(cfg: Settings, db: Db, k: nat, courier: nat, amount: real, key: string)
    ensures var r := RequestWithdrawal(cfg, db, courier, amount, key); r.Ok? ==> r.value.orders == db.orders
    ensures var r := ApproveWithdrawal(db, k); r.Ok? ==> r.value.orders == db.orders
    ensures var r := RejectWithdrawal(db, k); r.Ok? ==> r.value.orders == db.orders
    ensures var r := MarkWithdrawalPaid(db, k); r.Ok? ==> r.value.orders == db.orders
  {
    hide HasWithdrawal, Money.Quantize, PayWithdrawal, Trail;
    if k < |db.withdrawals| {
      var w, amount := UserWallet(db.withdrawals[k].courier), db.withdrawals[k].amount;
      if PayWithdrawal(db, w, amount, k).Ok? {
        PayoutKeepsOrders(db, w, amount, k);
      }
    }
  }

  lemma PayoutKeepsOrders(db: Db, w: nat, amount: int, k: nat)
    requires PayWithdrawal(db, w, amount, k).Ok?
    ensures PayWithdrawal(db, w, amount, k).value.0.orders == db.orders
  {
    hide WellFormed, AnyKeyExists, Overdrawn, ApplyLegs, RowsOf, PayoutLegs;
  }

  lemma OrderCallsWriteInWindow(db: Db, o: nat, actor: nat, date: int, photos: nat, inRadius: bool, now: int)
    ensures var r := CreateOrder(db, actor, date, now); r.Ok? ==> WritesInWindow(db, r.value, now)
    ensures var r := RescheduleOrder(db, o, date, now); r.Ok? ==> WritesInWindow(db, r.value, now)
    ensures var r := AcceptOrder(db, o, actor, now); r.Ok? ==> WritesInWindow(db, r.value, now)
    ensures var r := CancelOrder(db, o, actor, now); r.Ok? ==> WritesInWindow(db, r.value, now)
    ensures var r := Deliver(db, o, actor, photos, inRadius, now); r.Ok? ==> WritesInWindow(db, r.value, now)
    ensures var r := RaiseDispute(db, o, actor, now); r.Ok? ==> WritesInWindow(db, r.value, now)
  {
    hide InWindow;
  }

  /** Every committed call writes order rows only inside their windows. */
  lemma StepWritesInWindow(db: Db, request: Request)
    requires Step(db, request).Ok?
    ensures WritesInWindow(db, Step(db, request).value, request.now)
  {
    hide CreateOrder, RescheduleOrder, AcceptOrder, CancelOrder, Deliver, RaiseDispute, CreateInvoice, CancelInvoice,
         ExpireInvoice, PayInvoice, Webhook, CompleteAndRelease, ResolveDispute, RequestWithdrawal,
         ApproveWithdrawal, RejectWithdrawal, MarkWithdrawalPaid, InWindow, Money.Quantize;
    var cfg, now := request.cfg, request.now;
    match request.call {
      case CallCreateOrder(customer, date) => OrderCallsWriteInWindow(db, 0, customer, date, 0, false, now);
      case CallRescheduleOrder(order, date) => OrderCallsWriteInWindow(db, order, 0, date, 0, false, now);
      case CallAcceptOrder(order, courier) => OrderCallsWriteInWindow(db, order, courier, 0, 0, false, now);
      case CallCancelOrder(order, actor) => OrderCallsWriteInWindow(db, order, actor, 0, 0, false, now);
      case CallDeliver(order, actor, photos, inRadius) =>
        OrderCallsWriteInWindow(db, order, actor, 0, photos, inRadius, now);
      case CallRaiseDispute(order, actor) => OrderCallsWriteInWindow(db, order, actor, 0, 0, false, now);
      case CallCreateInvoice(order, actor, lines, fee, promo) =>
        IssueWritesInWindow(cfg, db, order, actor, lines, fee, promo, now);
      case CallCancelInvoice(invoice, actor) => RetireWritesInWindow(db, invoice, actor, now);
      case CallExpireInvoice(invoice) => RetireWritesInWindow(db, invoice, 0, now);
      case CallPayInvoice(invoice, actor) => PayWritesInWindow(db, invoice, actor, now);
      case CallWebhook(intent, paid, reported) => WebhookWritesInWindow(db, intent, paid, reported, now);
      case CallApproveOrder(order, actor) => CompleteWritesInWindow(cfg, db, order, now);
      case CallAutoApprove(order) =>
        if order < |db.orders| && db.orders[order].status.Delivered? {
          CompleteWritesInWindow(cfg, db, order, now);
        }
      case CallResolveDispute(order, outcome, courierAmount) =>
        ResolveWritesInWindow(cfg, db, order, outcome, courierAmount, now);
      case CallRequestWithdrawal(courier, amount, key) => WithdrawalsKeepOrders(cfg, db, 0, courier, amount, key);
      case CallApproveWithdrawal(withdrawal) => WithdrawalsKeepOrders(cfg, db, withdrawal, 0, 0.0, "");
      case CallRejectWithdrawal(withdrawal) => WithdrawalsKeepOrders(cfg, db, withdrawal, 0, 0.0, "");
      case CallMarkWithdrawalPaid(withdrawal) => WithdrawalsKeepOrders(cfg, db, withdrawal, 0, 0.0, "");
      case _ =>
    }
  }
}
