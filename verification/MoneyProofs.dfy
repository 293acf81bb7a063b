/** Every call that holds, releases or moves money keeps every law. */
module MoneyProofs {
  import opened Results
  import opened Sums
  import opened Money
  import opened Tables
  import opened OrderState
  import opened Ledger
  import opened MoneyOps
  import opened Market
  import opened Laws
  import opened LedgerProofs
  import opened Movements
  import opened FlowProofs
  import opened HoldProofs
  import opened PromoProofs
  import opened RecordProofs
  import opened StepProofs
  import Pricing
  import PricingTheorems

  // ------------------------------------------------------------------ wallets

  function WithHeld(wallets: seq<Wallet>, w: nat, held: int): seq<Wallet>
    requires w < |wallets|
  {
    wallets[w := wallets[w].(held := held)]
  }

  /** Holds are not ledger movements. */
  lemma HeldOnlyKeepsLedger(wallets: seq<Wallet>, ledger: seq<Row>, w: nat, held: int)
    requires LedgerLaw(wallets, ledger) && w < |wallets|
    ensures LedgerLaw(WithHeld(wallets, w, held), ledger)
  {
    hide SumBy, Sum;
    assert Balances(WithHeld(wallets, w, held)) == Balances(wallets);
  }

  lemma HeldOnlyStaysSolvent(wallets: seq<Wallet>, w: nat, held: int)
    requires !Overdrawn(wallets) && w < |wallets| && held >= 0
    ensures !Overdrawn(WithHeld(wallets, w, held))
  {
  }

  lemma MovedStaysSolvent(before: seq<Wallet>, after: seq<Wallet>, m: Movement)
    requires Covered(before, m) && WalletsMoved(before, after, m)
    ensures !Overdrawn(after)
  {
    hide Delta;
  }

  /** What the laws say of a user's own wallet. */
  lemma UserWalletFacts(db: Db, u: nat)
    requires Inv(db) && UserWallet(u) < |db.wallets|
    ensures var w := db.wallets[UserWallet(u)];
            0 <= LiveHolds(db.intents, db.invoices, db.withdrawals, u) <= w.held <= w.balance
  {
    hide LedgerLaw, FlowLaw, PromoLaw, Sum, LiveHolds;
    LiveHoldsNonNegative(|db.wallets|, db.intents, db.invoices, db.withdrawals, u);
  }

  // ------------------------------------------------------------------ expiry

  /** What expiring an invoice does to its open intent and the hold behind it. */
  lemma CloseOpenIntentEffect(db: Db, i: nat)
    requires Inv(db) && WalletLaw(db) && i < |db.invoices| && db.invoices[i].status.Issued?
    ensures var r := CloseOpenIntent(db, i);
            && r.Ok?
            && r.value == db.(wallets := r.value.wallets, intents := r.value.intents)
            && |r.value.wallets| == |db.wallets|
            && ClosedAtMost(db.intents, r.value.intents, i)
            && LedgerLaw(r.value.wallets, db.ledger) && !Overdrawn(r.value.wallets)
            && (forall w :: 0 <= w < |db.wallets| ==> r.value.wallets[w].balance == db.wallets[w].balance)
            && (forall w :: 0 <= w < SYSTEM_WALLETS ==> r.value.wallets[w].held == db.wallets[w].held)
            && (forall u: nat :: UserWallet(u) < |db.wallets| ==>
                  r.value.wallets[UserWallet(u)].held
                  == db.wallets[UserWallet(u)].held - OpenHold(db.intents, db.invoices, i, u))
  {
    hide LedgerLaw, HoldLaw, FlowLaw, PromoLaw, LiveHolds, OpenIntent, Overdrawn, EscrowDue;
    var open := OpenIntent(db.intents, i);
    if open.Some? {
      var it, amount := db.intents[open.value], db.invoices[i].fromWallet;
      assert IntentWellFormed(it, |db.wallets|, |db.invoices|) && PortionsAddUp(it, db.invoices);
      OpenHoldBounds(|db.wallets|, db.intents, db.invoices, db.withdrawals, i, it.user);
      UserWalletFacts(db, it.user);
      if amount > 0 {
        var w := UserWallet(it.user);
        HeldOnlyKeepsLedger(db.wallets, db.ledger, w, db.wallets[w].held - amount);
        HeldOnlyStaysSolvent(db.wallets, w, db.wallets[w].held - amount);
      }
    }
  }

  lemma ExpireInvoiceKeepsInv(db: Db, i: nat, now: int)
    requires Inv(db) && WalletLaw(db) && ExpireInvoice(db, i, now).Ok?
    ensures var db' := ExpireInvoice(db, i, now).value; Inv(db') && SlackKept(db, db')
  {
    hide Inv, LedgerLaw, HoldLaw, LiveHolds, OpenHold, Overdrawn, CloseOpenIntent;
    if i < |db.invoices| && db.invoices[i].status.Issued? {
      CloseOpenIntentEffect(db, i);
      var closed, inv' := CloseOpenIntent(db, i).value, db.invoices[i].(status := InvoiceExpired);
      var o := db.invoices[i].order;
      IssuedOrder(db, i);
      MoneyOf(db);
      ExpireHolds(db, closed, i, inv');
      var order := db.orders[o];
      var r := if order.status.WaitingPayment? then order.(status := Assigned, total := 0) else order;
      RetiredKeepsInv(db, closed, i, InvoiceExpired, r);
      if !order.status.WaitingPayment? {
        assert db.orders[o := r] == db.orders;
      }
    }
  }

  lemma ExpireHolds(db: Db, closed: Db, i: nat, inv': Invoice)
    requires Inv(db) && i < |db.invoices| && !inv'.status.Issued?
    requires ClosedAtMost(db.intents, closed.intents, i) && |closed.wallets| == |db.wallets|
    requires forall w :: 0 <= w < |db.wallets| ==> closed.wallets[w].balance == db.wallets[w].balance
    requires forall w :: 0 <= w < SYSTEM_WALLETS && w < |db.wallets| ==> closed.wallets[w].held == db.wallets[w].held
    requires forall u: nat :: UserWallet(u) < |db.wallets| ==>
               closed.wallets[UserWallet(u)].held
                   == db.wallets[UserWallet(u)].held - OpenHold(db.intents, db.invoices, i, u)
    ensures HoldLaw(closed.wallets, closed.intents, db.invoices[i := inv'], db.withdrawals)
    ensures forall u: nat ::
              LiveHolds(closed.intents, db.invoices[i := inv'], db.withdrawals, u)
              == LiveHolds(db.intents, db.invoices, db.withdrawals, u) - OpenHold(db.intents, db.invoices, i, u)
  {
    hide LedgerLaw, FlowLaw, PromoLaw, Sum, OpenHold, EscrowDue;
    forall u: nat
      ensures LiveHolds(closed.intents, db.invoices[i := inv'], db.withdrawals, u)
           == LiveHolds(db.intents, db.invoices, db.withdrawals, u) - OpenHold(db.intents, db.invoices, i, u)
      ensures 0 <= OpenHold(db.intents, db.invoices, i, u)
    {
      LeavingIssuedDropsHold(|db.wallets|, db.intents, closed.intents, db.invoices, i, inv', u);
      OpenHoldBounds(|db.wallets|, db.intents, db.invoices, db.withdrawals, i, u);
    }
  }

  // ------------------------------------------------------------------ a pending payment

  lemma PendingKeepsInv(db: Db, db': Db, i: nat, actor: nat, inv': Invoice, it: Intent)
    requires Inv(db) && i < |db.invoices| && db.invoices[i].status.Issued? && OpenIntent(db.intents, i).None?
    requires UserWallet(actor) < |db.wallets| && it == Intent(actor, OrderInvoice(i), it.amount, IntentNew)
        && it.amount > 0
    requires Repriced(db.invoices[i], inv') && 0 <= inv'.fromWallet && inv'.fromWallet + it.amount == inv'.total
    requires inv'.fromWallet <= Available(db, UserWallet(actor))
    requires var w := UserWallet(actor);
             db' == db.(wallets := WithHeld(db.wallets, w, db.wallets[w].held + inv'.fromWallet),
                        invoices := db.invoices[i := inv'], intents := db.intents + [it])
    ensures Inv(db') && SlackKept(db, db')
  {
    hide LedgerLaw, FlowLaw, PromoLaw, EscrowDue, EscrowOnce, KeyLaw, TopupOnce, PayoutOnce, IntentLaw, Sum,
         ActiveInvoice, OpenIntent, Overdrawn;
    var w, n := UserWallet(actor), |db.wallets|;
    UserWalletFacts(db, actor);
    HeldOnlyKeepsLedger(db.wallets, db.ledger, w, db.wallets[w].held + inv'.fromWallet);
    HeldOnlyStaysSolvent(db.wallets, w, db.wallets[w].held + inv'.fromWallet);
    RepriceKeepsFlow(n, db.orders, db.invoices, i, inv');
    OneActiveOf(n, db.orders, db.invoices);
    OneActiveOf(n, db.orders, db'.invoices);
    RepriceKeepsHistory(Entries(db.ledger), db.orders, db.invoices, i, inv');
    PendingKeepsIntents(n, db.intents, db.invoices, i, inv', it);
    RepriceKeeps(db.promos, db.invoices, db.redemptions, i, inv');
    CreditsKept(Entries(db.ledger), db.intents, db'.intents);
    KeysKept(db, db');
    forall u: nat
      ensures LiveHolds(db'.intents, db'.invoices, db'.withdrawals, u)
           == LiveHolds(db.intents, db.invoices, db.withdrawals, u) + (if u == actor then inv'.fromWallet else 0)
    {
      PendingHolds(db.intents, db.invoices, i, inv', it, u);
    }
  }

  lemma OneActiveOf(n: nat, orders: seq<Order>, invoices: seq<Invoice>)
    requires FlowLaw(n, orders, invoices)
    ensures OneActivePerOrder(invoices)
  {
  }

  // ------------------------------------------------------------------ into escrow

  /** Holds after a payment: the payer's wallet portion leaves balance, and the hold too if there was one. */
  ghost predicate PaymentFits(db: Db, i: nat, payer: nat, fromWallet: int, wasHeld: bool) {
    forall u: nat :: UserWallet(u) < |db.wallets| ==>
      var w := db.wallets[UserWallet(u)];
      var held := w.held - (if u == payer && wasHeld then fromWallet else 0);
      LiveHolds(db.intents, db.invoices, db.withdrawals, u) - OpenHold(db.intents, db.invoices, i, u)
      <= held <= w.balance - (if u == payer then fromWallet else 0)
  }

  /** An ISSUED invoice of a waiting order, to be paid in two non-negative portions that make up its total. */
  ghost predicate Payable(db: Db, i: nat, payer: nat, fromWallet: int, fromGateway: int) {
    && i < |db.invoices| && db.invoices[i].status.Issued? && db.invoices[i].order < |db.orders|
    && db.orders[db.invoices[i].order].status.WaitingPayment?
    && UserWallet(payer) < |db.wallets|
    && fromWallet >= 0 && fromGateway >= 0 && fromWallet + fromGateway == db.invoices[i].total
    && fromWallet <= db.wallets[UserWallet(payer)].balance
  }

  lemma EscrowKeyUnspent(db: Db, i: nat)
    requires Inv(db) && i < |db.invoices| && !db.invoices[i].status.InvoicePaid?
    ensures !KeyUsed(Entries(db.ledger), EscrowKey(i))
  {
    hide LedgerLaw, FlowLaw, PromoLaw, EscrowDue, EscrowOnce, TopupOnce, PayoutOnce, IntentLaw, HoldLaw, KeyUsed;
  }

  lemma FundCovered(db: Db, i: nat, payer: nat, fromWallet: int, fromGateway: int)
    requires Inv(db) && Payable(db, i, payer, fromWallet, fromGateway)
    ensures Covered(db.wallets, FundMovement(UserWallet(payer), fromWallet, fromGateway, i, db.invoices[i].order))
  {
    hide LedgerLaw, FlowLaw, PromoLaw, EscrowDue, EscrowOnce, TopupOnce, PayoutOnce, IntentLaw, HoldLaw, KeyLaw;
  }

  /** Funding posts exactly the movement, drops the hold without clamping, and touches nothing else. */
  lemma FundEffect(db: Db, i: nat, payer: nat, fromWallet: int, fromGateway: int, intent: Option<nat>, wasHeld: bool)
    returns (posted: Db)
    requires Inv(db) && Payable(db, i, payer, fromWallet, fromGateway)
    requires wasHeld ==> fromWallet <= db.wallets[UserWallet(payer)].held
    ensures Effect(db, posted, FundMovement(UserWallet(payer), fromWallet, fromGateway, i, db.invoices[i].order))
    ensures var w := UserWallet(payer);
            FundEscrow(db, w, fromWallet, fromGateway, i, db.invoices[i].order, intent, wasHeld)
            == Ok(posted.(wallets := WithHeld(posted.wallets, w,
                db.wallets[w].held - (if wasHeld then fromWallet else 0))))
    ensures !Overdrawn(posted.wallets)
  {
    hide LedgerLaw, FlowLaw, PromoLaw, EscrowDue, EscrowOnce, TopupOnce, PayoutOnce, IntentLaw, HoldLaw, KeyLaw,
         PostGroup, Postable, Extended, Overdrawn, FundLegs, Covered;
    var w, order := UserWallet(payer), db.invoices[i].order;
    var m := FundMovement(w, fromWallet, fromGateway, i, order);
    MoneyOf(db);
    IssuedOrder(db, i);
    EscrowKeyUnspent(db, i);
    FundCovered(db, i, payer, fromWallet, fromGateway);
    FundPostable(w, fromWallet, fromGateway, i, order, intent, |db.ledger|, |db.wallets|);
    PostHasEffect(db, FundLegs(w, fromWallet, fromGateway, i, order, intent), m);
    posted := Post(db, FundLegs(w, fromWallet, fromGateway, i, order, intent)).value.0;
    MovedStaysSolvent(db.wallets, posted.wallets, m);
    assert WithHeld(posted.wallets, w, db.wallets[w].held) == posted.wallets;
  }

  /** The committed state of a settlement: funds in escrow, invoice PAID, order IN_PROGRESS, promo consumed. */
  ghost predicate SettledState(db: Db, posted: Db, db': Db, i: nat, payer: nat, fromWallet: int, fromGateway: int,
      wasHeld: bool,
                               via: PaymentMethod, intents: seq<Intent>)
    requires i < |db.invoices| && db.invoices[i].order < |db.orders|
        && UserWallet(payer) < |db.wallets| <= |posted.wallets|
  {
    var w, o := UserWallet(payer), db.invoices[i].order;
    db' == ConsumePromo(db, i).(
      wallets := WithHeld(posted.wallets, w, db.wallets[w].held - (if wasHeld then fromWallet else 0)),
      ledger := posted.ledger,
      invoices := db.invoices[i := db.invoices[i].(status := InvoicePaid, paymentMethod := Some(via),
                                                   fromWallet := fromWallet, fromGateway := fromGateway)],
      orders := db.orders[o := db.orders[o].(status := InProgress)],
      intents := intents)
  }

  lemma SettledHolds(db: Db, posted: Db, db': Db, i: nat, payer: nat, fromWallet: int, fromGateway: int, wasHeld: bool,
                     via: PaymentMethod, intents: seq<Intent>)
    requires Inv(db) && Payable(db, i, payer, fromWallet, fromGateway)
    requires Effect(db, posted, FundMovement(UserWallet(payer), fromWallet, fromGateway, i, db.invoices[i].order))
    requires SettledState(db, posted, db', i, payer, fromWallet, fromGateway, wasHeld, via, intents)
    requires ClosedAtMost(db.intents, intents, i) && PaymentFits(db, i, payer, fromWallet, wasHeld)
    ensures HoldLaw(db'.wallets, db'.intents, db'.invoices, db'.withdrawals)
    ensures forall u: nat :: UserWallet(u) < |db.wallets| ==>
              Slack(db', u) == Slack(db, u) + OpenHold(db.intents, db.invoices, i, u)
                               - (if u == payer && wasHeld then fromWallet else 0)
  {
    hide LedgerLaw, FlowLaw, PromoLaw, EscrowDue, EscrowOnce, TopupOnce, PayoutOnce, KeyLaw, Sum, OpenHold, Extended,
         Overdrawn;
    forall u: nat
      ensures LiveHolds(db'.intents, db'.invoices, db'.withdrawals, u)
           == LiveHolds(db.intents, db.invoices, db.withdrawals, u) - OpenHold(db.intents, db.invoices, i, u)
    {
      LeavingIssuedDropsHold(|db.wallets|, db.intents, intents, db.invoices, i, db'.invoices[i], u);
    }
  }

  lemma SettledKeepsInv(db: Db, posted: Db, db': Db, i: nat, payer: nat, fromWallet: int, fromGateway: int,
      wasHeld: bool,
                        via: PaymentMethod, intents: seq<Intent>)
    requires Inv(db) && Payable(db, i, payer, fromWallet, fromGateway)
    requires wasHeld ==> fromWallet <= db.wallets[UserWallet(payer)].held
    requires Effect(db, posted, FundMovement(UserWallet(payer), fromWallet, fromGateway, i, db.invoices[i].order))
    requires !Overdrawn(posted.wallets)
    requires SettledState(db, posted, db', i, payer, fromWallet, fromGateway, wasHeld, via, intents)
    requires ClosedAtMost(db.intents, intents, i) && CreditsStillFit(db.intents, intents)
    requires PaymentFits(db, i, payer, fromWallet, wasHeld)
    ensures Inv(db')
  {
    hide LedgerLaw, FlowLaw, PromoLaw, EscrowDue, EscrowOnce, TopupOnce, PayoutOnce, IntentLaw, HoldLaw, KeyLaw,
         PaymentFits, Overdrawn, KeyUsed, Trail, ActiveInvoice, OneActivePerOrder, LiveHolds, Slack, CreditsStillFit,
         SumBy, Entries, Uses, IsReserved;
    var n, o, w := |db.wallets|, db.invoices[i].order, UserWallet(payer);
    var m := FundMovement(w, fromWallet, fromGateway, i, o);
    var inv', held := db'.invoices[i], db.wallets[w].held - (if wasHeld then fromWallet else 0);
    var es, es' := Entries(db.ledger), Entries(posted.ledger);
    UserWalletFacts(db, payer);
    SettledHolds(db, posted, db', i, payer, fromWallet, fromGateway, wasHeld, via, intents);
    HeldOnlyKeepsLedger(posted.wallets, posted.ledger, w, held);
    HeldOnlyStaysSolvent(posted.wallets, w, held);
    SettleKeepsFlow(n, db.orders, db.invoices, i, inv', db'.orders[o]);
    OneActiveOf(n, db'.orders, db'.invoices);
    SettleExtendsHistory(n, es, es', db.orders, db.invoices, i, inv', db'.orders[o]);
    LeavingIssuedKeepsIntents(n, db.intents, intents, db.invoices, i, inv');
    TopupUntouched(es, es', db.intents, m);
    CreditsKept(es', db.intents, intents);
    PayoutUntouched(es, es', db.withdrawals, m);
    KeysExtended(db, posted, db', m);
    ConsumedKeepsPromos(db, i, inv');
  }

  lemma ConsumedKeepsPromos(db: Db, i: nat, inv': Invoice)
    requires PromoLaw(db.promos, db.invoices, db.redemptions) && i < |db.invoices| && db.invoices[i].status.Issued?
    requires inv'.status.InvoicePaid? && inv'.promo == db.invoices[i].promo
    ensures ConsumePromo(db, i).promos == db.promos
    ensures PromoLaw(db.promos, db.invoices[i := inv'], ConsumePromo(db, i).redemptions)
  {
    hide Uses;
    PayKeeps(db.promos, db.invoices, db.redemptions, i, inv');
    var r := db.redemptions[i];
    if r.None? {
      assert db.redemptions[i := None] == db.redemptions;
    }
  }

  /** A record can be settled exactly for the ISSUED invoice of a waiting order that is not past its date. */
  lemma SettleRecordOutcome(db: Db, funded: Db, i: nat, via: PaymentMethod, fromWallet: int, fromGateway: int, now: int)
    requires Inv(db) && i < |db.invoices| && !db.invoices[i].status.InvoicePaid?
    requires funded.invoices == db.invoices && funded.orders == db.orders
    ensures db.invoices[i].order < |db.orders|
    ensures SettleRecord(funded, i, via, fromWallet, fromGateway, now).Ok?
       <==> && db.invoices[i].status.Issued? && db.orders[db.invoices[i].order].status.WaitingPayment?
            && InWindow(db.orders[db.invoices[i].order].deliveryDate, now)
  {
    hide LedgerLaw, PromoLaw, EscrowDue, EscrowOnce, TopupOnce, PayoutOnce, IntentLaw, HoldLaw, KeyLaw, ActiveInvoice,
         OneActivePerOrder, ConsumePromo;
    var o := db.invoices[i].order;
    IssuedOrder(db, i);
    OrdersWellFormed(db, o);
    var inv' := db.invoices[i].(status := InvoicePaid, paymentMethod := Some(via), fromWallet := fromWallet,
        fromGateway := fromGateway);
    if db.orders[o].status.WaitingPayment? {
      OnlyIssuedSettles(|db.wallets|, db.orders, db.invoices, i, inv');
    }
  }

  // ------------------------------------------------------------------ paying an invoice

  /** The wallet covers the invoice, so paying it settles it at once. */
  predicate WalletCovers(db: Db, i: nat, actor: nat) {
    i < |db.invoices| && Available(db, UserWallet(actor)) >= db.invoices[i].total
  }

  lemma PayFromWallet(db: Db, i: nat, actor: nat, now: int)
    requires Inv(db) && PayInvoice(db, i, actor, now).Ok? && WalletCovers(db, i, actor)
    ensures var db' := PayInvoice(db, i, actor, now).value;
            Inv(db') && SlackGrows(db, db', i)
  {
    hide Inv, LedgerLaw, Extended, OpenIntent, OneActivePerOrder, SettledState, PaymentFits, SlackGrows, Overdrawn,
         ConsumePromo, FundEscrow, Slack, OpenHold;
    var db', total := PayInvoice(db, i, actor, now).value, db.invoices[i].total;
    IssuedOrder(db, i);
    UserWalletFacts(db, actor);
    var posted := FundEffect(db, i, actor, total, 0, None, false);
    WalletPaymentFits(db, i, actor);
    PaidFromWallet(db, posted, db', i, actor, now);
    SettledKeepsInv(db, posted, db', i, actor, total, 0, false, WalletOnly, db.intents);
    SettledHolds(db, posted, db', i, actor, total, 0, false, WalletOnly, db.intents);
    SlackOfSettled(db, db', i);
  }

  lemma SlackOfSettled(db: Db, db': Db, i: nat)
    requires |db.wallets| == |db'.wallets|
    requires forall u: nat :: UserWallet(u) < |db.wallets| ==>
               Slack(db', u) == Slack(db, u) + OpenHold(db.intents, db.invoices, i, u)
    ensures SlackGrows(db, db', i)
  {
    hide Slack, OpenHold;
  }

  lemma PaidFromWallet(db: Db, posted: Db, db': Db, i: nat, actor: nat, now: int)
    requires PayInvoice(db, i, actor, now) == Ok(db') && WalletCovers(db, i, actor)
    requires i < |db.invoices| && db.invoices[i].order < |db.orders|
        && UserWallet(actor) < |db.wallets| == |posted.wallets|
    requires posted == db.(wallets := posted.wallets, ledger := posted.ledger)
    requires FundEscrow(db, UserWallet(actor), db.invoices[i].total, 0, i, db.invoices[i].order, None, false)
          == Ok(posted.(wallets := WithHeld(posted.wallets, UserWallet(actor), db.wallets[UserWallet(actor)].held)))
    ensures SettledState(db, posted, db', i, actor, db.invoices[i].total, 0, false, WalletOnly, db.intents)
    ensures |db'.wallets| == |db.wallets|
  {
    hide FundEscrow, OpenIntent, OneActivePerOrder;
  }

  lemma WalletPaymentFits(db: Db, i: nat, actor: nat)
    requires Inv(db) && i < |db.invoices| && UserWallet(actor) < |db.wallets| && WalletCovers(db, i, actor)
    ensures PaymentFits(db, i, actor, db.invoices[i].total, false)
  {
    hide LedgerLaw, FlowLaw, PromoLaw, EscrowDue, EscrowOnce, TopupOnce, PayoutOnce, KeyLaw, LiveHolds, OpenHold;
    forall u: nat | UserWallet(u) < |db.wallets|
      ensures 0 <= OpenHold(db.intents, db.invoices, i, u)
      ensures LiveHolds(db.intents, db.invoices, db.withdrawals,
          u) <= db.wallets[UserWallet(u)].held <= db.wallets[UserWallet(u)].balance
    {
      OpenHoldBounds(|db.wallets|, db.intents, db.invoices, db.withdrawals, i, u);
    }
  }

  lemma PayInvoiceKeepsInv(db: Db, i: nat, actor: nat, now: int)
    requires Inv(db) && PayInvoice(db, i, actor, now).Ok?
    ensures var db' := PayInvoice(db, i, actor, now).value;
            Inv(db') && if WalletCovers(db, i, actor) then SlackGrows(db, db', i) else SlackKept(db, db')
  {
    hide Inv, OpenIntent, FundEscrow, SettleRecord, SlackGrows, SlackKept;
    if WalletCovers(db, i, actor) {
      PayFromWallet(db, i, actor, now);
    } else if OpenIntent(db.intents, i).None? {
      IssuedOrder(db, i);
      UserWalletFacts(db, actor);
      PendingPay(db, i, actor, now);
    } else {
      SlackReflexive(db);
    }
  }

  lemma SlackReflexive(db: Db)
    ensures SlackKept(db, db)
  {
  }

  lemma PendingPay(db: Db, i: nat, actor: nat, now: int)
    requires Inv(db) && PayInvoice(db, i, actor, now).Ok? && !WalletCovers(db, i, actor)
        && OpenIntent(db.intents, i).None?
    requires UserWallet(actor) < |db.wallets| && 0 <= Available(db, UserWallet(actor))
    ensures var db' := PayInvoice(db, i, actor, now).value;
            Inv(db') && SlackKept(db, db')
  {
    hide Inv, OpenIntent, FundEscrow, SettleRecord, SlackKept;
    var db', w := PayInvoice(db, i, actor, now).value, UserWallet(actor);
    if Available(db, w) == 0 {
      assert WithHeld(db.wallets, w, db.wallets[w].held) == db.wallets;
    }
    PendingKeepsInv(db, db', i, actor, db'.invoices[i], db'.intents[|db.intents|]);
  }

  // ------------------------------------------------------------------ webhooks

  lemma WebhookFailedKeepsInv(db: Db, j: nat)
    requires Inv(db) && j < |db.intents| && db.intents[j].status.IntentNew?
    ensures var db' := SetIntent(db, j, IntentFailed);
            && Inv(db')
            && forall u: nat :: UserWallet(u) < |db.wallets| ==>
                 Slack(db', u) == Slack(db, u) + IntentHold(db.intents[j], db.invoices, u)
  {
    hide LedgerLaw, FlowLaw, PromoLaw, EscrowDue, EscrowOnce, TopupOnce, PayoutOnce, KeyLaw, Sum, Overdrawn, IntentLaw;
    var db' := SetIntent(db, j, IntentFailed);
    CloseKeepsIntents(|db.wallets|, db.intents, db.invoices, j, IntentFailed);
    CreditsKept(Entries(db.ledger), db.intents, db'.intents);
    KeysKept(db, db');
    forall u: nat
      ensures LiveHolds(db'.intents, db'.invoices, db'.withdrawals, u)
           == LiveHolds(db.intents, db.invoices, db.withdrawals, u) - IntentHold(db.intents[j], db.invoices, u)
      ensures 0 <= IntentHold(db.intents[j], db.invoices, u)
    {
      CloseDropsHold(db.intents, db.invoices, j, IntentFailed, u);
      HoldNonNegative(|db.wallets|, db.intents, db.invoices, u);
    }
  }

  /** Closing an intent that holds nothing: an expired top-up, or a payment for an invoice already PAID. */
  lemma IdleCloseKeepsInv(db: Db, j: nat, status: IntentStatus)
    requires Inv(db) && j < |db.intents| && !status.IntentNew?
    requires forall u: nat :: IntentHold(db.intents[j], db.invoices, u) == 0
    requires status.IntentExpired? || (status.IntentPaid? && db.intents[j].purpose.OrderInvoice?)
    ensures Inv(SetIntent(db, j, status)) && SlackKept(db, SetIntent(db, j, status))
  {
    hide LedgerLaw, FlowLaw, PromoLaw, EscrowDue, EscrowOnce, TopupOnce, PayoutOnce, KeyLaw, Sum, Overdrawn,
         IntentLaw, HoldLaw, SlackKept, IntentHold;
    var db' := SetIntent(db, j, status);
    CloseKeepsIntents(|db.wallets|, db.intents, db.invoices, j, status);
    CreditsKept(Entries(db.ledger), db.intents, db'.intents);
    KeysKept(db, db');
    forall u: nat ensures Sum(IntentHolds(db'.intents, db'.invoices, u))
        == Sum(IntentHolds(db.intents, db.invoices, u)) {
      CloseDropsHold(db.intents, db.invoices, j, status, u);
    }
    HoldsAlike(db, db');
  }

  lemma GatewayPaymentFits(db: Db, j: nat, i: nat)
    requires Inv(db) && j < |db.intents| && IsOpenFor(db.intents[j], i) && i < |db.invoices|
        && db.invoices[i].status.Issued?
    ensures var it, w := db.intents[j], db.invoices[i].fromWallet;
            && UserWallet(it.user) < |db.wallets|
            && w >= 0 && it.amount > 0 && w + it.amount == db.invoices[i].total
            && w <= db.wallets[UserWallet(it.user)].held <= db.wallets[UserWallet(it.user)].balance
            && PaymentFits(db, i, it.user, w, w > 0)
            && forall u: nat :: OpenHold(db.intents, db.invoices, i, u) == if u == it.user then w else 0
  {
    hide LedgerLaw, FlowLaw, PromoLaw, EscrowDue, EscrowOnce, TopupOnce, PayoutOnce, KeyLaw, Sum, Overdrawn,
         OpenIntent, LiveHolds;
    var it := db.intents[j];
    assert IntentWellFormed(it, |db.wallets|, |db.invoices|) && PortionsAddUp(it, db.invoices);
    OpenIs(db.intents, j, i);
    forall u: nat ensures OpenHold(db.intents, db.invoices, i, u) == if u == it.user then db.invoices[i].fromWallet
        else 0 {
    }
    OpenHoldBounds(|db.wallets|, db.intents, db.invoices, db.withdrawals, i, it.user);
  }

  /** A paid webhook for the open intent of an ISSUED invoice. */
  lemma GatewaySettleKeepsInv(db: Db, j: nat, i: nat, now: int)
    requires Inv(db) && j < |db.intents| && IsOpenFor(db.intents[j], i) && i < |db.invoices|
        && db.invoices[i].status.Issued?
    requires SettleInvoice(db, j, i, now).Ok?
    ensures var db' := SettleInvoice(db, j, i, now).value
        .(intents := db.intents[j := db.intents[j].(status := IntentPaid)]);
            Inv(db') && SlackKept(db, db')
  {
    hide Inv, LedgerLaw, Extended, OpenIntent, OneActivePerOrder, PaymentFits, Overdrawn, FundEscrow, Slack,
         OpenHold, SettledState;
    var it, inv, order := db.intents[j], db.invoices[i], db.invoices[i].order;
    var intents := db.intents[j := it.(status := IntentPaid)];
    IssuedOrder(db, i);
    GatewayPaymentFits(db, j, i);
    SettlesOnlyWaiting(db, j, i, now);
    var posted := FundEffect(db, i, it.user, inv.fromWallet, it.amount, Some(j), inv.fromWallet > 0);
    var via := if inv.paymentMethod.Some? then inv.paymentMethod.value else GatewayOnly;
    var db' := SettleInvoice(db, j, i, now).value.(intents := intents);
    SettledByGateway(db, posted, db', j, i, now);
    SettledKeepsInv(db, posted, db', i, it.user, inv.fromWallet, it.amount, inv.fromWallet > 0, via, intents);
    SettledHolds(db, posted, db', i, it.user, inv.fromWallet, it.amount, inv.fromWallet > 0, via, intents);
  }

  lemma SettledByGateway(db: Db, posted: Db, db': Db, j: nat, i: nat, now: int)
    requires j < |db.intents| && i < |db.invoices| && db.invoices[i].order < |db.orders|
        && db.invoices[i].status.Issued?
    requires SettleInvoice(db, j, i, now).Ok?
    requires UserWallet(db.intents[j].user) < |db.wallets| == |posted.wallets|
    requires posted == db.(wallets := posted.wallets, ledger := posted.ledger)
    requires var inv, w := db.invoices[i], UserWallet(db.intents[j].user);
             FundEscrow(db, w, inv.fromWallet, db.intents[j].amount, i, inv.order, Some(j), inv.fromWallet > 0)
             == Ok(posted.(wallets := WithHeld(posted.wallets, w,
                 db.wallets[w].held - (if inv.fromWallet > 0 then inv.fromWallet else 0))))
    requires db' == SettleInvoice(db, j, i, now).value
        .(intents := db.intents[j := db.intents[j].(status := IntentPaid)])
    ensures var inv := db.invoices[i];
            SettledState(db, posted, db', i, db.intents[j].user, inv.fromWallet, db.intents[j].amount,
                inv.fromWallet > 0,
                         if inv.paymentMethod.Some? then inv.paymentMethod.value else GatewayOnly,
                         db.intents[j := db.intents[j].(status := IntentPaid)])
    ensures |db'.wallets| == |db.wallets|
  {
    hide FundEscrow, OpenIntent, OneActivePerOrder;
  }

  lemma FundKeepsRecords(db: Db, w: nat, fromWallet: int, fromGateway: int, i: nat, o: nat, intent: Option<nat>,
      wasHeld: bool)
    requires FundEscrow(db, w, fromWallet, fromGateway, i, o, intent, wasHeld).Ok?
    ensures var f := FundEscrow(db, w, fromWallet, fromGateway, i, o, intent, wasHeld).value;
            f.invoices == db.invoices && f.orders == db.orders
  {
    hide WellFormed, AnyKeyExists, Overdrawn, ApplyLegs, RowsOf, FundLegs;
  }

  /** A settlement that is not a replay commits only for an ISSUED invoice of a waiting order: one on a
      CANCELLED or EXPIRED invoice always aborts. */
  lemma SettlesOnlyWaiting(db: Db, j: nat, i: nat, now: int)
    requires Inv(db) && j < |db.intents| && i < |db.invoices| && !db.invoices[i].status.InvoicePaid?
    requires SettleInvoice(db, j, i, now).Ok?
    ensures db.invoices[i].order < |db.orders|
    ensures db.invoices[i].status.Issued? && db.orders[db.invoices[i].order].status.WaitingPayment?
  {
    hide Inv, FundEscrow, OneActivePerOrder, SettleRecord;
    var it, inv := db.intents[j], db.invoices[i];
    var r := FundEscrow(db, UserWallet(it.user), inv.fromWallet, it.amount, i, inv.order, Some(j), inv.fromWallet > 0);
    FundKeepsRecords(db, UserWallet(it.user), inv.fromWallet, it.amount, i, inv.order, Some(j), inv.fromWallet > 0);
    var via := if inv.paymentMethod.Some? then inv.paymentMethod.value else GatewayOnly;
    SettleRecordOutcome(db, r.value, i, via, inv.fromWallet, it.amount, now);
  }

  /** A paid webhook for a top-up credits it. */
  lemma TopupSettleKeepsInv(db: Db, j: nat)
    requires Inv(db) && j < |db.intents| && db.intents[j].status.IntentNew? && db.intents[j].purpose.WalletTopup?
    requires HasWallet(db, db.intents[j].user)
    ensures var r := SettleTopup(db, j);
            && r.Ok?
            && var db' := r.value.(intents := db.intents[j := db.intents[j].(status := IntentPaid)]);
               Inv(db') && SlackKept(db, db') && |db'.wallets| == |db.wallets|
  {
    hide LedgerLaw, FlowLaw, PromoLaw, EscrowDue, EscrowOnce, TopupOnce, PayoutOnce, KeyLaw, Sum, Overdrawn,
         IntentLaw, Extended, PostGroup, Postable, KeyUsed, TopupLegs, LiveHolds;
    var it := db.intents[j];
    var w, m := UserWallet(it.user), TopupMovement(UserWallet(it.user), it.amount, j);
    IntentOf(db, j);
    MoneyOf(db);
    TopupKeyUnspent(db, j);
    TopupPostable(w, it.amount, j, |db.ledger|, |db.wallets|);
    CreditCovered(db, m);
    PostHasEffect(db, TopupLegs(w, it.amount, j), m);
    var posted := Post(db, TopupLegs(w, it.amount, j)).value.0;
    var db' := posted.(intents := db.intents[j := it.(status := IntentPaid)]);
    MovedStaysSolvent(db.wallets, posted.wallets, m);
    CloseKeepsIntents(|db.wallets|, db.intents, db.invoices, j, IntentPaid);
    EscrowUntouched(Entries(db.ledger), Entries(posted.ledger), db.orders, db.invoices, m);
    PayoutUntouched(Entries(db.ledger), Entries(posted.ledger), db.withdrawals, m);
    CreditPosted(Entries(db.ledger), Entries(posted.ledger), db.intents, j, m);
    KeysExtended(db, posted, db', m);
    forall u: nat
      ensures LiveHolds(db'.intents, db'.invoices, db'.withdrawals, u)
          == LiveHolds(db.intents, db.invoices, db.withdrawals, u)
    {
      ClosedTopupHolds(db, j, u);
    }
  }

  lemma ClosedTopupHolds(db: Db, j: nat, u: nat)
    requires j < |db.intents| && db.intents[j].purpose.WalletTopup?
    ensures LiveHolds(db.intents[j := db.intents[j].(status := IntentPaid)], db.invoices, db.withdrawals, u)
         == LiveHolds(db.intents, db.invoices, db.withdrawals, u)
  {
    hide Sum;
    CloseDropsHold(db.intents, db.invoices, j, IntentPaid, u);
  }

  lemma IntentOf(db: Db, j: nat)
    requires Inv(db) && j < |db.intents|
    ensures IntentWellFormed(db.intents[j], |db.wallets|, |db.invoices|)
  {
  }

  lemma TopupKeyUnspent(db: Db, j: nat)
    requires Inv(db) && j < |db.intents| && db.intents[j].status.IntentNew?
    ensures !KeyUsed(Entries(db.ledger), TopupKey(j))
  {
    hide LedgerLaw, FlowLaw, PromoLaw, EscrowDue, EscrowOnce, TopupOnce, PayoutOnce, IntentLaw, HoldLaw, KeyUsed;
  }

  /** A movement that debits only exempt wallets is always covered. */
  lemma CreditCovered(db: Db, m: Movement)
    requires Inv(db)
    requires forall w: nat :: w != GATEWAY && w != REVENUE ==> Delta(m, w) >= 0
    ensures Covered(db.wallets, m)
  {
    hide LedgerLaw, FlowLaw, PromoLaw, EscrowDue, EscrowOnce, TopupOnce, PayoutOnce, IntentLaw, HoldLaw, KeyLaw, Delta;
  }

  lemma WebhookKeepsInv(db: Db, j: nat, paid: bool, amount: Option<int>, now: int)
    requires Inv(db) && Webhook(db, j, paid, amount, now).Ok?
    ensures var db' := Webhook(db, j, paid, amount, now).value;
            && Inv(db') && |db'.wallets| == |db.wallets|
            && forall u: nat :: UserWallet(u) < |db.wallets| ==>
                 Slack(db', u) == Slack(db, u)
                   + (if db.intents[j].status.IntentNew? && !paid then IntentHold(db.intents[j], db.invoices, u) else 0)
  {
    hide Inv, SettleTopup, SettleInvoice, Slack;
    if db.intents[j].status.IntentNew? {
      if !paid {
        WebhookFailedKeepsInv(db, j);
      } else {
        match db.intents[j].purpose {
          case WalletTopup =>
            SettledTopupHasWallet(db, j);
            TopupSettleKeepsInv(db, j);
          case OrderInvoice(i) =>
            InvoiceWebhook(db, j, i, now);
        }
      }
    }
  }

  lemma SettledTopupHasWallet(db: Db, j: nat)
    requires j < |db.intents| && SettleTopup(db, j).Ok?
    ensures HasWallet(db, db.intents[j].user)
  {
    hide PostGroup;
  }

  lemma InvoiceWebhook(db: Db, j: nat, i: nat, now: int)
    requires Inv(db) && j < |db.intents| && IsOpenFor(db.intents[j], i) && SettleInvoice(db, j, i, now).Ok?
    ensures var db' := SettleInvoice(db, j, i, now).value
        .(intents := db.intents[j := db.intents[j].(status := IntentPaid)]);
            && Inv(db') && SlackKept(db, db') && |db'.wallets| == |db.wallets|
  {
    hide Inv, SlackKept, FundEscrow, SettleRecord;
    var db' := SettleInvoice(db, j, i, now).value.(intents := db.intents[j := db.intents[j].(status := IntentPaid)]);
    if db.invoices[i].status.InvoicePaid? {
      IdleCloseKeepsInv(db, j, IntentPaid);
    } else {
      SettlesOnlyWaiting(db, j, i, now);
      GatewaySettleKeepsInv(db, j, i, now);
      SettleKeepsWallets(db, j, i, now);
    }
  }

  lemma SettleKeepsWallets(db: Db, j: nat, i: nat, now: int)
    requires j < |db.intents| && SettleInvoice(db, j, i, now).Ok?
    ensures |SettleInvoice(db, j, i, now).value.wallets| == |db.wallets|
  {
    hide WellFormed, AnyKeyExists, Overdrawn, RowsOf, FundLegs, OneActivePerOrder;
  }

  // ------------------------------------------------------------------ top-up intents

  lemma CreateTopupKeepsInv(cfg: Settings, db: Db, user: nat, amount: real)
    requires Inv(db) && CreateTopup(cfg, db, user, amount).Ok?
    ensures Inv(CreateTopup(cfg, db, user, amount).value) && SlackKept(db, CreateTopup(cfg, db, user, amount).value)
  {
    hide LedgerLaw, FlowLaw, PromoLaw, EscrowDue, EscrowOnce, TopupOnce, PayoutOnce, KeyLaw, Sum, Overdrawn,
         IntentLaw, HoldLaw, SlackKept, Quantize;
    var db' := CreateTopup(cfg, db, user, amount).value;
    NewTopupKeepsIntents(|db.wallets|, db.intents, db.invoices, db'.intents[|db.intents|]);
    CreditsKept(Entries(db.ledger), db.intents, db'.intents);
    KeysKept(db, db');
    HoldsAlike(db, db');
  }

  lemma ExpireTopupKeepsInv(db: Db, j: nat)
    requires Inv(db)
    ensures var r := ExpireTopup(db, j);
            r.Ok? && Inv(r.value) && SlackKept(db, r.value)
  {
    hide Inv, SlackKept;
    if j < |db.intents| && db.intents[j].purpose.WalletTopup? {
      IdleCloseKeepsInv(db, j, IntentExpired);
    } else {
      SlackReflexive(db);
    }
  }
}
