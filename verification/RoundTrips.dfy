/** What one call undoes of another. */
module RoundTrips {
  import opened Results
  import opened Money
  import opened Tables
  import opened OrderState
  import opened Ledger
  import opened MoneyOps
  import opened Market
  import opened Laws
  import opened HoldProofs
  import opened StepProofs
  import opened MoneyProofs
  import opened SettlementProofs
  import opened FlowProofs
  import Outcomes
  import Movements
  import Evolution
  import Pricing

  /** A hold takes its amount out of what is available, never below zero, and leaves every balance alone; releasing
      the amount gives back exactly the state before. */
  lemma HoldThenRelease(db: Db, user: nat, amount: nat)
    requires Inv(db) && UserWallet(user) < |db.wallets|
    ensures var w, r := UserWallet(user), HoldFunds(db, UserWallet(user), amount);
            && (r.Ok? <==> Available(db, w) >= amount)
            && (r.Ok? ==> && Available(r.value, w) == Available(db, w) - amount >= 0
                          && Balances(r.value.wallets) == Balances(db.wallets)
                          && ReleaseHold(r.value, w, amount) == Ok(db))
  {
    hide Inv;
    UserWalletFacts(db, user);
    var w := UserWallet(user);
    var r := HoldFunds(db, w, amount);
    if r.Ok? {
      assert r.value.wallets[w := db.wallets[w]] == db.wallets;
    }
  }

  /** Rejecting a withdrawal, approved in between or not, gives back exactly the wallets before the request; and
      repeating the request under its key changes nothing. */
  lemma RequestThenReject(cfg: Settings, db: Db, courier: nat, amount: real, again: real, key: string)
    requires cfg.Valid() && Inv(db) && !HasWithdrawal(db.withdrawals, courier, key)
    requires RequestWithdrawal(cfg, db, courier, amount, key).Ok?
    ensures var k, requested := |db.withdrawals|, RequestWithdrawal(cfg, db, courier, amount, key).value;
            && k < |requested.withdrawals|
            && RequestWithdrawal(cfg, requested, courier, again, key) == Ok(requested)
            && var approved := ApproveWithdrawal(requested, k);
               && approved.Ok? && approved.value.withdrawals[..k] == requested.withdrawals[..k]
               && approved.value.withdrawals[k] == requested.withdrawals[k].(status := Approved)
               && requested.withdrawals[k].status.Requested? && approved.value.wallets == requested.wallets
               && var undone, unapproved := RejectWithdrawal(approved.value, k), RejectWithdrawal(requested, k);
                  && undone.Ok? && undone.value.wallets == db.wallets && undone.value.overReleases == db.overReleases
                  && unapproved.Ok? && unapproved.value.wallets == db.wallets
  {
    hide Inv, Quantize;
    var k, requested := |db.withdrawals|, RequestWithdrawal(cfg, db, courier, amount, key).value;
    UserWalletFacts(db, courier);
    assert requested.withdrawals[k].courier == courier && requested.withdrawals[k].idempotencyKey == key;
    var w := UserWallet(courier);
    assert requested.wallets[w := db.wallets[w]] == db.wallets;
  }

  /** A withdrawal requested, approved and marked paid: all three commit, and in the end the courier has exactly the
      rounded amount less, nothing more is held, and the gateway has paid it out. */
  lemma RequestThenPay(cfg: Settings, db: Db, courier: nat, amount: real, key: string)
    requires cfg.Valid() && Inv(db) && !HasWithdrawal(db.withdrawals, courier, key)
    requires HasWallet(db, courier) && cfg.minWithdrawal <= Quantize(amount) <= cfg.maxWithdrawal
    requires Quantize(amount) <= Available(db, UserWallet(courier))
    ensures var a, w, k := Quantize(amount), UserWallet(courier), |db.withdrawals|;
            var requested := RequestWithdrawal(cfg, db, courier, amount, key);
            && requested.Ok?
            && var approved := ApproveWithdrawal(requested.value, k);
               && approved.Ok?
               && var paid := MarkWithdrawalPaid(approved.value, k);
                  && paid.Ok? && |paid.value.wallets| == |db.wallets|
                  && paid.value.withdrawals == db.withdrawals + [Withdrawal(courier, a, WithdrawalPaid, key)]
                  && paid.value.wallets[w] == Wallet(db.wallets[w].balance - a, db.wallets[w].held)
                  && GATEWAY < |db.wallets|
                  && paid.value.wallets[GATEWAY].balance == db.wallets[GATEWAY].balance + a
                  && forall v :: 0 <= v < |db.wallets| && v != w && v != GATEWAY ==>
                       paid.value.wallets[v].balance == db.wallets[v].balance
  {
    hide Inv, Quantize, HasWithdrawal, MarkWithdrawalPaid;
    var a, k := Quantize(amount), |db.withdrawals|;
    RequestedState(cfg, db, courier, amount, key);
    var requested := RequestWithdrawal(cfg, db, courier, amount, key).value;
    RequestWithdrawalKeepsInv(cfg, db, courier, amount, key);
    ApproveWithdrawalKeepsInv(requested, k);
    var approved := ApproveWithdrawal(requested, k).value;
    MoneyOf(approved);
    Outcomes.MarkPaidOutcome(approved, k);
  }

  lemma RequestedState(cfg: Settings, db: Db, courier: nat, amount: real, key: string)
    requires !HasWithdrawal(db.withdrawals, courier, key)
    requires HasWallet(db, courier) && cfg.minWithdrawal <= Quantize(amount) <= cfg.maxWithdrawal
    requires Quantize(amount) <= Available(db, UserWallet(courier))
    ensures var a, w := Quantize(amount), UserWallet(courier);
            RequestWithdrawal(cfg, db, courier, amount, key)
            == Ok(db.(wallets := db.wallets[w := db.wallets[w].(held := db.wallets[w].held + a)],
                      withdrawals := db.withdrawals + [Withdrawal(courier, a, Requested, key)]))
  {
    hide Quantize, HasWithdrawal;
  }

  /** Cancelling a freshly issued invoice returns its promo slot, and no wallet, intent or ledger row has changed. */
  lemma IssueThenCancel(
      cfg: Settings, db: Db, o: nat, actor: nat, lines: seq<LineInput>, fee: nat, promo: Option<nat>, now: int,
          later: int)
    requires Inv(db) && CreateInvoice(cfg, db, o, actor, lines, fee, promo, now).Ok?
    ensures var i, issued := |db.invoices|, CreateInvoice(cfg, db, o, actor, lines, fee, promo, now).value;
            var r := CancelInvoice(issued, i, actor, later);
            && o < |db.orders| && (r.Ok? <==> InWindow(db.orders[o].deliveryDate, later))
            && (r.Ok? ==> && r.value.promos == db.promos && r.value.wallets == db.wallets && r.value.ledger == db.ledger
                          && r.value.intents == db.intents && o < |r.value.orders|
                              && r.value.orders[o].status.Assigned?)
  {
    hide Inv, CreateInvoice, CancelInvoice, InWindow;
    var issued := CreateInvoice(cfg, db, o, actor, lines, fee, promo, now).value;
    Evolution.IssueShape(cfg, db, o, actor, lines, fee, promo, now);
    RedemptionsOf(db);
    OrdersWellFormed(db, o);
    CancelUndoes(db, issued, o, actor, promo, later);
  }

  lemma CancelUndoes(db: Db, issued: Db, o: nat, actor: nat, promo: Option<nat>, later: int)
    requires Evolution.FreshlyIssued(db, issued, o, actor, promo) && |db.redemptions| == |db.invoices|
    requires OrderWellFormed(db.orders[o], |db.wallets|)
    ensures var r := CancelInvoice(issued, |db.invoices|, actor, later);
            && (r.Ok? <==> InWindow(db.orders[o].deliveryDate, later))
            && (r.Ok? ==> && r.value.promos == db.promos && r.value.wallets == db.wallets && r.value.ledger == db.ledger
                          && r.value.intents == db.intents && o < |r.value.orders|
                              && r.value.orders[o].status.Assigned?)
  {
    hide InWindow;
    if promo.Some? {
      assert issued.promos[promo.value := db.promos[promo.value]] == db.promos;
    }
  }

  lemma RedemptionsOf(db: Db)
    requires Inv(db)
    ensures |db.redemptions| == |db.invoices|
  {
  }
}
