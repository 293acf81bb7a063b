/** When the calls that move no money commit, and exactly what they then leave: every request by its own fields. */
module Calls {
  import opened Results
  import opened Money
  import opened Tables
  import opened OrderState
  import opened Ledger
  import opened MoneyOps
  import opened Market
  import opened Laws
  import opened HoldProofs
  import opened StepProofs
  import opened MoneyProofs
  import opened SettlementProofs
  import opened Outcomes

  /** Registration gives the next user an empty wallet; the dashboard creates the next user without one. Nobody else's
      wallet changes. */
  lemma NewUserOutcome(cfg: Settings, db: Db, now: int, user: nat)
    requires Inv(db) && WalletLaw(db)
    ensures var registered, created := Step(db, Request(cfg, now, CallRegister)),
                                       Step(db, Request(cfg, now, CallCreateUser));
            && registered.Ok? && created.Ok?
            && UserWallet(|db.wallets| - SYSTEM_WALLETS) == |db.wallets|
            && registered.value == db.(wallets := db.wallets + [Wallet(0, 0)])
            && created.value == db.(wallets := db.wallets + [Wallet(0, 0)],
                                    emptySlots := db.emptySlots + {|db.wallets|})
            && (HasWallet(registered.value, user) <==> HasWallet(db, user) || UserWallet(user) == |db.wallets|)
            && (HasWallet(created.value, user) <==> HasWallet(db, user))
            && (HasUser(created.value, user) <==> HasUser(db, user) || UserWallet(user) == |db.wallets|)
  {
    hide Inv;
    SystemWalletsExist(db);
  }

  lemma SystemWalletsExist(db: Db)
    requires Inv(db)
    ensures |db.wallets| >= SYSTEM_WALLETS
  {
    hide FlowLaw, EscrowFunded, EscrowOnce, IntentLaw, HoldLaw, KeyLaw, TopupOnce, PayoutOnce, PromoLaw, Overdrawn;
  }

  /** The requests that move money reach their services with their own arguments, settings and time. */
  lemma Reaches(cfg: Settings, db: Db, now: int, a: nat, b: nat, lines: seq<LineInput>, fee: nat,
      promo: Option<nat>, paid: bool, amount: Option<int>, outcome: DisputeStatus, share: Option<real>)
    ensures Step(db, Request(cfg, now, CallCreateInvoice(a, b, lines, fee, promo)))
         == CreateInvoice(cfg, db, a, b, lines, fee, promo, now)
    ensures Step(db, Request(cfg, now, CallCancelInvoice(a, b))) == CancelInvoice(db, a, b, now)
    ensures Step(db, Request(cfg, now, CallExpireInvoice(a))) == ExpireInvoice(db, a, now)
    ensures Step(db, Request(cfg, now, CallPayInvoice(a, b))) == PayInvoice(db, a, b, now)
    ensures Step(db, Request(cfg, now, CallWebhook(a, paid, amount))) == Webhook(db, a, paid, amount, now)
    ensures Step(db, Request(cfg, now, CallApproveOrder(a, b))) == ApproveOrder(cfg, db, a, b, now)
    ensures Step(db, Request(cfg, now, CallAutoApprove(a))) == AutoApprove(cfg, db, a, now)
    ensures Step(db, Request(cfg, now, CallResolveDispute(a, outcome, share)))
         == ResolveDispute(cfg, db, a, outcome, share, now)
    ensures Step(db, Request(cfg, now, CallMarkWithdrawalPaid(a))) == MarkWithdrawalPaid(db, a)
  {
    hide CreateInvoice, CancelInvoice, ExpireInvoice, PayInvoice, Webhook, ApproveOrder, AutoApprove, ResolveDispute,
         MarkWithdrawalPaid;
  }

  /** The sweep completes a DELIVERED order as an approval would, and leaves every other as it is; an approval takes one
      who takes part in the order. */
  lemma ApprovalOutcome(cfg: Settings, db: Db, o: nat, actor: nat, now: int)
    ensures AutoApprove(cfg, db, o, now)
         == if o < |db.orders| && db.orders[o].status.Delivered? then CompleteAndRelease(cfg, db, o, now) else Ok(db)
    ensures ApproveOrder(cfg, db, o, actor, now)
         == if TakesPart(db, o, actor) then CompleteAndRelease(cfg, db, o, now) else Err(NotFound)
  {
    hide CompleteAndRelease;
  }

  // ------------------------------------------------------------------ orders

  /** From the start of the day 180 days before the delivery date to the end of the delivery day, in seconds. */
  ghost predicate InTime(date: int, now: int) {
    86400 * (date - 180) <= now < 86400 * (date + 1)
  }

  lemma WindowInSeconds(date: int, now: int)
    ensures InWindow(date, now) <==> InTime(date, now)
  {
  }

  /** An order is created exactly for an account that exists and a date in time. It starts NEW, with no courier and
      nothing to pay. */
  lemma CreateOrderOutcome(cfg: Settings, db: Db, customer: nat, date: int, now: int)
    ensures var r := Step(db, Request(cfg, now, CallCreateOrder(customer, date)));
            && (r.Ok? <==> UserWallet(customer) < |db.wallets| && InTime(date, now))
            && (r.Ok? ==> r.value == db.(orders := db.orders
                 + [Order(customer := customer, courier := None, status := New, total := 0, commission := 0,
                          payout := 0, deliveryDate := date)]))
  {
    hide InWindow, InTime;
    WindowInSeconds(date, now);
  }

  /** What a change of one order leaves. */
  ghost predicate OrderSet(db: Db, r: Result<Db>, o: nat, row: Order) {
    o < |db.orders| && r == Ok(db.(orders := db.orders[o := row]))
  }

  /** The date is moved exactly while the order is NEW or ASSIGNED, to a date in time. */
  lemma RescheduleOutcome(cfg: Settings, db: Db, o: nat, date: int, now: int)
    requires Inv(db)
    ensures var r := Step(db, Request(cfg, now, CallRescheduleOrder(o, date)));
            && (r.Ok? <==> o < |db.orders| && (db.orders[o].status.New? || db.orders[o].status.Assigned?)
                           && InTime(date, now))
            && (r.Ok? ==> OrderSet(db, r, o, db.orders[o].(deliveryDate := date)))
  {
    hide Inv, InWindow, InTime;
    WindowInSeconds(date, now);
    if o < |db.orders| {
      OrdersWellFormed(db, o);
    }
  }

  /** An order is accepted exactly by an account that exists, while it is NEW and in time; it then has that courier. */
  lemma AcceptOutcome(cfg: Settings, db: Db, o: nat, courier: nat, now: int)
    requires Inv(db)
    ensures var r := Step(db, Request(cfg, now, CallAcceptOrder(o, courier)));
            && (r.Ok? <==> UserWallet(courier) < |db.wallets| && o < |db.orders| && db.orders[o].status.New?
                           && InTime(db.orders[o].deliveryDate, now))
            && (r.Ok? ==> OrderSet(db, r, o, db.orders[o].(courier := Some(courier), status := Assigned)))
            && (UserWallet(courier) < |db.wallets| && o < |db.orders| && !db.orders[o].status.New?
                ==> r == Err(AlreadyAssigned))
  {
    hide Inv, InWindow, InTime;
    if o < |db.orders| {
      OrdersWellFormed(db, o);
      WindowInSeconds(db.orders[o].deliveryDate, now);
    }
  }

  ghost predicate TakesPart(db: Db, o: nat, actor: nat) {
    o < |db.orders| && (actor == db.orders[o].customer || Some(actor) == db.orders[o].courier)
  }

  /** An order is cancelled exactly by one who takes part in it, before it is paid and in time. */
  lemma CancelOrderOutcome(cfg: Settings, db: Db, o: nat, actor: nat, now: int)
    requires Inv(db)
    ensures var r := Step(db, Request(cfg, now, CallCancelOrder(o, actor)));
            && (r.Ok? <==> && TakesPart(db, o, actor)
                           && (var s := db.orders[o].status; s.New? || s.Assigned? || s.WaitingPayment?)
                           && InTime(db.orders[o].deliveryDate, now))
            && (r.Ok? ==> OrderSet(db, r, o, db.orders[o].(status := Cancelled)))
            && (!TakesPart(db, o, actor) ==> r == Err(NotFound))
  {
    hide Inv, InWindow, InTime;
    if o < |db.orders| {
      OrdersWellFormed(db, o);
      WindowInSeconds(db.orders[o].deliveryDate, now);
    }
  }

  /** An order is delivered exactly by one who takes part in it, while it is IN_PROGRESS and in time, with one to five
      photos and inside the radius. */
  lemma DeliverOutcome(cfg: Settings, db: Db, o: nat, actor: nat, photos: nat, inRadius: bool, now: int)
    requires Inv(db)
    ensures var r := Step(db, Request(cfg, now, CallDeliver(o, actor, photos, inRadius)));
            && (r.Ok? <==> && TakesPart(db, o, actor) && db.orders[o].status.InProgress?
                           && photos in {1, 2, 3, 4, 5} && inRadius
                           && InTime(db.orders[o].deliveryDate, now))
            && (r.Ok? ==> OrderSet(db, r, o, db.orders[o].(status := Delivered)))
  {
    hide Inv, InWindow, InTime;
    if o < |db.orders| {
      OrdersWellFormed(db, o);
      WindowInSeconds(db.orders[o].deliveryDate, now);
    }
  }

  /** A dispute is raised exactly by one who takes part in the order, while it is IN_PROGRESS or DELIVERED and in time;
      the dispute is then open. A second one is never raised. */
  lemma RaiseDisputeOutcome(cfg: Settings, db: Db, o: nat, actor: nat, now: int)
    requires Inv(db) && DisputeLaw(db.orders, db.disputes)
    ensures var r := Step(db, Request(cfg, now, CallRaiseDispute(o, actor)));
            && (r.Ok? <==> && TakesPart(db, o, actor)
                           && (db.orders[o].status.InProgress? || db.orders[o].status.Delivered?)
                           && InTime(db.orders[o].deliveryDate, now))
            && (r.Ok? ==> && o < |db.orders| && o !in db.disputes
                          && r.value == db.(orders := db.orders[o := db.orders[o].(status := Disputed)],
                                            disputes := db.disputes[o := Open]))
            && (TakesPart(db, o, actor) && o in db.disputes ==> r == Err(Conflict))
  {
    hide Inv, InWindow, InTime;
    if o < |db.orders| {
      OrdersWellFormed(db, o);
      WindowInSeconds(db.orders[o].deliveryDate, now);
    }
  }

  // ------------------------------------------------------------------ promos

  /** A promo is created exactly unused, for at least one use per user, with either a percentage in (0, 100] or a
      positive amount, whichever its kind is, and with an end after its start. */
  lemma CreatePromoOutcome(cfg: Settings, db: Db, p: Promo, now: int)
    ensures var r := Step(db, Request(cfg, now, CallCreatePromo(p)));
            && (r.Ok? <==> && p.used == 0 && p.maxPerUser > 0
                           && (match p.pricing.kind
                               case Percent => && p.pricing.fixedAmount.None? && p.pricing.percentValue.Some?
                                               && 0.0 < p.pricing.percentValue.value <= 100.0
                               case Fixed => && p.pricing.percentValue.None? && p.pricing.fixedAmount.Some?
                                             && p.pricing.fixedAmount.value >= 1)
                           && (p.startsAt.Some? && p.endsAt.Some? ==> p.startsAt.value < p.endsAt.value))
            && (r.Ok? ==> r.value == db.(promos := db.promos + [p]))
  {
  }

  lemma SetPromoActiveOutcome(cfg: Settings, db: Db, promo: nat, active: bool, now: int)
    ensures var r := Step(db, Request(cfg, now, CallSetPromoActive(promo, active)));
            && (r.Ok? <==> promo < |db.promos|)
            && (r.Ok? ==> r.value == db.(promos := db.promos[promo := db.promos[promo].(active := active)]))
  {
  }

  // ------------------------------------------------------------------ top-ups

  /** A top-up is opened exactly by a user with a wallet for an amount that, rounded, lies within the configured bounds
      and between 100 and 20000 riyals; it is then NEW, for that amount, and nothing else changes. */
  lemma CreateTopupOutcome(cfg: Settings, db: Db, user: nat, amount: real, now: int)
    ensures var r, a := Step(db, Request(cfg, now, CallCreateTopup(user, amount))), Quantize(amount);
            && (r.Ok? <==> && HasWallet(db, user) && cfg.minTopup <= a <= cfg.maxTopup
                           && 100 * 100 <= a <= 100 * 20000)
            && (r.Ok? ==> r.value == db.(intents := db.intents
                 + [Intent(user := user, purpose := WalletTopup, amount := a, status := IntentNew)]))
  {
    hide Quantize;
  }

  /** The sweep expires a top-up intent whatever its status, and touches nothing else. */
  lemma ExpireTopupOutcome(cfg: Settings, db: Db, j: nat, now: int)
    ensures Step(db, Request(cfg, now, CallExpireTopup(j)))
         == Ok(if j < |db.intents| && db.intents[j].purpose.WalletTopup?
               then db.(intents := db.intents[j := db.intents[j].(status := IntentExpired)]) else db)
  {
  }

  // ------------------------------------------------------------------ withdrawals

  ghost predicate RequestedBefore(db: Db, courier: nat, key: string) {
    exists wd :: wd in db.withdrawals && wd.courier == courier && wd.idempotencyKey == key
  }

  /** Repeating a request under its key changes nothing. A new one commits exactly for a courier with a wallet in which
      the rounded amount, within the configured bounds, is available. That amount is then held, and the withdrawal
      REQUESTED for it. */
  lemma RequestOutcome(cfg: Settings, db: Db, courier: nat, amount: real, key: string, now: int)
    requires Inv(db)
    ensures var r, a := Step(db, Request(cfg, now, CallRequestWithdrawal(courier, amount, key))), Quantize(amount);
            if RequestedBefore(db, courier, key) then r == Ok(db)
            else
              && (r.Ok? <==> && HasWallet(db, courier) && cfg.minWithdrawal <= a <= cfg.maxWithdrawal
                             && a <= Available(db, UserWallet(courier)))
              && (r.Ok? ==>
                    var w := UserWallet(courier);
                    && w < |db.wallets|
                    && r.value == db.(
                         wallets := db.wallets[w := db.wallets[w].(held := db.wallets[w].held + a)],
                         withdrawals := db.withdrawals
                           + [Withdrawal(courier := courier, amount := a, status := Requested,
                                         idempotencyKey := key)]))
  {
    hide Inv, Quantize;
    RequestedIs(db, courier, key);
  }

  lemma RequestedIs(db: Db, courier: nat, key: string)
    ensures HasWithdrawal(db.withdrawals, courier, key) <==> RequestedBefore(db, courier, key)
  {
    if HasWithdrawal(db.withdrawals, courier, key) {
      var k :| 0 <= k < |db.withdrawals| && db.withdrawals[k].courier == courier
          && db.withdrawals[k].idempotencyKey == key;
      assert db.withdrawals[k] in db.withdrawals;
    }
  }

  /** What a change of one withdrawal's status leaves. */
  ghost function Relabelled(db: Db, k: nat, status: WithdrawalStatus): Db
    requires k < |db.withdrawals|
  {
    db.(withdrawals := db.withdrawals[k := db.withdrawals[k].(status := status)])
  }

  /** A withdrawal is approved exactly while it is REQUESTED, or again while it is APPROVED; only its status changes,
      and a repeat changes nothing. */
  lemma ApproveWithdrawalOutcome(cfg: Settings, db: Db, k: nat, now: int)
    ensures var r := Step(db, Request(cfg, now, CallApproveWithdrawal(k)));
            && (r.Ok? <==> k < |db.withdrawals|
                           && (db.withdrawals[k].status.Requested? || db.withdrawals[k].status.Approved?))
            && (r.Ok? ==> && k < |db.withdrawals| && r.value == Relabelled(db, k, Approved)
                          && Step(r.value, Request(cfg, now, CallApproveWithdrawal(k))) == r)
            && (k >= |db.withdrawals| ==> r == Err(NotFound))
            && (k < |db.withdrawals| && r.Err? ==> r == Err(InvalidTransition))
  {
    if k < |db.withdrawals| {
      assert db.withdrawals[k := db.withdrawals[k]] == db.withdrawals;
    }
  }

  /** A withdrawal is rejected exactly unless it has been paid; exactly its amount is released, and a repeat changes
      nothing. */
  lemma RejectWithdrawalOutcome(cfg: Settings, db: Db, k: nat, now: int)
    requires Inv(db)
    ensures var r := Step(db, Request(cfg, now, CallRejectWithdrawal(k)));
            && (r.Ok? <==> k < |db.withdrawals| && !db.withdrawals[k].status.WithdrawalPaid?)
            && (r.Ok? && db.withdrawals[k].status.Rejected? ==> r.value == db)
            && (r.Ok? && !db.withdrawals[k].status.Rejected? ==>
                  var w := UserWallet(db.withdrawals[k].courier);
                  && w < |db.wallets|
                  && r.value == Relabelled(db, k, Rejected).(
                       wallets := db.wallets[w := db.wallets[w].(
                         held := db.wallets[w].held - db.withdrawals[k].amount)]))
  {
    hide Inv;
    if k < |db.withdrawals| && (db.withdrawals[k].status.Requested? || db.withdrawals[k].status.Approved?) {
      HeldBehind(db, k);
    }
  }

  lemma HeldBehind(db: Db, k: nat)
    requires Inv(db) && k < |db.withdrawals|
    requires db.withdrawals[k].status.Requested? || db.withdrawals[k].status.Approved?
    ensures var w := UserWallet(db.withdrawals[k].courier);
            w < |db.wallets| && db.withdrawals[k].amount <= db.wallets[w].held
  {
    hide LedgerLaw, FlowLaw, PromoLaw, EscrowDue, EscrowOnce, TopupOnce, PayoutOnce, IntentLaw, KeyLaw, LiveHolds;
    WithdrawalIsHeld(|db.wallets|, db.wallets, db.intents, db.invoices, db.withdrawals, k);
  }
}
