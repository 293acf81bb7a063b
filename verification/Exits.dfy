/** When the money of a funded order can ever leave escrow. */
module Exits {
  import opened Results
  import opened Tables
  import opened OrderState
  import opened Ledger
  import opened MoneyOps
  import opened Market
  import opened Laws
  import opened FlowProofs
  import opened StepProofs
  import opened MoneyProofs
  import opened SettlementProofs
  import opened Evolution
  import opened Outcomes
  import opened Theorems
  import opened Lifetimes
  import opened SystemWallets
  import opened Calls

  /** What every reachable state satisfies. */
  ghost predicate Sound(db: Db) {
    Inv(db) && WalletLaw(db) && DisputeLaw(db.orders, db.disputes)
  }

  /** Requests under the same settings, none before a time. */
  ghost predicate From(requests: seq<Request>, cfg: Settings, now: int) {
    forall i :: 0 <= i < |requests| ==> requests[i].cfg == cfg && requests[i].now >= now
  }

  ghost predicate IsFunded(db: Db, o: nat) {
    o < |db.orders| && Funded(db.orders[o].status)
  }

  ghost predicate SettledBy(db: Db, requests: seq<Request>, o: nat) {
    var db' := Run(db, requests);
    o < |db'.orders| && OrderState.Settled(db'.orders[o].status)
  }

  /** The courier has a wallet, the delivery day is not over and, unless the customer has a wallet too, the courier's
      payout does not round to nothing. */
  ghost predicate HasExit(db: Db, o: nat, cfg: Settings, now: int)
    requires o < |db.orders|
  {
    && db.orders[o].courier.Some? && HasWallet(db, db.orders[o].courier.value)
    && !PastDate(db.orders[o], now)
    && PaidInvoice(db, o).Ok?
    && (HasWallet(db, db.orders[o].customer) || !Vanishes(cfg, db.invoices[PaidInvoice(db, o).value]))
  }

  // ------------------------------------------------------------------ without an exit

  /** Only an approval or a resolution of the order itself settles it. */
  ghost predicate SettlesOrder(call: Call, o: nat) {
    || (call.CallApproveOrder? && call.order == o)
    || (call.CallAutoApprove? && call.order == o)
    || (call.CallResolveDispute? && call.order == o)
  }

  /** The ledger tells a funded order from a settled one. */
  lemma SameLedgerStaysFunded(db: Db, db': Db, o: nat)
    requires Inv(db) && Inv(db') && db'.ledger == db.ledger && IsFunded(db, o) && o < |db'.orders|
    ensures !OrderState.Settled(db'.orders[o].status)
  {
    hide LedgerLaw, FlowLaw, EscrowFunded, IntentLaw, HoldLaw, KeyLaw, TopupOnce, PayoutOnce, PromoLaw, Overdrawn,
         Trail, ActiveTotal;
    assert Trail(Entries(db.ledger), EscrowOf(o))
        == EscrowHistory(db.orders[o].status, ActiveTotal(db.invoices, o));
    assert Trail(Entries(db'.ledger), EscrowOf(o))
        == EscrowHistory(db'.orders[o].status, ActiveTotal(db'.invoices, o));
  }

  lemma PaymentSettlesNothing(db: Db, request: Request, o: nat)
    requires Sound(db) && IsFunded(db, o) && Step(db, request).Ok?
    requires request.call.CallPayInvoice? || request.call.CallWebhook?
    requires MayMoveMoney(db, request.call)
    ensures var db' := Step(db, request).value; o < |db'.orders| && db'.orders[o] == db.orders[o]
  {
    hide Inv, WalletLaw, DisputeLaw, PayInvoice, Webhook, Moves, InWindow;
    match request.call {
      case CallPayInvoice(invoice, actor) => PayInvoiceOutcome(db, invoice, actor, request.now);
      case CallWebhook(intent, paid, reported) =>
        WebhookOutcome(db, intent, paid, reported, request.now);
        if db.intents[intent].purpose.OrderInvoice? {
          IssuedOrder(db, db.intents[intent].purpose.invoice);
        }
    }
  }

  lemma OthersSettleNothing(db: Db, request: Request, o: nat)
    requires request.cfg.Valid() && Sound(db) && IsFunded(db, o) && Step(db, request).Ok?
    requires !SettlesOrder(request.call, o)
    ensures var db' := Step(db, request).value;
            o < |db'.orders| && !OrderState.Settled(db'.orders[o].status)
  {
    hide Inv, WalletLaw, DisputeLaw, Evolves, IssuesOnlyAssigned, PayInvoice, Webhook, CompleteAndRelease,
         ResolveDispute, MarkWithdrawalPaid, FollowsTable, RequestsUnique, SettlesWithWallet, NoNewPaid,
         NoNewCompleted, NoNewPayout, DisputesStartOpen, Moves, Vanishes, PaidInvoice, InWindow;
    var cfg, now, db' := request.cfg, request.now, Step(db, request).value;
    StepKeepsInv(db, request);
    StepAdvances(db, request);
    OrdersGrow(db, db');
    if !MayMoveMoney(db, request.call) {
      StepIsQuiet(db, request);
      SameLedgerStaysFunded(db, db', o);
    } else {
      match request.call {
        case CallPayInvoice(_, _) => PaymentSettlesNothing(db, request, o);
        case CallWebhook(_, _, _) => PaymentSettlesNothing(db, request, o);
        case CallApproveOrder(order, actor) => CompletionOutcome(cfg, db, order, now);
        case CallAutoApprove(order) =>
          if order < |db.orders| {
            CompletionOutcome(cfg, db, order, now);
          }
        case CallResolveDispute(order, outcome, courierAmount) =>
          Found(db, order, outcome, courierAmount, 0, cfg, now);
          ResolveDisputeOutcome(cfg, db, order, outcome, courierAmount, now);
        case CallMarkWithdrawalPaid(withdrawal) =>
          Found(db, 0, Open, None, withdrawal, cfg, now);
          MarkPaidOutcome(db, withdrawal);
      }
    }
  }

  lemma OrdersGrow(db: Db, db': Db)
    requires Evolves(db, db')
    ensures |db.orders| <= |db'.orders|
  {
    hide NoLateCredit, InvoicesEvolve, IntentsEvolve, WithdrawalsEvolve, DisputesEvolve, OrphansStayOpen;
  }

  /** The order's own approvals and resolutions are refused. */
  lemma OwnCallsFail(db: Db, request: Request, o: nat)
    requires request.cfg.Valid() && Sound(db) && IsFunded(db, o) && SettlesOrder(request.call, o)
    requires !HasExit(db, o, request.cfg, request.now)
    ensures Commit(db, request) == db
  {
    hide Inv, WalletLaw, DisputeLaw, CompleteAndRelease, ResolveDispute, Moves, Vanishes, PaidInvoice, Resolvable;
    var cfg, now := request.cfg, request.now;
    CompletionOutcome(cfg, db, o, now);
    match request.call {
      case CallResolveDispute(order, outcome, courierAmount) =>
        ResolveDisputeOutcome(cfg, db, order, outcome, courierAmount, now);
      case _ =>
    }
  }

  /** Nothing gives a funded order an exit it did not have. */
  lemma ExitsDoNotAppear(db: Db, request: Request, o: nat, cfg: Settings, now: int)
    requires Sound(db) && Inv(Commit(db, request)) && IsFunded(db, o) && IsFunded(Commit(db, request), o)
    ensures HasExit(Commit(db, request), o, cfg, now) ==> HasExit(db, o, cfg, now)
  {
    hide Inv, WalletLaw, DisputeLaw, Commit, NoLateCredit, IntentsEvolve, WithdrawalsEvolve, DisputesEvolve,
         OrphansStayOpen, FollowsTable, IssuesOnlyAssigned, SettlesWithWallet, RequestsUnique, PaidInvoice, Vanishes;
    var db' := Commit(db, request);
    CommitEvolves(db, request);
    CommitFixesDate(db, request, o);
    assert OrderEvolves(db.orders[o], db'.orders[o]);
    PartiesExist(db, o);
    PaidInvoiceIs(db, o);
    PaidInvoiceIs(db', o);
    SamePaidInvoice(db, db', o);
  }

  lemma SamePaidInvoice(db: Db, db': Db, o: nat)
    requires Inv(db) && Inv(db') && InvoicesEvolve(db.invoices, db'.invoices)
    requires PaidInvoice(db, o).Ok? && PaidInvoice(db', o).Ok?
    ensures db'.invoices[PaidInvoice(db', o).value] == db.invoices[PaidInvoice(db, o).value]
  {
    hide LedgerLaw, EscrowFunded, EscrowOnce, IntentLaw, HoldLaw, KeyLaw, TopupOnce, PayoutOnce, PromoLaw, Overdrawn,
         ActiveInvoice;
    var i := PaidInvoice(db, o).value;
    assert InvoiceEvolves(db.invoices[i], db'.invoices[i]);
    assert OneActivePerOrder(db'.invoices);
  }

  lemma CommitStaysStuck(db: Db, request: Request, o: nat, cfg: Settings, now: int)
    requires cfg.Valid() && request.cfg == cfg && request.now >= now
    requires Sound(db) && IsFunded(db, o) && !HasExit(db, o, cfg, now)
    ensures var db' := Commit(db, request); Sound(db') && IsFunded(db', o) && !HasExit(db', o, cfg, now)
  {
    hide Inv, WalletLaw, DisputeLaw, Step, Evolves, FollowsTable, IssuesOnlyAssigned, SettlesWithWallet,
         RequestsUnique, HasExit;
    var db' := Commit(db, request);
    CommitKeepsInv(db, request);
    CommitEvolves(db, request);
    if SettlesOrder(request.call, o) {
      NoExitLater(db, o, cfg, now, request.now);
      OwnCallsFail(db, request, o);
    } else {
      if Step(db, request).Ok? {
        OthersSettleNothing(db, request, o);
      }
      PhaseKept(db, db', o);
      ExitsDoNotAppear(db, request, o, cfg, now);
    }
  }

  lemma PhaseKept(db: Db, db': Db, o: nat)
    requires Evolves(db, db') && IsFunded(db, o)
    ensures o < |db'.orders| && Phase(db'.orders[o].status) >= 1
  {
    hide NoLateCredit, InvoicesEvolve, IntentsEvolve, WithdrawalsEvolve, DisputesEvolve, OrphansStayOpen;
    assert OrderEvolves(db.orders[o], db'.orders[o]);
  }

  lemma NoExitLater(db: Db, o: nat, cfg: Settings, now: int, later: int)
    requires o < |db.orders| && !HasExit(db, o, cfg, now) && later >= now
    ensures !HasExit(db, o, cfg, later)
  {
    hide PaidInvoice, Vanishes, HasWallet;
  }

  lemma {:induction false} StuckForGood(db: Db, requests: seq<Request>, o: nat, cfg: Settings, now: int)
    requires cfg.Valid() && Sound(db) && IsFunded(db, o) && !HasExit(db, o, cfg, now) && From(requests, cfg, now)
    ensures var db' := Run(db, requests); Sound(db') && IsFunded(db', o) && !HasExit(db', o, cfg, now)
  {
    hide Sound, IsFunded, HasExit, Commit;
    if |requests| > 0 {
      var n := |requests| - 1;
      StuckForGood(db, requests[..n], o, cfg, now);
      CommitStaysStuck(Run(db, requests[..n]), requests[n], o, cfg, now);
    }
  }

  // ------------------------------------------------------------------ with one

  /** The delivery day itself, or now if that is it. */
  function ExitTime(o: Order, now: int): int {
    if Day(now) >= o.deliveryDate then now else 86400 * o.deliveryDate
  }

  /** Deliver if need be and approve; if the payout rounds to nothing, dispute if need be and refund. */
  ghost function ExitPlan(db: Db, o: nat, cfg: Settings, now: int): seq<Request>
    requires o < |db.orders| && db.orders[o].courier.Some? && PaidInvoice(db, o).Ok?
  {
    var order := db.orders[o];
    var t := ExitTime(order, now);
    if !Vanishes(cfg, db.invoices[PaidInvoice(db, o).value]) then
      (if order.status.InProgress? then [Request(cfg, t, CallDeliver(o, order.courier.value, 1, true))] else [])
      + [Request(cfg, t, CallApproveOrder(o, order.customer))]
    else
      (if order.status.Disputed? then [] else [Request(cfg, t, CallRaiseDispute(o, order.customer))])
      + [Request(cfg, t, CallResolveDispute(o, ResolvedCustomer, None))]
  }

  lemma ExitInWindow(o: Order, now: int)
    requires !PastDate(o, now)
    ensures InWindow(o.deliveryDate, ExitTime(o, now)) && ExitTime(o, now) >= now
  {
  }

  lemma RunOne(db: Db, request: Request)
    ensures Run(db, [request]) == Commit(db, request)
  {
    assert [request][..0] == [];
  }

  lemma RunTwo(db: Db, first: Request, second: Request)
    ensures Run(db, [first] + [second]) == Commit(Commit(db, first), second)
  {
    hide Commit;
    assert ([first] + [second])[..1] == [first];
    RunOne(db, first);
  }

  /** Delivering or disputing a funded order, at a time inside its window. */
  lemma Prepared(db: Db, request: Request, o: nat)
    requires request.cfg.Valid() && Sound(db) && IsFunded(db, o) && db.orders[o].courier.Some?
    requires InWindow(db.orders[o].deliveryDate, request.now)
    requires || (request.call == CallDeliver(o, db.orders[o].courier.value, 1, true) && db.orders[o].status.InProgress?)
             || (request.call == CallRaiseDispute(o, db.orders[o].customer) && !db.orders[o].status.Disputed?)
    ensures var db' := Commit(db, request);
            && Sound(db') && |db'.orders| == |db.orders| && PaidInvoice(db', o) == PaidInvoice(db, o)
            && db'.orders[o] == db.orders[o].(status := if request.call.CallDeliver? then Delivered else Disputed)
            && db'.invoices == db.invoices && db'.wallets == db.wallets && db'.emptySlots == db.emptySlots
            && (request.call.CallRaiseDispute? ==> o in db'.disputes && db'.disputes[o].Open?)
  {
    hide Inv, WalletLaw, DisputeLaw, Step, Evolves, FollowsTable, IssuesOnlyAssigned, SettlesWithWallet,
         RequestsUnique, InWindow, InTime, ActiveInvoice;
    var cfg, now, order := request.cfg, request.now, db.orders[o];
    CommitKeepsInv(db, request);
    CommitEvolves(db, request);
    WindowInSeconds(order.deliveryDate, now);
    if request.call.CallDeliver? {
      DeliverOutcome(cfg, db, o, order.courier.value, 1, true, now);
    } else {
      RaiseDisputeOutcome(cfg, db, o, order.customer, now);
    }
  }

  lemma ApprovalSettles(db: Db, o: nat, cfg: Settings, t: int)
    requires cfg.Valid() && Sound(db) && o < |db.orders| && db.orders[o].courier.Some? && PaidInvoice(db, o).Ok?
    requires db.orders[o].status.Delivered? || db.orders[o].status.Disputed?
    requires HasWallet(db, db.orders[o].courier.value) && InWindow(db.orders[o].deliveryDate, t)
    requires !Vanishes(cfg, db.invoices[PaidInvoice(db, o).value])
    ensures var db' := Commit(db, Request(cfg, t, CallApproveOrder(o, db.orders[o].customer)));
            o < |db'.orders| && OrderState.Settled(db'.orders[o].status)
  {
    hide Inv, WalletLaw, DisputeLaw, CompleteAndRelease, PaidInvoice, Vanishes, InWindow, Moves, HasWallet;
    CompletionOutcome(cfg, db, o, t);
  }

  lemma RefundSettles(db: Db, o: nat, cfg: Settings, t: int)
    requires cfg.Valid() && Sound(db) && o < |db.orders| && db.orders[o].courier.Some? && PaidInvoice(db, o).Ok?
    requires db.orders[o].status.Disputed? && o in db.disputes && db.disputes[o].Open?
    requires HasWallet(db, db.orders[o].courier.value) && HasWallet(db, db.orders[o].customer)
    requires InWindow(db.orders[o].deliveryDate, t)
    ensures var db' := Commit(db, Request(cfg, t, CallResolveDispute(o, ResolvedCustomer, None)));
            o < |db'.orders| && OrderState.Settled(db'.orders[o].status)
  {
    hide Inv, WalletLaw, DisputeLaw, ResolveDispute, PaidInvoice, InWindow, Moves, HasWallet;
    ResolveDisputeOutcome(cfg, db, o, ResolvedCustomer, None, t);
  }

  lemma {:induction false} PlanSettles(db: Db, o: nat, cfg: Settings, now: int)
    requires cfg.Valid() && Sound(db) && IsFunded(db, o) && HasExit(db, o, cfg, now)
    ensures var plan := ExitPlan(db, o, cfg, now);
            From(plan, cfg, now) && ClockForward(plan) && SettledBy(db, plan, o)
  {
    hide Inv, WalletLaw, Commit, PaidInvoice, Vanishes, InWindow, HasWallet, PastDate, Run, ExitTime;
    var order, t, plan := db.orders[o], ExitTime(db.orders[o], now), ExitPlan(db, o, cfg, now);
    ExitInWindow(order, now);
    if |plan| == 2 {
      assert plan == [plan[0]] + [plan[1]];
      RunTwo(db, plan[0], plan[1]);
      Prepared(db, plan[0], o);
      SameWallets(db, Commit(db, plan[0]));
    } else {
      assert plan == [plan[0]];
      RunOne(db, plan[0]);
    }
    var ready := if |plan| == 2 then Commit(db, plan[0]) else db;
    if !Vanishes(cfg, db.invoices[PaidInvoice(db, o).value]) {
      ApprovalSettles(ready, o, cfg, t);
    } else {
      RefundSettles(ready, o, cfg, t);
    }
  }

  lemma SameWallets(db: Db, db': Db)
    requires db'.wallets == db.wallets && db'.emptySlots == db.emptySlots
    ensures forall u :: HasWallet(db', u) <==> HasWallet(db, u)
  {
  }

  /** The money of a funded order can leave escrow again exactly when its courier has a wallet, its delivery day is
      not over and, unless the customer has a wallet too, the courier's payout does not round to nothing: then some
      further requests settle the order, otherwise no requests ever do. */
  lemma {:induction false} EscrowHasExit(history: seq<Request>, o: nat, cfg: Settings, now: int)
    requires AllValid(history) && cfg.Valid() && IsFunded(Run(Seeded(), history), o)
    ensures var db := Run(Seeded(), history);
            HasExit(db, o, cfg, now)
            <==> exists rest :: From(rest, cfg, now) && ClockForward(rest) && SettledBy(db, rest, o)
  {
    hide Run, Inv, WalletLaw, DisputeLaw, HasExit, From, ExitPlan, ClockForward;
    var db := Run(Seeded(), history);
    RunKeepsInv(history);
    RunKeepsDisputes(history);
    if HasExit(db, o, cfg, now) {
      ExitHas(db, o, cfg, now);
      PlanSettles(db, o, cfg, now);
    } else {
      forall rest | From(rest, cfg, now) ensures !SettledBy(db, rest, o) {
        StuckForGood(db, rest, o, cfg, now);
      }
    }
  }

  lemma ExitHas(db: Db, o: nat, cfg: Settings, now: int)
    requires o < |db.orders| && HasExit(db, o, cfg, now)
    ensures db.orders[o].courier.Some? && PaidInvoice(db, o).Ok?
  {
  }
}
