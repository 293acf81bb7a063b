/** What holds over every run of the money system. */
module Theorems {
  import opened Results
  import opened Sums
  import opened Tables
  import opened OrderState
  import opened Ledger
  import opened MoneyOps
  import opened Market
  import opened Laws
  import opened FlowProofs
  import opened HoldProofs
  import opened StepProofs
  import opened MoneyProofs
  import opened SettlementProofs
  import opened Evolution
  import Pricing

  // ------------------------------------------------------------------ what is held

  /** The reservation a call drops without releasing the hold behind it: an invoice cancelled under its open
      intent, a failed webhook, or an invoice paid outright while an intent for it was open. */
  function Dropped(db: Db, call: Call, user: nat): int {
    match call
    case CallCancelInvoice(invoice, _) => OpenHold(db.intents, db.invoices, invoice, user)
    case CallWebhook(intent, paid, _) =>
      if intent < |db.intents| && db.intents[intent].status.IntentNew? && !paid
      then IntentHold(db.intents[intent], db.invoices, user) else 0
    case CallPayInvoice(invoice, actor) =>
      if WalletCovers(db, invoice, actor) then OpenHold(db.intents, db.invoices, invoice, user) else 0
    case _ => 0
  }

  ghost predicate SlackLaw(db: Db, call: Call, db': Db) {
    && |db.wallets| <= |db'.wallets|
    && forall u: nat :: UserWallet(u) < |db.wallets| ==> Slack(db', u) == Slack(db, u) + Dropped(db, call, u)
  }

  // ------------------------------------------------------------------ the seeded state

  lemma SeededLedger()
    ensures LedgerLaw(Seeded().wallets, []) && !Overdrawn(Seeded().wallets)
  {
    assert Balances(Seeded().wallets) == [0, 0, 0, 0];
    SumZero(Balances(Seeded().wallets));
  }

  lemma SeededFlow()
    ensures FlowLaw(SYSTEM_WALLETS, [], []) && EscrowFunded(Seeded().wallets, [], [])
    ensures EscrowOnce([], [], [])
  {
  }

  lemma SeededHolds()
    ensures HoldLaw(Seeded().wallets, [], [], []) && IntentLaw(SYSTEM_WALLETS, [], [])
    ensures WithdrawalLaw(SYSTEM_WALLETS, [])
  {
  }

  lemma SeededKeys()
    ensures KeyLaw([], [], [], [], []) && TopupOnce([], []) && PayoutOnce([], []) && PromoLaw([], [], [])
  {
  }

  lemma SeededInv()
    ensures Inv(Seeded()) && WalletLaw(Seeded())
  {
    hide LedgerLaw, Overdrawn, FlowLaw, EscrowFunded, EscrowOnce, HoldLaw, IntentLaw, WithdrawalLaw, KeyLaw, TopupOnce,
         PayoutOnce, PromoLaw;
    SeededLedger();
    SeededFlow();
    SeededHolds();
    SeededKeys();
    assert Entries(Seeded().ledger) == [];
  }

  // ------------------------------------------------------------------ one call

  /** Every call keeps every law, and changes each user's slack by exactly what it drops. */
  lemma StepKeepsInv(db: Db, request: Request)
    requires request.cfg.Valid() && Inv(db) && WalletLaw(db) && Step(db, request).Ok?
    ensures Inv(Step(db, request).value) && SlackLaw(db, request.call, Step(db, request).value)
  {
    hide Inv, Slack, OpenHold, IntentHold, WalletCovers, CreateInvoice, CancelInvoice, ExpireInvoice, PayInvoice,
         Webhook, CreateTopup, ExpireTopup, Register, CreateOrder, RescheduleOrder, AcceptOrder, CancelOrder,
         CreatePromo, SetPromoActive, Deliver, ApproveOrder, AutoApprove, RaiseDispute, ResolveDispute,
         RequestWithdrawal, ApproveWithdrawal, RejectWithdrawal, MarkWithdrawalPaid;
    var cfg, now := request.cfg, request.now;
    match request.call {
      case CallRegister => RegisterKeepsInv(db);
      case CallCreateUser => CreateUserKeepsInv(db);
      case CallCreateOrder(customer, date) => CreateOrderKeepsInv(db, customer, date, now);
      case CallRescheduleOrder(order, date) => RescheduleKeepsInv(db, order, date, now);
      case CallAcceptOrder(order, courier) => AcceptOrderKeepsInv(db, order, courier, now);
      case CallCancelOrder(order, actor) => CancelOrderKeepsInv(db, order, actor, now);
      case CallCreatePromo(promo) => CreatePromoKeepsInv(db, promo);
      case CallSetPromoActive(promo, active) => SetPromoActiveKeepsInv(db, promo, active);
      case CallCreateInvoice(order, actor, lines, fee, promo) =>
        CreateInvoiceKeepsInv(cfg, db, order, actor, lines, fee, promo, now);
      case CallCancelInvoice(invoice, actor) => CancelInvoiceKeepsInv(db, invoice, actor, now);
      case CallExpireInvoice(invoice) => ExpireInvoiceKeepsInv(db, invoice, now);
      case CallPayInvoice(invoice, actor) => PayInvoiceKeepsInv(db, invoice, actor, now);
      case CallCreateTopup(user, amount) => CreateTopupKeepsInv(cfg, db, user, amount);
      case CallWebhook(intent, paid, reported) =>
        WebhookFound(db, intent, paid, reported, now); WebhookKeepsInv(db, intent, paid, reported, now);
      case CallExpireTopup(intent) => ExpireTopupKeepsInv(db, intent);
      case CallDeliver(order, actor, photos, inRadius) => DeliverKeepsInv(db, order, actor, photos, inRadius, now);
      case CallApproveOrder(order, actor) => ApproveOrderKeepsInv(cfg, db, order, actor, now);
      case CallAutoApprove(order) => AutoApproveKeepsInv(cfg, db, order, now);
      case CallRaiseDispute(order, actor) => RaiseDisputeKeepsInv(db, order, actor, now);
      case CallResolveDispute(order, outcome, courierAmount) =>
        ResolveDisputeKeepsInv(cfg, db, order, outcome, courierAmount, now);
      case CallRequestWithdrawal(courier, amount, key) => RequestWithdrawalKeepsInv(cfg, db, courier, amount, key);
      case CallApproveWithdrawal(withdrawal) => ApproveWithdrawalKeepsInv(db, withdrawal);
      case CallRejectWithdrawal(withdrawal) => RejectWithdrawalKeepsInv(db, withdrawal);
      case CallMarkWithdrawalPaid(withdrawal) => MarkWithdrawalPaidKeepsInv(db, withdrawal);
    }
  }

  lemma WebhookFound(db: Db, j: nat, paid: bool, amount: Option<int>, now: int)
    requires Webhook(db, j, paid, amount, now).Ok?
    ensures j < |db.intents|
  {
    hide SettleTopup, SettleInvoice;
  }

  // ------------------------------------------------------------------ every run

  /** Every law holds in every state any run reaches, and users without a wallet have no part in the books. */
  lemma {:induction false} RunKeepsInv(calls: seq<Request>)
    requires AllValid(calls)
    ensures Inv(Run(Seeded(), calls)) && WalletLaw(Run(Seeded(), calls))
  {
    hide Inv, WalletLaw, Commit;
    if |calls| == 0 {
      SeededInv();
    } else {
      RunKeepsInv(calls[..|calls| - 1]);
      CommitKeepsInv(Run(Seeded(), calls[..|calls| - 1]), calls[|calls| - 1]);
    }
  }

  lemma CommitKeepsInv(db: Db, request: Request)
    requires request.cfg.Valid() && Inv(db) && WalletLaw(db)
    ensures Inv(Commit(db, request)) && WalletLaw(Commit(db, request))
  {
    hide Inv, Step, WalletLaw, Evolves, FollowsTable, DisputeLaw, RequestsUnique, IssuesOnlyAssigned;
    if Step(db, request).Ok? {
      StepKeepsInv(db, request);
      StepAdvances(db, request);
    }
  }

  /** The reservations a run has dropped from a user's wallet since the user registered. */
  ghost function RunDropped(calls: seq<Request>, user: nat): int {
    if |calls| == 0 then 0
    else
      var before, request := Run(Seeded(), calls[..|calls| - 1]), calls[|calls| - 1];
      RunDropped(calls[..|calls| - 1], user)
      + (if Step(before, request).Ok? && UserWallet(user) < |before.wallets|
          then Dropped(before, request.call, user) else 0)
  }

  /** In every reachable state, what a wallet holds is exactly its live reservations plus what the run has
      dropped. */
  lemma {:induction false} HeldIsExact(calls: seq<Request>, user: nat)
    requires AllValid(calls)
    ensures var db := Run(Seeded(), calls);
            if UserWallet(user) < |db.wallets|
            then db.wallets[UserWallet(user)].held
                 == LiveHolds(db.intents, db.invoices, db.withdrawals, user) + RunDropped(calls, user)
            else RunDropped(calls, user) == 0
  {
    hide Inv, Step, Dropped, LiveHolds, WalletLaw;
    if |calls| > 0 {
      var init := calls[..|calls| - 1];
      var before, request := Run(Seeded(), init), calls[|calls| - 1];
      HeldIsExact(init, user);
      RunKeepsInv(init);
      if Step(before, request).Ok? {
        StepKeepsInv(before, request);
        if UserWallet(user) >= |before.wallets| {
          NewcomersHoldNothing(before, request, user);
        }
      }
    }
  }

  /** A user who has just registered holds nothing and has no reservation. */
  lemma NewcomersHoldNothing(db: Db, request: Request, user: nat)
    requires Inv(db) && WalletLaw(db) && Step(db, request).Ok? && UserWallet(user) >= |db.wallets|
    ensures var db' := Step(db, request).value;
            UserWallet(user) < |db'.wallets| ==>
              db'.wallets[UserWallet(user)].held == LiveHolds(db'.intents, db'.invoices, db'.withdrawals, user) == 0
  {
    hide Advances, LiveHolds, LedgerLaw, FlowLaw, PromoLaw, EscrowDue, EscrowOnce, TopupOnce, PayoutOnce, KeyLaw,
         HoldLaw, IntentLaw, Step;
    StepAdvances(db, request);
    if AddsUser(request.call) {
      StrangerHoldsNothing(|db.wallets|, db.intents, db.invoices, db.withdrawals, user);
      RegisterStep(db, request);
    }
  }

  lemma RegisterStep(db: Db, request: Request)
    requires AddsUser(request.call)
    ensures Step(db, request).value.wallets == db.wallets + [Wallet(0, 0)]
    ensures Step(db, request).value.intents == db.intents && Step(db, request).value.invoices == db.invoices
    ensures Step(db, request).value.withdrawals == db.withdrawals
  {
  }

  // ------------------------------------------------------------------ what a run never undoes

  /** From any point of a run to its end the tables evolve: an order keeps its first courier, a top-up is
      never credited once it has left NEW, and so on. */
  lemma {:induction false} RunEvolves(calls: seq<Request>, k: nat)
    requires AllValid(calls) && k <= |calls|
    ensures Evolves(Run(Seeded(), calls[..k]), Run(Seeded(), calls))
    decreases |calls|
  {
    hide Inv, Step, Evolves, FollowsTable, Commit;
    if k == |calls| {
      assert calls[..k] == calls;
      AdvancesReflexive(Run(Seeded(), calls), Run(Seeded(), calls).promos);
    } else {
      var init := calls[..|calls| - 1];
      RunEvolves(init, k);
      RunKeepsInv(init);
      assert init[..k] == calls[..k];
      CommitEvolves(Run(Seeded(), init), calls[|calls| - 1]);
      EvolvesTransitive(Run(Seeded(), calls[..k]), Run(Seeded(), init), Run(Seeded(), calls));
    }
  }

  lemma CommitEvolves(db: Db, request: Request)
    requires Inv(db) && WalletLaw(db)
    ensures Evolves(db, Commit(db, request)) && FollowsTable(db, Commit(db, request))
    ensures DisputeLaw(db.orders, db.disputes)
        ==> DisputeLaw(Commit(db, request).orders, Commit(db, request).disputes)
    ensures RequestsUnique(db.withdrawals) ==> RequestsUnique(Commit(db, request).withdrawals)
    ensures IssuesOnlyAssigned(db, Commit(db, request)) && SettlesWithWallet(db, Commit(db, request))
  {
    hide Inv, Step, Evolves, FollowsTable, DisputeLaw, RequestsUnique, IssuesOnlyAssigned, WalletLaw,
         SettlesWithWallet;
    if Step(db, request).Ok? {
      StepAdvances(db, request);
    } else {
      AdvancesReflexive(db, db.promos);
    }
  }

  lemma {:induction false} RunKeepsDisputes(calls: seq<Request>)
    requires AllValid(calls)
    ensures var db := Run(Seeded(), calls); DisputeLaw(db.orders, db.disputes) && RequestsUnique(db.withdrawals)
  {
    hide Inv, Commit, Evolves, FollowsTable;
    if |calls| > 0 {
      var init := calls[..|calls| - 1];
      RunKeepsDisputes(init);
      RunKeepsInv(init);
      CommitEvolves(Run(Seeded(), init), calls[|calls| - 1]);
    }
  }

  // ------------------------------------------------------------------ the headlines, for every run

  /** Escrow holds exactly the totals of the paid invoices of unsettled orders: never less than zero, and
      nothing once every order has settled. */
  lemma EscrowIsExact(calls: seq<Request>)
    requires AllValid(calls)
    ensures var db := Run(Seeded(), calls);
            && |db.wallets| >= SYSTEM_WALLETS
            && db.wallets[ESCROW].balance == EscrowDue(db.orders, db.invoices) >= 0
            && ((forall o :: 0 <= o < |db.orders| ==> !Funded(db.orders[o].status)) ==> db.wallets[ESCROW].balance == 0)
  {
    hide LedgerLaw, EscrowOnce, IntentLaw, HoldLaw, KeyLaw, TopupOnce, PayoutOnce, PromoLaw, Overdrawn,
         ActiveInvoice, FlowLaw, Sum, Run;
    var db := Run(Seeded(), calls);
    RunKeepsInv(calls);
    EscrowDueNonNegative(|db.wallets|, db.orders, db.invoices);
    if forall o :: 0 <= o < |db.orders| ==> !Funded(db.orders[o].status) {
      SumZero(EscrowTerms(db.orders, db.invoices));
    }
  }

  /** Over any run, escrow is credited at most once and debited at most once for an order, in equal amounts,
      although release, refund and split spend three different keys: credited exactly when the order has been
      paid, debited exactly when it has been settled. */
  lemma MoneyMovesOnce(calls: seq<Request>, o: nat)
    requires AllValid(calls)
    ensures var db := Run(Seeded(), calls);
            var moves := Trail(Entries(db.ledger), EscrowOf(o));
            if o >= |db.orders| || Phase(db.orders[o].status) == 0 then moves == []
            else
              var total := ActiveTotal(db.invoices, o);
              total > 0 && moves == if Funded(db.orders[o].status) then [total] else [total, -total]
  {
    hide LedgerLaw, EscrowFunded, IntentLaw, HoldLaw, KeyLaw, TopupOnce, PayoutOnce, PromoLaw, Overdrawn,
         ActiveInvoice, Run, Trail;
    var db := Run(Seeded(), calls);
    RunKeepsInv(calls);
    if o < |db.orders| && Phase(db.orders[o].status) >= 1 {
      ActiveStatus(|db.wallets|, db.orders, db.invoices, o);
      assert InvoiceWellFormed(db.invoices[ActiveInvoice(db.invoices, o).value], |db.orders|);
    }
  }

  /** Over any run every user's live reservations are covered by what is held, and that by the balance, and
      `release_hold` has never had to clamp. Hold and reservations agree exactly when the run dropped none. */
  lemma ReservationsAreCovered(calls: seq<Request>, user: nat)
    requires AllValid(calls)
    ensures var db := Run(Seeded(), calls);
            && db.overReleases == 0
            && (UserWallet(user) < |db.wallets| ==>
                  var w, live := db.wallets[UserWallet(user)], LiveHolds(db.intents, db.invoices, db.withdrawals, user);
                  0 <= live <= w.held <= w.balance && (live == w.held <==> RunDropped(calls, user) == 0))
  {
    hide LedgerLaw, EscrowFunded, EscrowOnce, KeyLaw, TopupOnce, PayoutOnce, PromoLaw, Overdrawn, FlowLaw, Run,
         LiveHolds, IntentLaw, RunDropped;
    var db := Run(Seeded(), calls);
    RunKeepsInv(calls);
    LiveHoldsNonNegative(|db.wallets|, db.intents, db.invoices, db.withdrawals, user);
    HeldIsExact(calls, user);
  }

  /** Whatever webhooks are duplicated, failed, mismatched or late, a top-up is credited at most once, for
      exactly its amount, and what it has been credited when it leaves NEW is all it ever will be. */
  lemma TopupCreditedOnce(calls: seq<Request>, k: nat, j: nat)
    requires AllValid(calls) && k <= |calls|
    ensures var early, late := Run(Seeded(), calls[..k]), Run(Seeded(), calls);
            var credits := Trail(Entries(late.ledger), TopupOf(j));
            && (credits == [] || (j < |late.intents| && credits == [late.intents[j].amount]))
            && (j < |early.intents| ==> j < |late.intents| && late.intents[j].amount == early.intents[j].amount)
            && (j < |early.intents| && !early.intents[j].status.IntentNew? ==>
                  !late.intents[j].status.IntentNew? && credits == Trail(Entries(early.ledger), TopupOf(j)))
            && (j < |late.intents| && late.intents[j].purpose.WalletTopup? && late.intents[j].status.IntentPaid?
                ==> credits != [])
  {
    hide LedgerLaw, EscrowFunded, EscrowOnce, KeyLaw, HoldLaw, PayoutOnce, PromoLaw, Overdrawn, FlowLaw, Run,
         IntentLaw, Trail, OrdersEvolve, InvoicesEvolve, WithdrawalsEvolve, DisputesEvolve;
    RunKeepsInv(calls);
    RunEvolves(calls, k);
    var early, late := Run(Seeded(), calls[..k]), Run(Seeded(), calls);
    assert TopupOnce(Entries(late.ledger), late.intents);
    if j < |early.intents| {
      assert IntentEvolves(early.intents[j], late.intents[j]);
    }
  }

  /** An order gets at most one courier over its lifetime. */
  lemma OneCourierForLife(calls: seq<Request>, k: nat, o: nat)
    requires AllValid(calls) && k <= |calls|
    ensures var early, late := Run(Seeded(), calls[..k]), Run(Seeded(), calls);
            o < |early.orders| && early.orders[o].courier.Some? ==>
              o < |late.orders| && late.orders[o].courier == early.orders[o].courier
  {
    hide Run, NoLateCredit, InvoicesEvolve, IntentsEvolve, WithdrawalsEvolve, DisputesEvolve;
    RunEvolves(calls, k);
    var early, late := Run(Seeded(), calls[..k]), Run(Seeded(), calls);
    if o < |early.orders| {
      assert OrderEvolves(early.orders[o], late.orders[o]);
    }
  }

  /** A waiting order has exactly one active invoice, and it is ISSUED; an open intent and the wallet portion
      of its ISSUED invoice make up the total; an invoice never has two open intents. */
  lemma PaymentsAreWellPosed(calls: seq<Request>)
    requires AllValid(calls)
    ensures var db := Run(Seeded(), calls);
            && OneActivePerOrder(db.invoices) && OneOpenPerInvoice(db.intents)
            && (forall o :: 0 <= o < |db.orders| && db.orders[o].status.WaitingPayment? ==>
                  ActiveInvoice(db.invoices, o).Some?
                      && db.invoices[ActiveInvoice(db.invoices, o).value].status.Issued?)
            && (forall j :: 0 <= j < |db.intents| ==> PortionsAddUp(db.intents[j], db.invoices))
  {
    hide LedgerLaw, EscrowFunded, EscrowOnce, KeyLaw, HoldLaw, PayoutOnce, TopupOnce, PromoLaw, Overdrawn, Run,
         ActiveInvoice, PortionsAddUp, OneActivePerOrder, OneOpenPerInvoice;
    var db := Run(Seeded(), calls);
    RunKeepsInv(calls);
    forall o | 0 <= o < |db.orders| && db.orders[o].status.WaitingPayment?
      ensures ActiveInvoice(db.invoices, o).Some? && db.invoices[ActiveInvoice(db.invoices, o).value].status.Issued?
    {
      ActiveStatus(|db.wallets|, db.orders, db.invoices, o);
    }
  }

  /** The ledger is exact: every balance is the sum of its rows, every row's running balance the prefix sum,
      every correlation group and all wallets together sum to zero, and no key is used twice. */
  lemma LedgerIsExact(calls: seq<Request>)
    requires AllValid(calls)
    ensures var db := Run(Seeded(), calls);
            && BalancesAreSums(db.wallets, Entries(db.ledger)) && RunningBalances(|db.wallets|, db.ledger)
            && GroupsBalance(Entries(db.ledger)) && Sum(Balances(db.wallets)) == 0 && KeysUnique(Entries(db.ledger))
            && forall w :: 0 <= w < |db.wallets| && w != GATEWAY && w != REVENUE ==> db.wallets[w].balance >= 0
  {
    hide Run, FlowLaw, EscrowFunded, EscrowOnce, IntentLaw, HoldLaw, KeyLaw, TopupOnce, PayoutOnce, PromoLaw, SumBy,
         Sum;
    RunKeepsInv(calls);
  }

  /** A promo's counter is its RESERVED and CONSUMED redemptions and within both caps, and redemption and
      invoice go RESERVED/ISSUED, CONSUMED/PAID, RELEASED/(CANCELLED or EXPIRED) together. */
  lemma PromosAreExact(calls: seq<Request>)
    requires AllValid(calls)
    ensures var db := Run(Seeded(), calls);
            && |db.redemptions| == |db.invoices|
            && (forall i :: 0 <= i < |db.invoices| ==> RedemptionFits(db.invoices[i], db.redemptions[i], |db.promos|))
            && (forall p :: 0 <= p < |db.promos| ==> PromoWithinCaps(db.promos[p], Uses(db.redemptions, p, None)))
            && (forall p: nat, u: nat :: p < |db.promos| ==>
                  Uses(db.redemptions, p, Some(u)) <= db.promos[p].maxPerUser)
  {
    hide Run, LedgerLaw, FlowLaw, EscrowFunded, EscrowOnce, IntentLaw, HoldLaw, KeyLaw, TopupOnce, PayoutOnce, Uses,
         Overdrawn;
    RunKeepsInv(calls);
  }

  /** A promo slot is returned exactly when its invoice is cancelled or expires. So neither cancelling the
      order nor refunding it in full returns one by itself, and the slot of a PAID invoice is used for good. */
  lemma PaidSlotIsSpent(calls: seq<Request>, k: nat, i: nat)
    requires AllValid(calls) && k <= |calls|
    ensures var early, late := Run(Seeded(), calls[..k]), Run(Seeded(), calls);
            i < |early.invoices| && early.invoices[i].status.InvoicePaid? && early.invoices[i].promo.Some? ==>
              && i < |late.invoices| && late.invoices[i] == early.invoices[i]
              && i < |late.redemptions| && late.redemptions[i].Some? && late.redemptions[i].value.status.Consumed?
  {
    hide Run, LedgerLaw, FlowLaw, EscrowFunded, EscrowOnce, IntentLaw, HoldLaw, KeyLaw, TopupOnce, PayoutOnce, Uses,
         Overdrawn, NoLateCredit, OrdersEvolve, IntentsEvolve, WithdrawalsEvolve, DisputesEvolve;
    RunKeepsInv(calls);
    RunEvolves(calls, k);
    var early, late := Run(Seeded(), calls[..k]), Run(Seeded(), calls);
    if i < |early.invoices| {
      assert InvoiceEvolves(early.invoices[i], late.invoices[i]);
      assert RedemptionFits(late.invoices[i], late.redemptions[i], |late.promos|);
    }
  }
}
