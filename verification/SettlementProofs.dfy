/** Completion, dispute outcomes and withdrawals: money leaves escrow, or the platform, exactly once. */
module SettlementProofs {
  import opened Results
  import opened Sums
  import opened Money
  import opened Tables
  import opened OrderState
  import opened Ledger
  import opened MoneyOps
  import opened Market
  import opened Laws
  import opened LedgerProofs
  import opened Movements
  import opened FlowProofs
  import opened HoldProofs
  import opened PromoProofs
  import opened RecordProofs
  import opened StepProofs
  import opened MoneyProofs
  import Pricing
  import PricingTheorems

  // ------------------------------------------------------------------ out of escrow

  /** A funded order with its PAID invoice. */
  ghost predicate Unsettled(db: Db, o: nat, i: nat) {
    && o < |db.orders| && i < |db.invoices| && db.invoices[i].order == o
    && db.invoices[i].status.InvoicePaid? && Funded(db.orders[o].status)
  }

  /** A movement that takes an order's whole total out of escrow, debits no user, and spends one of the
      order's settlement keys. */
  ghost predicate TakesOut(m: Movement, o: nat, total: int) {
    && m.escrow == Some((o, -total)) && m.topup.None? && m.payout.None?
    && (m.key == ReleaseKey(o) || m.key == RefundKey(o) || m.key == SplitKey(o))
    && Delta(m, ESCROW) == -total
    && forall w: nat :: w != ESCROW && w != REVENUE ==> Delta(m, w) >= 0
  }

  /** No settlement key of a funded order has been spent, and escrow covers the order. */
  lemma SettlementUnspent(db: Db, o: nat, i: nat, m: Movement)
    requires Inv(db) && Unsettled(db, o, i) && TakesOut(m, o, db.invoices[i].total)
    ensures !KeyUsed(Entries(db.ledger), m.key) && Covered(db.wallets, m)
  {
    hide LedgerLaw, PromoLaw, EscrowDue, EscrowOnce, TopupOnce, PayoutOnce, IntentLaw, HoldLaw, KeyUsed, Delta;
    EscrowCoversOrder(|db.wallets|, db.orders, db.invoices, i);
  }

  /** The order row a settlement leaves. */
  ghost predicate Closed(o: Order, r: Order) {
    r.customer == o.customer && r.courier == o.courier && OrderState.Settled(r.status)
  }

  lemma FinishedKeepsInv(db: Db, posted: Db, o: nat, i: nat, r: Order, m: Movement, disputes: map<nat, DisputeStatus>)
    requires Inv(db) && Unsettled(db, o, i) && TakesOut(m, o, db.invoices[i].total)
    requires Effect(db, posted, m) && Closed(db.orders[o], r) && r.total >= 0 && r.commission >= 0 && r.payout >= 0
    ensures var db' := posted.(orders := db.orders[o := r], disputes := disputes);
            Inv(db') && SlackKept(db, db')
  {
    hide LedgerLaw, FlowLaw, PromoLaw, EscrowDue, EscrowOnce, TopupOnce, PayoutOnce, KeyLaw, IntentLaw, Overdrawn,
         KeyUsed, Trail, ActiveInvoice, LiveHolds, Delta;
    var db' := posted.(orders := db.orders[o := r], disputes := disputes);
    var es, es', n := Entries(db.ledger), Entries(posted.ledger), |db.wallets|;
    OrdersWellFormed(db, o);
    SettlementUnspent(db, o, i, m);
    MovedStaysSolvent(db.wallets, posted.wallets, m);
    MoneyOf(db);
    FinishKeepsFlow(n, db.orders, db.invoices, i, r);
    OneActiveOf(n, db.orders, db.invoices);
    FinishExtendsHistory(es, es', db.orders, db.invoices, i, r);
    TopupUntouched(es, es', db.intents, m);
    PayoutUntouched(es, es', db.withdrawals, m);
    KeysExtended(db, posted, db', m);
  }

  lemma PaidInvoiceIs(db: Db, o: nat)
    requires Inv(db) && o < |db.orders|
    ensures Phase(db.orders[o].status) >= 1 ==> PaidInvoice(db, o).Ok?
    ensures PaidInvoice(db, o).Ok? ==> Phase(db.orders[o].status) >= 1
  {
    hide LedgerLaw, PromoLaw, EscrowDue, EscrowOnce, TopupOnce, PayoutOnce, KeyLaw, IntentLaw, HoldLaw, ActiveInvoice;
    ActiveStatus(|db.wallets|, db.orders, db.invoices, o);
  }

  /** What completion pays: the legs are the invoice's total, none of them debiting courier or tax. */
  lemma SettlementParts(cfg: Settings, inv: Invoice)
    requires cfg.Valid() && inv.itemsNet >= 0 && inv.courierFee >= 0
    ensures var s := SettlementOf(cfg, inv);
            && s.payout >= 0 && s.commission >= 0 && s.tax == inv.tax
            && s.payout + s.tax + s.revenue == inv.total && s.payout + s.commission == inv.itemsNet + inv.courierFee
  {
    hide Pricing.Commission;
    PricingTheorems.CommissionWithinBase(inv.itemsNet + inv.courierFee, cfg.commissionRate);
  }

  /** Release posts the completion movement exactly when the courier's payout does not round to zero. */
  lemma ReleaseOutcome(cfg: Settings, db: Db, o: nat, i: nat, courier: nat)
    requires cfg.Valid() && Inv(db) && Unsettled(db, o, i) && UserWallet(courier) < |db.wallets|
    ensures var s, r := SettlementOf(cfg, db.invoices[i]), ReleaseEscrow(cfg, db, o, i, courier);
            var m := ReleaseMovement(o, UserWallet(courier), s.payout, s.tax, s.revenue);
            && (r.Ok? <==> s.payout != 0)
            && (r.Err? ==> r == Err(LedgerImbalance))
            && (r.Ok? ==> Effect(db, r.value, m) && TakesOut(m, o, db.invoices[i].total))
  {
    hide LedgerLaw, FlowLaw, PromoLaw, EscrowDue, EscrowOnce, TopupOnce, PayoutOnce, KeyLaw, IntentLaw, HoldLaw,
         Overdrawn, KeyUsed, Trail, Pricing.ComputeSettlement, WellFormed, Extended, Postable, Covered, PostGroup;
    var inv := db.invoices[i];
    var s, w := SettlementOf(cfg, inv), UserWallet(courier);
    MoneyOf(db);
    IssuedOrder(db, i);
    SettlementParts(cfg, inv);
    if s.payout != 0 {
      var m := ReleaseMovement(o, w, s.payout, s.tax, s.revenue);
      ReleasePostable(o, i, w, s.payout, s.tax, s.revenue, |db.ledger|, |db.wallets|);
      SettlementUnspent(db, o, i, m);
      PostHasEffect(db, ReleaseLegs(o, i, w, s.payout, s.tax, s.revenue), m);
    } else {
      ZeroPayoutMalformed(o, i, w, s.tax, s.revenue);
      MalformedRejected(db, ReleaseLegs(o, i, w, 0, s.tax, s.revenue));
    }
  }

  lemma MalformedRejected(db: Db, legs: seq<Leg>)
    requires !WellFormed(legs)
    ensures Post(db, legs) == Err(LedgerImbalance)
  {
    hide WellFormed;
  }

  lemma ZeroPayoutMalformed(o: nat, i: nat, w: nat, tax: int, revenue: int)
    ensures !WellFormed(ReleaseLegs(o, i, w, 0, tax, revenue))
  {
    QuantizeOnGrid(0);
    var legs := ReleaseLegs(o, i, w, 0, tax, revenue);
    assert legs[1].amount == 0 as real;
  }

  lemma CompleteKeepsInv(cfg: Settings, db: Db, o: nat, now: int)
    requires cfg.Valid() && Inv(db) && o < |db.orders| && CompleteAndRelease(cfg, db, o, now).Ok?
    ensures var db' := CompleteAndRelease(cfg, db, o, now).value;
            Inv(db') && SlackKept(db, db')
  {
    hide Inv, SlackKept, Effect, TakesOut, ReleaseEscrow, ActiveInvoice, Pricing.ComputeSettlement;
    var order, i := db.orders[o], PaidInvoice(db, o).value;
    var courier, s := order.courier.value, SettlementOf(cfg, db.invoices[i]);
    ReleaseOutcome(cfg, db, o, i, courier);
    var posted := ReleaseEscrow(cfg, db, o, i, courier).value;
    var m := ReleaseMovement(o, UserWallet(courier), s.payout, s.tax, s.revenue);
    EffectKeepsDisputes(db, posted, m);
    FinishedKeepsInv(db, posted, o, i, order.(status := Completed, commission := s.commission, payout := s.payout), m,
        db.disputes);
  }

  lemma EffectKeepsDisputes(db: Db, posted: Db, m: Movement)
    requires Effect(db, posted, m)
    ensures posted.disputes == db.disputes && posted.orders == db.orders
  {
    hide LedgerLaw, Extended;
  }

  lemma ApproveOrderKeepsInv(cfg: Settings, db: Db, o: nat, actor: nat, now: int)
    requires cfg.Valid() && Inv(db) && ApproveOrder(cfg, db, o, actor, now).Ok?
    ensures Inv(ApproveOrder(cfg, db, o, actor, now).value) && SlackKept(db, ApproveOrder(cfg, db, o, actor, now).value)
  {
    hide Inv, SlackKept, CompleteAndRelease;
    CompleteKeepsInv(cfg, db, o, now);
  }

  lemma AutoApproveKeepsInv(cfg: Settings, db: Db, o: nat, now: int)
    requires cfg.Valid() && Inv(db) && AutoApprove(cfg, db, o, now).Ok?
    ensures Inv(AutoApprove(cfg, db, o, now).value) && SlackKept(db, AutoApprove(cfg, db, o, now).value)
  {
    hide Inv, SlackKept, CompleteAndRelease;
    if o < |db.orders| && db.orders[o].status.Delivered? {
      CompleteKeepsInv(cfg, db, o, now);
    } else {
      SlackReflexive(db);
    }
  }

  // ------------------------------------------------------------------ dispute outcomes

  /** A dispute outcome on a funded order posts a movement that takes out the whole total. */
  lemma OutcomeEffect(cfg: Settings, db: Db, o: nat, i: nat, courier: nat, outcome: DisputeStatus,
      courierAmount: Option<real>)
    returns (m: Movement)
    requires cfg.Valid() && Inv(db) && Unsettled(db, o, i) && UserWallet(courier) < |db.wallets|
    requires UserWallet(db.orders[o].customer) < |db.wallets|
    requires ApplyOutcome(cfg, db, o, i, courier, outcome, courierAmount).Ok?
    ensures var (posted, r) := ApplyOutcome(cfg, db, o, i, courier, outcome, courierAmount).value;
            Effect(db, posted, m) && TakesOut(m, o, db.invoices[i].total) && Closed(db.orders[o], r)
  {
    hide LedgerLaw, FlowLaw, PromoLaw, EscrowDue, EscrowOnce, TopupOnce, PayoutOnce, KeyLaw, IntentLaw, HoldLaw,
         Overdrawn, KeyUsed, Trail, Pricing.ComputeSettlement, WellFormed, Extended, Postable, Covered, PostGroup,
         ReleaseEscrow, RefundLegs, SplitLegs, Quantize;
    var total, customer := db.invoices[i].total, UserWallet(db.orders[o].customer);
    MoneyOf(db);
    IssuedOrder(db, i);
    match outcome {
      case ResolvedCustomer =>
        m := RefundMovement(o, customer, total);
        RefundPostable(o, i, customer, total, |db.ledger|, |db.wallets|);
        SettlementUnspent(db, o, i, m);
        PostHasEffect(db, RefundLegs(o, i, customer, total), m);
      case ResolvedCourier =>
        var s := SettlementOf(cfg, db.invoices[i]);
        m := ReleaseMovement(o, UserWallet(courier), s.payout, s.tax, s.revenue);
        ReleaseOutcome(cfg, db, o, i, courier);
      case ResolvedSplit =>
        var share := Quantize(courierAmount.value);
        m := SplitMovement(o, UserWallet(courier), customer, share, total - share);
        SplitPostable(o, i, UserWallet(courier), customer, share, total - share, |db.ledger|, |db.wallets|);
        SettlementUnspent(db, o, i, m);
        PostHasEffect(db, SplitLegs(o, i, UserWallet(courier), customer, share, total - share), m);
    }
  }

  /** An outcome that would move money is only ever committed for a DISPUTED order. */
  lemma ResolveDisputeKeepsInv(cfg: Settings, db: Db, o: nat, outcome: DisputeStatus, courierAmount: Option<real>,
      now: int)
    requires cfg.Valid() && Inv(db) && ResolveDispute(cfg, db, o, outcome, courierAmount, now).Ok?
    ensures var db' := ResolveDispute(cfg, db, o, outcome, courierAmount, now).value;
            Inv(db') && SlackKept(db, db')
  {
    hide Inv, SlackKept, Effect, TakesOut, ApplyOutcome, ActiveInvoice;
    var order, i := db.orders[o], PaidInvoice(db, o).value;
    var (posted, r) := ApplyOutcome(cfg, db, o, i, order.courier.value, outcome, courierAmount).value;
    OutcomeSettles(cfg, db, o, i, order.courier.value, outcome, courierAmount);
    var m := OutcomeEffect(cfg, db, o, i, order.courier.value, outcome, courierAmount);
    EffectKeepsDisputes(db, posted, m);
    FinishedKeepsInv(db, posted, o, i, r, m, db.disputes[o := outcome]);
  }

  lemma OutcomeSettles(cfg: Settings, db: Db, o: nat, i: nat, courier: nat, outcome: DisputeStatus,
      courierAmount: Option<real>)
    requires o < |db.orders| && i < |db.invoices|
    requires ApplyOutcome(cfg, db, o, i, courier, outcome, courierAmount).Ok?
    ensures OrderState.Settled(ApplyOutcome(cfg, db, o, i, courier, outcome, courierAmount).value.1.status)
  {
    hide PostGroup, ReleaseEscrow, SettlementOf, Quantize;
  }

  // ------------------------------------------------------------------ withdrawals

  lemma RequestWithdrawalKeepsInv(cfg: Settings, db: Db, courier: nat, amount: real, key: string)
    requires cfg.Valid() && Inv(db) && RequestWithdrawal(cfg, db, courier, amount, key).Ok?
    ensures var db' := RequestWithdrawal(cfg, db, courier, amount, key).value;
            Inv(db') && SlackKept(db, db')
  {
    hide LedgerLaw, FlowLaw, PromoLaw, EscrowDue, EscrowOnce, TopupOnce, PayoutOnce, KeyLaw, IntentLaw, Overdrawn,
         Sum, Quantize, HasWithdrawal;
    if !HasWithdrawal(db.withdrawals, courier, key) {
      var db', a, w := RequestWithdrawal(cfg, db, courier, amount, key).value, Quantize(amount), UserWallet(courier);
      UserWalletFacts(db, courier);
      HeldOnlyKeepsLedger(db.wallets, db.ledger, w, db.wallets[w].held + a);
      HeldOnlyStaysSolvent(db.wallets, w, db.wallets[w].held + a);
      NewPayoutKept(Entries(db.ledger), db.withdrawals, Withdrawal(courier, a, Requested, key));
      KeysKept(db, db');
      forall u: nat
        ensures LiveHolds(db'.intents, db'.invoices, db'.withdrawals, u)
             == LiveHolds(db.intents, db.invoices, db.withdrawals, u) + (if u == courier then a else 0)
      {
        NewWithdrawalHolds(db.withdrawals, Withdrawal(courier, a, Requested, key), u);
      }
    }
  }

  lemma ApproveWithdrawalKeepsInv(db: Db, k: nat)
    requires Inv(db) && ApproveWithdrawal(db, k).Ok?
    ensures Inv(ApproveWithdrawal(db, k).value) && SlackKept(db, ApproveWithdrawal(db, k).value)
  {
    hide LedgerLaw, FlowLaw, PromoLaw, EscrowDue, EscrowOnce, TopupOnce, PayoutOnce, KeyLaw, IntentLaw, Overdrawn, Sum;
    if db.withdrawals[k].status.Requested? {
      var db' := ApproveWithdrawal(db, k).value;
      PayoutsKept(Entries(db.ledger), db.withdrawals, k, Approved);
      KeysKept(db, db');
      forall u: nat
        ensures LiveHolds(db'.intents, db'.invoices, db'.withdrawals, u)
            == LiveHolds(db.intents, db.invoices, db.withdrawals, u)
      {
        WithdrawalMoves(db.withdrawals, k, Approved, u);
      }
    }
  }

  lemma RejectWithdrawalKeepsInv(db: Db, k: nat)
    requires Inv(db) && RejectWithdrawal(db, k).Ok?
    ensures Inv(RejectWithdrawal(db, k).value) && SlackKept(db, RejectWithdrawal(db, k).value)
  {
    hide LedgerLaw, FlowLaw, PromoLaw, EscrowDue, EscrowOnce, TopupOnce, PayoutOnce, KeyLaw, IntentLaw, Overdrawn, Sum;
    var row := db.withdrawals[k];
    if !row.status.Rejected? {
      var db', w := RejectWithdrawal(db, k).value, UserWallet(row.courier);
      WithdrawalIsHeld(|db.wallets|, db.wallets, db.intents, db.invoices, db.withdrawals, k);
      HeldOnlyKeepsLedger(db.wallets, db.ledger, w, db.wallets[w].held - row.amount);
      HeldOnlyStaysSolvent(db.wallets, w, db.wallets[w].held - row.amount);
      PayoutsKept(Entries(db.ledger), db.withdrawals, k, Rejected);
      KeysKept(db, db');
      forall u: nat
        ensures LiveHolds(db'.intents, db'.invoices, db'.withdrawals, u)
             == LiveHolds(db.intents, db.invoices, db.withdrawals, u) - (if u == row.courier then row.amount else 0)
      {
        WithdrawalMoves(db.withdrawals, k, Rejected, u);
      }
    }
  }

  lemma PayoutKeyUnspent(db: Db, k: nat)
    requires Inv(db) && k < |db.withdrawals| && !db.withdrawals[k].status.WithdrawalPaid?
    ensures !KeyUsed(Entries(db.ledger), PayoutKey(k))
  {
    hide LedgerLaw, FlowLaw, PromoLaw, EscrowDue, EscrowOnce, TopupOnce, PayoutOnce, IntentLaw, HoldLaw, KeyUsed;
  }

  lemma PayoutCovered(db: Db, k: nat)
    requires Inv(db) && k < |db.withdrawals| && db.withdrawals[k].status.Approved?
    ensures Covered(db.wallets, PayoutMovement(UserWallet(db.withdrawals[k].courier), db.withdrawals[k].amount, k))
  {
    hide LedgerLaw, FlowLaw, PromoLaw, EscrowDue, EscrowOnce, TopupOnce, PayoutOnce, IntentLaw, KeyLaw, Sum, LiveHolds;
    WithdrawalIsHeld(|db.wallets|, db.wallets, db.intents, db.invoices, db.withdrawals, k);
  }

  /** An approved withdrawal can always be paid: it is never a replay, never overdraws, never clamps. */
  lemma PayWithdrawalEffect(db: Db, k: nat) returns (posted: Db)
    requires Inv(db) && k < |db.withdrawals| && db.withdrawals[k].status.Approved?
    ensures var row := db.withdrawals[k];
            var w := UserWallet(row.courier);
            && w < |db.wallets| == |posted.wallets|
            && Effect(db, posted, PayoutMovement(w, row.amount, k))
            && PayWithdrawal(db, w, row.amount, k)
               == Ok((posted.(wallets := WithHeld(posted.wallets, w, db.wallets[w].held - row.amount)), true))
            && row.amount <= db.wallets[w].held
  {
    hide LedgerLaw, FlowLaw, PromoLaw, EscrowDue, EscrowOnce, TopupOnce, PayoutOnce, IntentLaw, KeyLaw, Sum, KeyUsed,
         PostGroup, Postable, Extended, Covered, PayoutLegs, LiveHolds;
    var row := db.withdrawals[k];
    var w, m := UserWallet(row.courier), PayoutMovement(UserWallet(row.courier), row.amount, k);
    MoneyOf(db);
    WithdrawalIsHeld(|db.wallets|, db.wallets, db.intents, db.invoices, db.withdrawals, k);
    PayoutKeyUnspent(db, k);
    PayoutCovered(db, k);
    PayoutPostable(w, row.amount, k, |db.ledger|, |db.wallets|);
    PostHasEffect(db, PayoutLegs(w, row.amount, k), m);
    posted := Post(db, PayoutLegs(w, row.amount, k)).value.0;
  }

  lemma MarkWithdrawalPaidKeepsInv(db: Db, k: nat)
    requires Inv(db) && MarkWithdrawalPaid(db, k).Ok?
    ensures Inv(MarkWithdrawalPaid(db, k).value) && SlackKept(db, MarkWithdrawalPaid(db, k).value)
  {
    hide LedgerLaw, FlowLaw, PromoLaw, EscrowDue, EscrowOnce, TopupOnce, PayoutOnce, KeyLaw, IntentLaw, Overdrawn,
         KeyUsed, Trail, PayWithdrawal, Extended, LiveHolds, WithdrawalLaw;
    var row := db.withdrawals[k];
    if row.status.Approved? {
      var posted := PayWithdrawalEffect(db, k);
      var db', w, m := MarkWithdrawalPaid(db, k).value, UserWallet(row.courier),
          PayoutMovement(UserWallet(row.courier), row.amount, k);
      var held := db.wallets[w].held - row.amount;
      var es, es' := Entries(db.ledger), Entries(posted.ledger);
      PayoutCovered(db, k);
      MovedStaysSolvent(db.wallets, posted.wallets, m);
      HeldOnlyKeepsLedger(posted.wallets, posted.ledger, w, held);
      HeldOnlyStaysSolvent(posted.wallets, w, held);
      EscrowUntouched(es, es', db.orders, db.invoices, m);
      TopupUntouched(es, es', db.intents, m);
      PayoutPosted(es, es', db.withdrawals, k, m);
      KeysExtended(db, posted, db', m);
      MoneyOf(db);
      forall u: nat
        ensures LiveHolds(db'.intents, db'.invoices, db'.withdrawals, u)
             == LiveHolds(db.intents, db.invoices, db.withdrawals, u) - (if u == row.courier then row.amount else 0)
      {
        PaidHolds(db, k, u);
      }
      WithdrawalPaidFits(db, k);
    }
  }

  lemma PaidHolds(db: Db, k: nat, u: nat)
    requires k < |db.withdrawals| && db.withdrawals[k].status.Approved?
    ensures var withdrawals := db.withdrawals[k := db.withdrawals[k].(status := WithdrawalPaid)];
            LiveHolds(db.intents, db.invoices, withdrawals, u)
            == LiveHolds(db.intents, db.invoices, db.withdrawals, u)
               - (if u == db.withdrawals[k].courier then db.withdrawals[k].amount else 0)
  {
    hide Sum;
    WithdrawalMoves(db.withdrawals, k, WithdrawalPaid, u);
  }

  lemma WithdrawalPaidFits(db: Db, k: nat)
    requires k < |db.withdrawals| && WithdrawalLaw(|db.wallets|, db.withdrawals)
    ensures WithdrawalLaw(|db.wallets|, db.withdrawals[k := db.withdrawals[k].(status := WithdrawalPaid)])
  {
  }
}
