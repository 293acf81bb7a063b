/** What can never happen again, over every later state of a run. */
module Lifetimes {
  import opened Results
  import opened Sums
  import opened Tables
  import opened OrderState
  import opened Ledger
  import opened Market
  import opened Laws
  import opened FlowProofs
  import opened MoneyProofs
  import opened Evolution
  import opened Outcomes
  import opened Theorems

  // ------------------------------------------------------------------ orders past their date

  /** The clock never goes back. */
  ghost predicate ClockForward(requests: seq<Request>) {
    forall i, j :: 0 <= i <= j < |requests| ==> requests[i].now <= requests[j].now
  }

  /** The order's delivery day is over at a time. */
  ghost predicate PastDate(o: Order, now: int) {
    Day(now) > o.deliveryDate
  }

  lemma CommitFreezes(db: Db, request: Request, o: nat)
    requires o < |db.orders| && !Reschedulable(db.orders[o].status) && PastDate(db.orders[o], request.now)
    ensures var db' := Commit(db, request); o < |db'.orders| && db'.orders[o] == db.orders[o]
  {
    hide Step;
    if Step(db, request).Ok? {
      StepWritesInWindow(db, request);
    }
  }

  /** Once the delivery day of an invoiced order is over, its row never changes again, whatever is called. */
  lemma {:induction false} LateOrdersFreeze(requests: seq<Request>, k: nat, o: nat)
    requires ClockForward(requests) && k <= |requests|
    requires var early := Run(Seeded(), requests[..k]);
             && o < |early.orders| && !Reschedulable(early.orders[o].status)
             && (k < |requests| ==> PastDate(early.orders[o], requests[k].now))
    ensures var early, late := Run(Seeded(), requests[..k]), Run(Seeded(), requests);
            o < |late.orders| && late.orders[o] == early.orders[o]
    decreases |requests|
  {
    hide Commit;
    if k == |requests| {
      assert requests[..k] == requests;
    } else {
      var n := |requests| - 1;
      var init := requests[..n];
      assert init[..k] == requests[..k];
      LateOrdersFreeze(init, k, o);
      assert requests[k].now <= requests[n].now;
      CommitFreezes(Run(Seeded(), init), requests[n], o);
    }
  }

  /** So the money of a funded order past its date stays in escrow for good: one credit, never a debit. */
  lemma {:induction false} LateEscrowIsStranded(requests: seq<Request>, k: nat, o: nat)
    requires AllValid(requests) && ClockForward(requests) && k <= |requests|
    requires var early := Run(Seeded(), requests[..k]);
             && o < |early.orders| && Funded(early.orders[o].status)
             && (k < |requests| ==> PastDate(early.orders[o], requests[k].now))
    ensures var late := Run(Seeded(), requests);
            var total := ActiveTotal(late.invoices, o);
            && o < |late.orders| && Funded(late.orders[o].status)
            && total > 0 && Trail(Entries(late.ledger), EscrowOf(o)) == [total]
            && |late.wallets| >= SYSTEM_WALLETS && late.wallets[ESCROW].balance >= total
  {
    hide Run, Trail, ActiveTotal, EscrowDue;
    LateOrdersFreeze(requests, k, o);
    MoneyMovesOnce(requests, o);
    EscrowIsExact(requests);
    EscrowCovers(requests, o);
  }

  lemma {:induction false} EscrowCovers(requests: seq<Request>, o: nat)
    requires AllValid(requests)
    ensures var db := Run(Seeded(), requests);
            o < |db.orders| && Funded(db.orders[o].status) ==>
              EscrowDue(db.orders, db.invoices) >= ActiveTotal(db.invoices, o)
  {
    hide LedgerLaw, EscrowOnce, IntentLaw, HoldLaw, KeyLaw, TopupOnce, PayoutOnce, PromoLaw, Overdrawn,
         ActiveInvoice, EscrowDue, Run;
    var db := Run(Seeded(), requests);
    RunKeepsInv(requests);
    if o < |db.orders| && Funded(db.orders[o].status) {
      ActiveStatus(|db.wallets|, db.orders, db.invoices, o);
      EscrowCoversOrder(|db.wallets|, db.orders, db.invoices, ActiveInvoice(db.invoices, o).value);
    }
  }

  /** While its order waits past its date, nothing retires an ISSUED invoice or puts another in its place. */
  lemma {:induction false} CommitKeepsLateInvoice(db: Db, request: Request, i: nat)
    requires request.cfg.Valid() && Inv(db) && WalletLaw(db) && Waiting(db, i)
    requires PastDate(db.orders[db.invoices[i].order], request.now)
    ensures Waiting(Commit(db, request), i)
    ensures Commit(db, request).invoices[i].order == db.invoices[i].order
  {
    hide Step, Evolves, FollowsTable, DisputeLaw, RequestsUnique, Inv, PastDate;
    var db', o := Commit(db, request), db.invoices[i].order;
    CommitFreezes(db, request, o);
    CommitEvolves(db, request);
    CommitKeepsInv(db, request);
    InvoicesOf(db, db');
    assert InvoiceEvolves(db.invoices[i], db'.invoices[i]);
    WaitingInvoice(db, i);
    var active := ActiveOf(db', o);
    if active < |db.invoices| && active != i {
      assert InvoiceEvolves(db.invoices[active], db'.invoices[active]);
      NotActive(db, i, active);
    }
  }

  lemma InvoicesOf(db: Db, db': Db)
    requires Evolves(db, db')
    ensures InvoicesEvolve(db.invoices, db'.invoices)
  {
    hide NoLateCredit, OrdersEvolve, IntentsEvolve, WithdrawalsEvolve, DisputesEvolve, OrphansStayOpen, InvoicesEvolve;
  }

  lemma WaitingInvoice(db: Db, i: nat)
    requires Inv(db) && Waiting(db, i)
    ensures db.orders[db.invoices[i].order].status.WaitingPayment? && db.invoices[i].status.Issued?
  {
  }

  /** The active invoice of a waiting order. */
  lemma {:induction false} ActiveOf(db: Db, o: nat) returns (i: nat)
    requires Inv(db) && o < |db.orders| && db.orders[o].status.WaitingPayment?
    ensures i < |db.invoices| && db.invoices[i].order == o && db.invoices[i].status.Issued?
  {
    hide LedgerLaw, EscrowFunded, EscrowOnce, IntentLaw, HoldLaw, KeyLaw, TopupOnce, PayoutOnce, PromoLaw, Overdrawn,
         ActiveInvoice;
    ActiveStatus(|db.wallets|, db.orders, db.invoices, o);
    i := ActiveInvoice(db.invoices, o).value;
  }

  lemma {:induction false} NotActive(db: Db, i: nat, k: nat)
    requires Inv(db) && i < |db.invoices| && k < |db.invoices| && i != k
    requires db.invoices[i].status.Issued? && db.invoices[i].order == db.invoices[k].order
    ensures !db.invoices[k].status.Issued?
  {
    hide LedgerLaw, EscrowFunded, EscrowOnce, IntentLaw, HoldLaw, KeyLaw, TopupOnce, PayoutOnce, PromoLaw, Overdrawn,
         ActiveInvoice;
    assert OneActivePerOrder(db.invoices);
  }

  /** An order that waits for payment past its date waits for good, its invoice ISSUED: no payment for it can be
      booked, and neither the courier nor the sweep can retire the invoice and free what it holds. */
  lemma {:induction false} LateInvoiceIsStranded(requests: seq<Request>, k: nat, i: nat)
    requires AllValid(requests) && ClockForward(requests) && k <= |requests|
    requires var early := Run(Seeded(), requests[..k]);
             && Waiting(early, i)
             && (k < |requests| ==> PastDate(early.orders[early.invoices[i].order], requests[k].now))
    ensures var early, late := Run(Seeded(), requests[..k]), Run(Seeded(), requests);
            Waiting(late, i) && late.invoices[i].order == early.invoices[i].order
            && late.orders[late.invoices[i].order] == early.orders[late.invoices[i].order]
    decreases |requests|
  {
    hide Commit, Inv;
    if k == |requests| {
      assert requests[..k] == requests;
    } else {
      var n := |requests| - 1;
      var init := requests[..n];
      assert init[..k] == requests[..k];
      LateInvoiceIsStranded(init, k, i);
      RunKeepsInv(init);
      assert requests[k].now <= requests[n].now;
      CommitKeepsLateInvoice(Run(Seeded(), init), requests[n], i);
      LateOrdersFreeze(requests, k, Run(Seeded(), requests[..k]).invoices[i].order);
    }
  }

  // ------------------------------------------------------------------ auto-approval

  const AUTO_APPROVE_SECONDS: int := 259200

  lemma CommitFixesDate(db: Db, request: Request, o: nat)
    requires Inv(db) && WalletLaw(db) && o < |db.orders| && Phase(db.orders[o].status) >= 1
    ensures var db' := Commit(db, request);
            && o < |db'.orders| && db'.orders[o].deliveryDate == db.orders[o].deliveryDate
            && Phase(db'.orders[o].status) >= 1
  {
    hide Step, Inv, WalletLaw, NoLateCredit, InvoicesEvolve, IntentsEvolve, WithdrawalsEvolve, DisputesEvolve,
         OrphansStayOpen, InWindow;
    CommitEvolves(db, request);
    assert OrderEvolves(db.orders[o], Commit(db, request).orders[o]);
    if Step(db, request).Ok? {
      StepWritesInWindow(db, request);
    }
  }

  /** The delivery date of a paid order is fixed. */
  lemma {:induction false} PaidDateIsFixed(requests: seq<Request>, k: nat, o: nat)
    requires AllValid(requests) && k <= |requests|
    requires var early := Run(Seeded(), requests[..k]); o < |early.orders| && Phase(early.orders[o].status) >= 1
    ensures var early, late := Run(Seeded(), requests[..k]), Run(Seeded(), requests);
            && o < |late.orders| && late.orders[o].deliveryDate == early.orders[o].deliveryDate
            && Phase(late.orders[o].status) >= 1
    decreases |requests|
  {
    hide Commit, Inv, WalletLaw;
    if k == |requests| {
      assert requests[..k] == requests;
    } else {
      var init := requests[..|requests| - 1];
      assert init[..k] == requests[..k];
      PaidDateIsFixed(init, k, o);
      RunKeepsInv(init);
      CommitFixesDate(Run(Seeded(), init), requests[|requests| - 1], o);
    }
  }

  /** An order delivered less than three days before its delivery date is never approved automatically: in every
      later state, three days or more after the delivery, the sweep's call for it fails or changes nothing. */
  lemma {:induction false} AutoApprovalComesTooLate(
      requests: seq<Request>, k: nat, o: nat, deliveredAt: int, cfg: Settings, now: int)
    requires AllValid(requests) && k <= |requests| && cfg.Valid()
    requires var early := Run(Seeded(), requests[..k]);
             && o < |early.orders| && early.orders[o].status.Delivered?
             && early.orders[o].deliveryDate < Day(deliveredAt) + 3
    requires now >= deliveredAt + AUTO_APPROVE_SECONDS
    ensures var late := Run(Seeded(), requests);
            && o < |late.orders|
            && (late.orders[o].status.Delivered? ==> AutoApprove(cfg, late, o, now).Err?)
            && (!late.orders[o].status.Delivered? ==> AutoApprove(cfg, late, o, now) == Ok(late))
  {
    hide Run, Inv, CompleteAndRelease, Vanishes, PaidInvoice, Moves;
    PaidDateIsFixed(requests, k, o);
    RunKeepsInv(requests);
    CompletionOutcome(cfg, Run(Seeded(), requests), o, now);
  }

  /** At the earliest moment the sweep considers it, a deliverable order is approved exactly when it was delivered at
      least three days before its date. */
  lemma AutoApprovalWindow(cfg: Settings, db: Db, o: nat, deliveredAt: int)
    requires cfg.Valid() && Inv(db) && o < |db.orders| && db.orders[o].status.Delivered?
    requires InWindow(db.orders[o].deliveryDate, deliveredAt)
    requires db.orders[o].courier.Some? && HasWallet(db, db.orders[o].courier.value)
    requires PaidInvoice(db, o).Ok? && !Vanishes(cfg, db.invoices[PaidInvoice(db, o).value])
    ensures AutoApprove(cfg, db, o, deliveredAt + AUTO_APPROVE_SECONDS).Ok?
            <==> db.orders[o].deliveryDate >= Day(deliveredAt) + 3
  {
    hide Inv, CompleteAndRelease, Vanishes, PaidInvoice, Moves, HasWallet;
    CompletionOutcome(cfg, db, o, deliveredAt + AUTO_APPROVE_SECONDS);
  }

  // ------------------------------------------------------------------ couriers without a wallet

  /** A funded order whose courier the dashboard created without a wallet. */
  ghost predicate Unpayable(db: Db, o: nat) {
    && o < |db.orders| && Funded(db.orders[o].status)
    && db.orders[o].courier.Some? && UserWallet(db.orders[o].courier.value) in db.emptySlots
  }

  lemma CommitKeepsUnpayable(db: Db, request: Request, o: nat)
    requires Inv(db) && WalletLaw(db) && Unpayable(db, o)
    ensures Unpayable(Commit(db, request), o)
  {
    hide Commit, Inv, WalletLaw, NoLateCredit, InvoicesEvolve, IntentsEvolve, WithdrawalsEvolve, DisputesEvolve,
         OrphansStayOpen, FollowsTable, IssuesOnlyAssigned, DisputeLaw, RequestsUnique;
    CommitEvolves(db, request);
    assert OrderEvolves(db.orders[o], Commit(db, request).orders[o]);
  }

  lemma {:induction false} UnpayableForLife(requests: seq<Request>, k: nat, o: nat)
    requires AllValid(requests) && k <= |requests| && Unpayable(Run(Seeded(), requests[..k]), o)
    ensures Unpayable(Run(Seeded(), requests), o)
    decreases |requests|
  {
    hide Commit, Inv, WalletLaw, Unpayable;
    if k == |requests| {
      assert requests[..k] == requests;
    } else {
      var init := requests[..|requests| - 1];
      assert init[..k] == requests[..k];
      UnpayableForLife(init, k, o);
      RunKeepsInv(init);
      CommitKeepsUnpayable(Run(Seeded(), init), requests[|requests| - 1], o);
    }
  }

  /** The money of a funded order whose courier has no wallet stays in escrow for good, at any time and whatever is
      called: one credit and never a debit, and every completion and every resolution of a dispute is refused, the
      full refund included. */
  lemma {:induction false} WalletlessEscrowIsStranded(
      requests: seq<Request>, k: nat, o: nat, cfg: Settings, outcome: DisputeStatus, courierAmount: Option<real>,
      now: int)
    requires AllValid(requests) && k <= |requests| && cfg.Valid() && Unpayable(Run(Seeded(), requests[..k]), o)
    ensures var late := Run(Seeded(), requests);
            var total := ActiveTotal(late.invoices, o);
            && Unpayable(late, o)
            && total > 0 && Trail(Entries(late.ledger), EscrowOf(o)) == [total]
            && |late.wallets| >= SYSTEM_WALLETS && late.wallets[ESCROW].balance >= total
            && CompleteAndRelease(cfg, late, o, now).Err?
            && ResolveDispute(cfg, late, o, outcome, courierAmount, now).Err?
  {
    hide Run, Trail, ActiveTotal, EscrowDue, Inv, CompleteAndRelease, ResolveDispute, Vanishes, PaidInvoice, Moves,
         Resolvable, OutcomeMovement, DisputeLaw;
    var late := Run(Seeded(), requests);
    UnpayableForLife(requests, k, o);
    MoneyMovesOnce(requests, o);
    EscrowIsExact(requests);
    EscrowCovers(requests, o);
    RunKeepsInv(requests);
    RunKeepsDisputes(requests);
    CompletionOutcome(cfg, late, o, now);
    ResolveDisputeOutcome(cfg, late, o, outcome, courierAmount, now);
  }

  // ------------------------------------------------------------------ payments that come too late

  /** A payment for an invoice that has been cancelled or has expired is never booked: in every later state, a PAID
      event for its intent is refused or changes nothing. */
  lemma {:induction false} LatePaymentNeverBooked(
      requests: seq<Request>, k: nat, j: nat, amount: Option<int>, now: int)
    requires AllValid(requests) && k <= |requests|
    requires var early := Run(Seeded(), requests[..k]);
             && j < |early.intents| && early.intents[j].purpose.OrderInvoice?
             && early.intents[j].purpose.invoice < |early.invoices|
             && var s := early.invoices[early.intents[j].purpose.invoice].status;
                s.InvoiceCancelled? || s.InvoiceExpired?
    ensures var late := Run(Seeded(), requests);
            && j < |late.intents|
            && (late.intents[j].status.IntentNew? ==> Webhook(late, j, true, amount, now).Err?)
            && (!late.intents[j].status.IntentNew? ==> Webhook(late, j, true, amount, now) == Ok(late))
  {
    hide Run, Inv, Webhook, NoLateCredit, OrdersEvolve, WithdrawalsEvolve, DisputesEvolve, OrphansStayOpen, Booked;
    var early, late := Run(Seeded(), requests[..k]), Run(Seeded(), requests);
    RunEvolves(requests, k);
    RunKeepsInv(requests);
    assert IntentEvolves(early.intents[j], late.intents[j]);
    var i := early.intents[j].purpose.invoice;
    assert InvoiceEvolves(early.invoices[i], late.invoices[i]);
    WebhookOutcome(late, j, true, amount, now);
  }

  // ------------------------------------------------------------------ disputes that are left open

  /** A dispute that is still open when its order is settled stays open, and no resolution of it ever commits. */
  lemma {:induction false} OrphanedDisputeStaysOpen(
      requests: seq<Request>, k: nat, o: nat, cfg: Settings, outcome: DisputeStatus, courierAmount: Option<real>,
          now: int)
    requires AllValid(requests) && k <= |requests| && cfg.Valid()
    requires var early := Run(Seeded(), requests[..k]);
             && o < |early.orders| && OrderState.Settled(early.orders[o].status)
             && o in early.disputes && early.disputes[o].Open?
    ensures var late := Run(Seeded(), requests);
            && o in late.disputes && late.disputes[o].Open?
            && ResolveDispute(cfg, late, o, outcome, courierAmount, now).Err?
  {
    hide Run, Inv, ResolveDispute, NoLateCredit, InvoicesEvolve, IntentsEvolve, WithdrawalsEvolve, DisputesEvolve,
         DisputeLaw, Resolvable, OutcomeMovement, Moves, PaidInvoice;
    var early, late := Run(Seeded(), requests[..k]), Run(Seeded(), requests);
    RunEvolves(requests, k);
    RunKeepsInv(requests);
    RunKeepsDisputes(requests);
    assert OrderEvolves(early.orders[o], late.orders[o]);
    ResolveDisputeOutcome(cfg, late, o, outcome, courierAmount, now);
  }
}
