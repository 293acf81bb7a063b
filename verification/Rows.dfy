/** What a posted group leaves in the ledger, and what every row of the ledger says in every reachable state. */
module Rows {
  import opened Results
  import opened Sums
  import opened Money
  import opened Tables
  import opened OrderState
  import opened Ledger
  import opened MoneyOps
  import opened Market
  import opened Laws
  import opened FlowProofs
  import opened StepProofs
  import opened Movements
  import opened MoneyProofs
  import opened SettlementProofs
  import opened Evolution
  import opened Outcomes
  import opened Theorems
  import opened SystemWallets

  // ------------------------------------------------------------------ one group

  /** Two legs or more, none of them zero, that add up to zero. */
  ghost predicate Balanced(legs: seq<Leg>) {
    && |legs| >= 2 && (forall leg :: leg in legs ==> leg.amount != 0.0)
    && SumBy(PostedAll(legs, 0), Everything()) == 0
  }

  lemma BalancedIs(legs: seq<Leg>)
    requires AllOnGrid(legs)
    ensures WellFormed(legs) <==> Balanced(legs)
  {
    hide Quantize, SumBy, RawTotal;
    PostedTotal(legs, 0);
    QuantizeOnGrid(SumBy(PostedAll(legs, 0), Everything()));
    QuantizeOnGrid(0);
    forall i | 0 <= i < |legs| ensures Quantize(legs[i].amount) != 0 <==> legs[i].amount != 0.0 {
      GridAdd(0, legs[i].amount);
    }
  }

  ghost predicate Replayed(db: Db, legs: seq<Leg>) {
    exists leg, row :: leg in legs && row in db.ledger && leg.key.Some? && row.entry.key == leg.key
  }

  lemma ReplayedIs(db: Db, legs: seq<Leg>)
    ensures AnyKeyExists(Entries(db.ledger), legs) <==> Replayed(db, legs)
  {
    var es := Entries(db.ledger);
    if AnyKeyExists(es, legs) {
      var i :| 0 <= i < |legs| && legs[i].key.Some? && KeyUsed(es, legs[i].key.value);
      var k :| 0 <= k < |es| && es[k].key == Some(legs[i].key.value);
      assert legs[i] in legs && db.ledger[k] in db.ledger && db.ledger[k].entry.key == legs[i].key;
    }
    if Replayed(db, legs) {
      var leg, row :| leg in legs && row in db.ledger && leg.key.Some? && row.entry.key == leg.key;
      var i :| 0 <= i < |legs| && legs[i] == leg;
      var k :| 0 <= k < |db.ledger| && db.ledger[k] == row;
      assert es[k].key == Some(leg.key.value);
      assert KeyUsed(es, legs[i].key.value);
    }
  }

  /** The row a leg becomes: the leg's own wallet, rounded amount, kind, key and references, settled, under the group's
      number. */
  ghost predicate Records(e: Entry, leg: Leg, group: nat) {
    && e.wallet == leg.wallet && e.amount == Quantize(leg.amount) && e.kind == leg.kind && e.key == leg.key
    && e.order == leg.order && e.invoice == leg.invoice && e.intent == leg.intent
    && e.status == Settled && e.correlation == group
  }

  /** Posting legs on the grid: an unbalanced group is refused, a replayed one changes nothing, one that names a missing
      wallet is refused, and any other that commits appends one row for each leg, in order, and touches only wallets
      and ledger. */
  lemma PostOutcome(db: Db, legs: seq<Leg>)
    requires AllOnGrid(legs)
    ensures var r := Post(db, legs);
            && (!Balanced(legs) ==> r == Err(LedgerImbalance))
            && (Balanced(legs) && Replayed(db, legs) ==> r == Ok((db, false)))
            && (Balanced(legs) && !Replayed(db, legs) && (exists leg :: leg in legs && leg.wallet >= |db.wallets|)
                ==> r == Err(NotFound))
            && (Balanced(legs) && !Replayed(db, legs) && r.Ok? ==>
                  var db' := r.value.0;
                  && r.value.1 && db' == db.(wallets := db'.wallets, ledger := db'.ledger)
                  && |db'.ledger| == |db.ledger| + |legs| && db'.ledger[..|db.ledger|] == db.ledger
                  && forall i :: 0 <= i < |legs| ==> Records(db'.ledger[|db.ledger| + i].entry, legs[i], |db.ledger|))
  {
    hide Quantize, WellFormed, AnyKeyExists, Balanced, Replayed, ApplyLegs, Overdrawn;
    BalancedIs(legs);
    ReplayedIs(db, legs);
  }

  /** A hold is lowered by the amount released, and to zero, with a warning, when the amount exceeds it. */
  lemma ReleaseHoldOutcome(db: Db, w: nat, amount: int)
    ensures var r := ReleaseHold(db, w, amount);
            && (r.Ok? <==> w < |db.wallets|)
            && (r.Ok? ==>
                  var held := db.wallets[w].held;
                  r.value == db.(wallets := db.wallets[w := db.wallets[w].(
                                   held := if held - amount >= 0 then held - amount else 0)],
                                 overReleases := if held < amount then db.overReleases + 1 else db.overReleases))
  {
  }

  /** Funding an invoice whose key is in the ledger, or paying a withdrawal whose key is, changes nothing: in particular
      no hold is released a second time. */
  lemma ReplayReleasesNothing(db: Db, w: nat, fromWallet: int, fromGateway: int, i: nat, o: nat, intent: Option<nat>,
      wasHeld: bool, amount: int, k: nat)
    requires IsUser(w) && fromWallet >= 0 && fromGateway >= 0 && fromWallet + fromGateway > 0 && amount > 0
    ensures KeyUsed(Entries(db.ledger), EscrowKey(i)) ==>
              FundEscrow(db, w, fromWallet, fromGateway, i, o, intent, wasHeld) == Ok(db)
    ensures KeyUsed(Entries(db.ledger), PayoutKey(k)) ==> PayWithdrawal(db, w, amount, k) == Ok((db, false))
  {
    hide WellFormed, KeyUsed, Quantize, Realises, Overdrawn, ApplyLegs, RowsOf;
    var fund, payout := FundLegs(w, fromWallet, fromGateway, i, o, intent), PayoutLegs(w, amount, k);
    FundPostable(w, fromWallet, fromGateway, i, o, intent, 0, w + 1);
    PayoutPostable(w, amount, k, 0, w + 1);
    assert fund[|fund| - 1].key == Some(EscrowKey(i)) && payout[0].key == Some(PayoutKey(k));
  }

  ghost predicate IsUser(w: nat) {
    w >= SYSTEM_WALLETS
  }

  // ------------------------------------------------------------------ every row

  /** A row about an order and its invoice. */
  ghost predicate About(e: Entry, invoices: seq<Invoice>) {
    e.invoice.Some? && e.invoice.value < |invoices| && e.order == Some(invoices[e.invoice.value].order)
  }

  /** What a row of each kind can be: whose wallet, which way, under which key, about what. */
  ghost predicate RowFits(e: Entry, invoices: seq<Invoice>) {
    && e.status == Settled && e.amount != 0
    && match e.kind
       case Topup =>
         && e.intent.Some? && e.order.None? && e.invoice.None?
         && (if e.amount > 0 then IsUser(e.wallet) && e.key == Some(TopupKey(e.intent.value))
             else e.wallet == GATEWAY && e.key.None?)
       case Withdraw =>
         && e.intent.None? && e.order.None? && e.invoice.None?
         && (if e.amount > 0 then e.wallet == GATEWAY && e.key.None?
             else IsUser(e.wallet) && e.key.Some? && e.key.value.PayoutKey?)
       case Payment =>
         About(e, invoices) && e.amount < 0 && e.key.None? && (IsUser(e.wallet) || e.wallet == GATEWAY)
       case EscrowHold =>
         About(e, invoices) && e.amount > 0 && e.key == Some(EscrowKey(e.invoice.value)) && e.wallet == ESCROW
       case EscrowRelease =>
         && About(e, invoices) && e.intent.None?
         && (if e.amount > 0 then IsUser(e.wallet) && e.key.None?
             else && e.wallet == ESCROW
                  && (e.key == Some(ReleaseKey(e.order.value)) || e.key == Some(SplitKey(e.order.value))))
       case Refund =>
         && About(e, invoices) && e.intent.None?
         && (if e.amount > 0 then IsUser(e.wallet) && e.key.None?
             else e.wallet == ESCROW && e.key == Some(RefundKey(e.order.value)))
       case CommissionFee => About(e, invoices) && e.intent.None? && e.wallet == REVENUE && e.key.None?
       case TaxDue => About(e, invoices) && e.intent.None? && e.wallet == TAX_PAYABLE && e.key.None? && e.amount > 0
  }

  /** Every row fits its kind, and no row belongs to a group begun after it. */
  ghost predicate RowsFit(db: Db) {
    forall i :: 0 <= i < |db.ledger| ==>
      RowFits(db.ledger[i].entry, db.invoices) && db.ledger[i].entry.correlation <= i
  }

  ghost predicate LegsFit(legs: seq<Leg>, invoices: seq<Invoice>, group: nat) {
    forall i :: 0 <= i < |legs| ==> RowFits(Posted(legs[i], group), invoices)
  }

  lemma PostFits(db: Db, legs: seq<Leg>)
    requires RowsFit(db) && Post(db, legs).Ok? && LegsFit(legs, db.invoices, |db.ledger|)
    ensures RowsFit(Post(db, legs).value.0)
  {
    hide WellFormed, AnyKeyExists, Overdrawn, ApplyLegs, RowFits, Quantize;
  }

  /** Rows stay fitting while the ledger stays and invoices keep their orders. */
  lemma FitsStay(db: Db, db': Db, db'': Db)
    requires RowsFit(db') && db'.invoices == db.invoices && db''.ledger == db'.ledger
    requires InvoicesEvolve(db.invoices, db''.invoices)
    ensures RowsFit(db'')
  {
    forall i | 0 <= i < |db''.ledger| ensures RowFits(db''.ledger[i].entry, db''.invoices) {
      var e := db'.ledger[i].entry;
      assert RowFits(e, db.invoices);
      if e.invoice.Some? && e.invoice.value < |db.invoices| {
        assert InvoiceEvolves(db.invoices[e.invoice.value], db''.invoices[e.invoice.value]);
      }
    }
  }

  lemma FundFits(w: nat, fromWallet: int, fromGateway: int, i: nat, intent: Option<nat>, invoices: seq<Invoice>,
      group: nat)
    requires IsUser(w) && fromWallet >= 0 && fromGateway >= 0 && fromWallet + fromGateway > 0 && i < |invoices|
    ensures LegsFit(FundLegs(w, fromWallet, fromGateway, i, invoices[i].order, intent), invoices, group)
  {
    hide Quantize;
    QuantizeOnGrid(-fromWallet);
    QuantizeOnGrid(-fromGateway);
    QuantizeOnGrid(fromWallet + fromGateway);
  }

  lemma ReleaseFits(i: nat, w: nat, payout: int, tax: int, revenue: int, invoices: seq<Invoice>, group: nat)
    requires IsUser(w) && payout > 0 && tax >= 0 && payout + tax + revenue > 0 && i < |invoices|
    ensures LegsFit(ReleaseLegs(invoices[i].order, i, w, payout, tax, revenue), invoices, group)
  {
    hide Quantize;
    QuantizeOnGrid(-(payout + tax + revenue));
    QuantizeOnGrid(payout);
    QuantizeOnGrid(tax);
    QuantizeOnGrid(revenue);
  }

  lemma RefundFits(i: nat, w: nat, amount: int, invoices: seq<Invoice>, group: nat)
    requires IsUser(w) && amount > 0 && i < |invoices|
    ensures LegsFit(RefundLegs(invoices[i].order, i, w, amount), invoices, group)
  {
    hide Quantize;
    QuantizeOnGrid(-amount);
    QuantizeOnGrid(amount);
  }

  lemma SplitFits(i: nat, courier: nat, customer: nat, share: int, refund: int, invoices: seq<Invoice>, group: nat)
    requires IsUser(courier) && IsUser(customer) && share >= 0 && refund >= 0 && share + refund > 0 && i < |invoices|
    ensures LegsFit(SplitLegs(invoices[i].order, i, courier, customer, share, refund), invoices, group)
  {
    hide Quantize;
    QuantizeOnGrid(-(share + refund));
    QuantizeOnGrid(share);
    QuantizeOnGrid(refund);
  }

  lemma TopupFits(w: nat, amount: int, j: nat, invoices: seq<Invoice>, group: nat)
    requires IsUser(w) && amount > 0
    ensures LegsFit(TopupLegs(w, amount, j), invoices, group)
  {
    hide Quantize;
    QuantizeOnGrid(-amount);
    QuantizeOnGrid(amount);
  }

  lemma PayoutFits(w: nat, amount: int, k: nat, invoices: seq<Invoice>, group: nat)
    requires IsUser(w) && amount > 0
    ensures LegsFit(PayoutLegs(w, amount, k), invoices, group)
  {
    hide Quantize;
    QuantizeOnGrid(-amount);
    QuantizeOnGrid(amount);
  }

  // ------------------------------------------------------------------ every call

  lemma FundingFits(db: Db, i: nat, payer: nat, fromWallet: int, fromGateway: int, intent: Option<nat>, wasHeld: bool)
    requires RowsFit(db) && i < |db.invoices| && fromWallet >= 0 && fromGateway >= 0 && fromWallet + fromGateway > 0
    requires FundEscrow(db, UserWallet(payer), fromWallet, fromGateway, i, db.invoices[i].order, intent, wasHeld).Ok?
    ensures RowsFit(FundEscrow(db, UserWallet(payer), fromWallet, fromGateway, i, db.invoices[i].order, intent,
        wasHeld).value)
  {
    hide PostGroup, FundLegs, LegsFit, RowFits;
    FundFits(UserWallet(payer), fromWallet, fromGateway, i, intent, db.invoices, |db.ledger|);
    PostFits(db, FundLegs(UserWallet(payer), fromWallet, fromGateway, i, db.invoices[i].order, intent));
    FundKeepsRecords(db, UserWallet(payer), fromWallet, fromGateway, i, db.invoices[i].order, intent, wasHeld);
  }

  lemma SettleKeepsLedger(db: Db, i: nat, via: PaymentMethod, fromWallet: int, fromGateway: int, now: int)
    requires i < |db.invoices| && SettleRecord(db, i, via, fromWallet, fromGateway, now).Ok?
    ensures SettleRecord(db, i, via, fromWallet, fromGateway, now).value.ledger == db.ledger
  {
    hide OneActivePerOrder, InWindow;
  }

  lemma PayFits(db: Db, i: nat, actor: nat, now: int)
    requires Inv(db) && RowsFit(db) && PayInvoice(db, i, actor, now).Ok? && WalletCovers(db, i, actor)
    requires InvoicesEvolve(db.invoices, PayInvoice(db, i, actor, now).value.invoices)
    ensures RowsFit(PayInvoice(db, i, actor, now).value)
  {
    hide Inv, FundEscrow, SettleRecord, OpenIntent, RowsFit, InvoicesEvolve;
    var total, o := db.invoices[i].total, db.invoices[i].order;
    IssuedOrder(db, i);
    FundingFits(db, i, actor, total, 0, None, false);
    var funded := FundEscrow(db, UserWallet(actor), total, 0, i, o, None, false).value;
    FundKeepsRecords(db, UserWallet(actor), total, 0, i, o, None, false);
    SettleKeepsLedger(funded, i, WalletOnly, total, 0, now);
    FitsStay(db, funded, PayInvoice(db, i, actor, now).value);
  }

  lemma WebhookFits(db: Db, j: nat, amount: Option<int>, now: int)
    requires Inv(db) && RowsFit(db) && j < |db.intents| && db.intents[j].status.IntentNew?
    requires Webhook(db, j, true, amount, now).Ok?
    requires InvoicesEvolve(db.invoices, Webhook(db, j, true, amount, now).value.invoices)
    ensures RowsFit(Webhook(db, j, true, amount, now).value)
  {
    hide Inv, FundEscrow, SettleRecord, PostGroup, RowsFit, InvoicesEvolve, PaymentFits, TopupLegs, LegsFit;
    var it, db' := db.intents[j], Webhook(db, j, true, amount, now).value;
    IntentOf(db, j);
    match it.purpose {
      case WalletTopup =>
        TopupFits(UserWallet(it.user), it.amount, j, db.invoices, |db.ledger|);
        PostFits(db, TopupLegs(UserWallet(it.user), it.amount, j));
        var posted := Post(db, TopupLegs(UserWallet(it.user), it.amount, j)).value.0;
        PostKeepsInvoices(db, TopupLegs(UserWallet(it.user), it.amount, j));
        FitsStay(db, posted, db');
      case OrderInvoice(i) =>
        var inv := db.invoices[i];
        if inv.status.InvoicePaid? {
          FitsStay(db, db, db');
        } else {
          SettlesOnlyWaiting(db, j, i, now);
          GatewayPaymentFits(db, j, i);
          var w := UserWallet(it.user);
          FundingFits(db, i, it.user, inv.fromWallet, it.amount, Some(j), inv.fromWallet > 0);
          var funded := FundEscrow(db, w, inv.fromWallet, it.amount, i, inv.order, Some(j), inv.fromWallet > 0).value;
          FundKeepsRecords(db, w, inv.fromWallet, it.amount, i, inv.order, Some(j), inv.fromWallet > 0);
          SettleKeepsLedger(funded, i, BookedVia(inv), inv.fromWallet, it.amount, now);
          FitsStay(db, funded, db');
        }
    }
  }

  lemma PostKeepsInvoices(db: Db, legs: seq<Leg>)
    requires Post(db, legs).Ok?
    ensures Post(db, legs).value.0.invoices == db.invoices
  {
    hide WellFormed, AnyKeyExists, Overdrawn, ApplyLegs, RowsOf;
  }

  lemma ReleasingFits(cfg: Settings, db: Db, o: nat, i: nat, courier: nat)
    requires cfg.Valid() && Inv(db) && RowsFit(db) && Unsettled(db, o, i) && UserWallet(courier) < |db.wallets|
    requires ReleaseEscrow(cfg, db, o, i, courier).Ok?
    ensures RowsFit(ReleaseEscrow(cfg, db, o, i, courier).value)
    ensures ReleaseEscrow(cfg, db, o, i, courier).value.invoices == db.invoices
  {
    hide Inv, PostGroup, ReleaseLegs, SettlementOf, LegsFit, RowsFit, TakesOut, Effect;
    var s := SettlementOf(cfg, db.invoices[i]);
    IssuedOrder(db, i);
    SettlementParts(cfg, db.invoices[i]);
    ReleaseOutcome(cfg, db, o, i, courier);
    ReleaseFits(i, UserWallet(courier), s.payout, s.tax, s.revenue, db.invoices, |db.ledger|);
    PostFits(db, ReleaseLegs(o, i, UserWallet(courier), s.payout, s.tax, s.revenue));
    PostKeepsInvoices(db, ReleaseLegs(o, i, UserWallet(courier), s.payout, s.tax, s.revenue));
  }

  lemma CompletionFits(cfg: Settings, db: Db, o: nat, now: int)
    requires cfg.Valid() && Inv(db) && RowsFit(db) && o < |db.orders| && CompleteAndRelease(cfg, db, o, now).Ok?
    ensures RowsFit(CompleteAndRelease(cfg, db, o, now).value)
  {
    hide Inv, ReleaseEscrow, PaidInvoice, SettlementOf, RowsFit, InWindow;
    PaidInvoiceIs(db, o);
    PartiesExist(db, o);
    var i, courier := PaidInvoice(db, o).value, db.orders[o].courier.value;
    ReleasingFits(cfg, db, o, i, courier);
    FitsStay(db, ReleaseEscrow(cfg, db, o, i, courier).value, CompleteAndRelease(cfg, db, o, now).value);
  }

  lemma ResolutionFits(cfg: Settings, db: Db, o: nat, outcome: DisputeStatus, courierAmount: Option<real>, now: int)
    requires cfg.Valid() && Inv(db) && RowsFit(db) && DisputeLaw(db.orders, db.disputes)
    requires o < |db.orders| && ResolveDispute(cfg, db, o, outcome, courierAmount, now).Ok?
    ensures RowsFit(ResolveDispute(cfg, db, o, outcome, courierAmount, now).value)
  {
    hide Inv, PostGroup, PaidInvoice, ReleaseEscrow, RefundLegs, SplitLegs, SettlementOf, RowsFit, InWindow, LegsFit,
         Moves, DisputeLaw, Quantize;
    ResolveDisputeOutcome(cfg, db, o, outcome, courierAmount, now);
    var i, courier, customer := PaidInvoice(db, o).value, db.orders[o].courier.value, db.orders[o].customer;
    var total, n := db.invoices[i].total, |db.ledger|;
    IssuedOrder(db, i);
    PartiesExist(db, o);
    match outcome {
      case ResolvedCustomer =>
        RefundFits(i, UserWallet(customer), total, db.invoices, n);
        PostFits(db, RefundLegs(o, i, UserWallet(customer), total));
        PostKeepsInvoices(db, RefundLegs(o, i, UserWallet(customer), total));
      case ResolvedCourier => ReleasingFits(cfg, db, o, i, courier);
      case ResolvedSplit =>
        var share := Quantize(courierAmount.value);
        SplitFits(i, UserWallet(courier), UserWallet(customer), share, total - share, db.invoices, n);
        PostFits(db, SplitLegs(o, i, UserWallet(courier), UserWallet(customer), share, total - share));
        PostKeepsInvoices(db, SplitLegs(o, i, UserWallet(courier), UserWallet(customer), share, total - share));
      case Open =>
    }
    FitsStay(db, ApplyOutcome(cfg, db, o, i, courier, outcome, courierAmount).value.0,
             ResolveDispute(cfg, db, o, outcome, courierAmount, now).value);
  }

  lemma MarkPaidFits(db: Db, k: nat)
    requires Inv(db) && RowsFit(db) && k < |db.withdrawals| && MarkWithdrawalPaid(db, k).Ok?
    ensures RowsFit(MarkWithdrawalPaid(db, k).value)
  {
    hide Inv, PostGroup, PayoutLegs, RowsFit, LegsFit;
    var row := db.withdrawals[k];
    if row.status.Approved? {
      var legs := PayoutLegs(UserWallet(row.courier), row.amount, k);
      AmountPositive(db, k);
      PayoutFits(UserWallet(row.courier), row.amount, k, db.invoices, |db.ledger|);
      PostFits(db, legs);
      PostKeepsInvoices(db, legs);
      FitsStay(db, Post(db, legs).value.0, MarkWithdrawalPaid(db, k).value);
    }
  }

  lemma AmountPositive(db: Db, k: nat)
    requires Inv(db) && k < |db.withdrawals|
    ensures db.withdrawals[k].amount > 0
  {
    hide LedgerLaw, FlowLaw, EscrowFunded, EscrowOnce, IntentLaw, HoldLaw, KeyLaw, TopupOnce, PayoutOnce, PromoLaw,
         Overdrawn;
  }

  lemma CommitFits(db: Db, request: Request)
    requires request.cfg.Valid() && Inv(db) && WalletLaw(db) && DisputeLaw(db.orders, db.disputes) && RowsFit(db)
    ensures RowsFit(Commit(db, request))
  {
    hide Inv, WalletLaw, DisputeLaw, RowsFit, PayInvoice, Webhook, CompleteAndRelease, ResolveDispute,
         MarkWithdrawalPaid, FollowsTable, IssuesOnlyAssigned, SettlesWithWallet, RequestsUnique, NoLateCredit,
         OrdersEvolve, InvoicesEvolve, IntentsEvolve, WithdrawalsEvolve, DisputesEvolve, OrphansStayOpen;
    var cfg, now, db' := request.cfg, request.now, Commit(db, request);
    CommitEvolves(db, request);
    if Step(db, request).Ok? {
      if !MayMoveMoney(db, request.call) {
        StepIsQuiet(db, request);
        FitsStay(db, db, db');
      } else {
        match request.call {
          case CallPayInvoice(invoice, actor) => PayFits(db, invoice, actor, now);
          case CallWebhook(intent, paid, reported) => WebhookFits(db, intent, reported, now);
          case CallApproveOrder(order, actor) => CompletionFits(cfg, db, order, now);
          case CallAutoApprove(order) =>
            if order < |db.orders| && db.orders[order].status.Delivered? {
              CompletionFits(cfg, db, order, now);
            }
          case CallResolveDispute(order, outcome, courierAmount) =>
            Found(db, order, outcome, courierAmount, 0, cfg, now);
            ResolutionFits(cfg, db, order, outcome, courierAmount, now);
          case CallMarkWithdrawalPaid(withdrawal) =>
            Found(db, 0, Open, None, withdrawal, cfg, now); MarkPaidFits(db, withdrawal);
        }
      }
    }
  }

  /** In every reachable state every row of the ledger is of one of the kinds the system writes: each on the wallet,
      with the sign, the key and the references that kind has. */
  lemma {:induction false} EveryRowFits(requests: seq<Request>)
    requires AllValid(requests)
    ensures RowsFit(Run(Seeded(), requests))
  {
    hide Inv, WalletLaw, DisputeLaw, Commit, RowFits;
    if |requests| > 0 {
      var init := requests[..|requests| - 1];
      EveryRowFits(init);
      RunKeepsInv(init);
      RunKeepsDisputes(init);
      CommitFits(Run(Seeded(), init), requests[|requests| - 1]);
    }
  }
}
