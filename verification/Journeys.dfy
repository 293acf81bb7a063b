/** From the courier's request for an invoice to the money that pays it out. */
module Journeys {
  import opened Results
  import opened Tables
  import opened OrderState
  import opened Ledger
  import opened Market
  import opened Laws
  import opened Movements
  import opened SettlementProofs
  import opened Evolution
  import opened Issuing
  import opened Outcomes
  import opened Theorems
  import opened SystemWallets
  import opened Exits
  import Pricing
  import PricingTheorems

  /** What the engine prices a request for an invoice at, in the state it is made in. */
  ghost function PriceOf(db: Db, request: Request): Pricing.Priced
    requires request.call.CallCreateInvoice?
  {
    var call := request.call;
    var d := DiscountGiven(db, call.lines, call.fee, call.promoCode);
    PriceGiven(request.cfg, call.lines, call.fee, if d.Ok? then d.value else 0)
  }

  /** The invoice charges this price. */
  ghost predicate Charges(inv: Invoice, order: nat, p: Pricing.Priced) {
    && inv.order == order && inv.itemsNet == p.itemsNet && inv.courierFee == p.courierFee
    && inv.serviceFee == p.serviceFee && inv.discount == p.discount && inv.tax == p.tax && inv.total == p.total
  }

  lemma IssueCharges(db: Db, request: Request)
    requires Inv(db) && request.call.CallCreateInvoice? && Step(db, request).Ok?
    ensures var db', i := Step(db, request).value, |db.invoices|;
            i < |db'.invoices| && Charges(db'.invoices[i], request.call.order, PriceOf(db, request))
  {
    hide Inv, CreateInvoice, PriceGiven, DiscountGiven, LinesTotal, PromoUsable;
    var call := request.call;
    IssueOutcome(request.cfg, db, call.order, call.actor, call.lines, call.fee, call.promoCode, request.now);
  }

  /** Every invoice charges its request's price for good. */
  lemma {:induction false} PriceIsKept(requests: seq<Request>, k: nat)
    requires AllValid(requests) && k < |requests| && requests[k].call.CallCreateInvoice?
    requires Step(Run(Seeded(), requests[..k]), requests[k]).Ok?
    ensures var early, late := Run(Seeded(), requests[..k]), Run(Seeded(), requests);
            var i := |early.invoices|;
            i < |late.invoices| && Charges(late.invoices[i], requests[k].call.order, PriceOf(early, requests[k]))
  {
    hide Inv, Step, PriceOf, NoLateCredit, OrdersEvolve, IntentsEvolve, WithdrawalsEvolve, DisputesEvolve,
         OrphansStayOpen, WalletLaw;
    var early, late := Run(Seeded(), requests[..k]), Run(Seeded(), requests);
    RunKeepsInv(requests[..k]);
    IssueCharges(early, requests[k]);
    assert requests[..k + 1][..k] == requests[..k];
    RunEvolves(requests, k + 1);
    var i := |early.invoices|;
    assert InvoiceEvolves(Run(Seeded(), requests[..k + 1]).invoices[i], late.invoices[i]);
  }

  /** What the step that releases an order's escrow moves, in terms of the invoice and the row it leaves. */
  lemma ReleaseMoves(db: Db, request: Request, o: nat, i: nat)
    requires request.cfg.Valid() && Sound(db) && IsFunded(db, o) && PaidInvoice(db, o) == Ok(i)
    requires IsReleased(Commit(db, request), o)
    ensures var db', inv := Commit(db, request), db.invoices[i];
            && o < |db'.orders| && db'.orders[o].courier.Some?
            && CompletedRow(request.cfg, inv, db.orders[o], db'.orders[o])
            && Moves(db, db', ReleaseOf(inv, db'.orders[o]))
            && UserWallet(db'.orders[o].courier.value) < |db.wallets|
  {
    hide Inv, WalletLaw, DisputeLaw, CompleteAndRelease, ResolveDispute, Moves, PaidInvoice, Vanishes, InWindow,
         OutcomeMovement, Resolvable;
    var cfg, now := request.cfg, request.now;
    if Step(db, request).Ok? {
      if !SettlesOrder(request.call, o) {
        OthersSettleNothing(db, request, o);
      } else {
        CompletionOutcome(cfg, db, o, now);
        if request.call.CallResolveDispute? {
          ResolveDisputeOutcome(cfg, db, o, request.call.outcome, request.call.courierAmount, now);
          ReleasedMeansCourier(db, Step(db, request).value, o, request.call.outcome);
        }
      }
    }
    PartiesExist(db, o);
  }

  /** A resolution that releases is one for the courier. */
  lemma ReleasedMeansCourier(db: Db, db': Db, o: nat, outcome: DisputeStatus)
    requires IsReleased(db', o) && db'.disputes == db.disputes[o := outcome]
    requires db'.orders[o].status.Refunded? <==> outcome.ResolvedCustomer?
    requires !outcome.Open?
    ensures outcome.ResolvedCourier?
    ensures forall inv: Invoice, row: Order | row.courier.Some? ::
              OutcomeMovement(inv, row, outcome) == ReleaseOf(inv, row)
  {
  }

  /** From the request to the payout, whatever happens in between: the step that releases the order pays the tax wallet
      exactly the tax the engine computed for the request, the courier the items and courier fee it computed less the
      rounded commission, the platform its service fee and that commission less the discount, and takes the whole
      total out of escrow. */
  lemma {:induction false} RequestIsPaidOut(requests: seq<Request>, k: nat, m: nat)
    requires AllValid(requests) && k < m < |requests| && requests[k].call.CallCreateInvoice?
    requires Step(Run(Seeded(), requests[..k]), requests[k]).Ok?
    requires var o, i, at := requests[k].call.order, |Run(Seeded(), requests[..k]).invoices|,
                             Run(Seeded(), requests[..m]);
             IsFunded(at, o) && PaidInvoice(at, o) == Ok(i) && IsReleased(Commit(at, requests[m]), o)
    ensures var o, at := requests[k].call.order, Run(Seeded(), requests[..m]);
            var p, after := PriceOf(Run(Seeded(), requests[..k]), requests[k]), Commit(at, requests[m]);
            && o < |after.orders| && after.orders[o].courier.Some?
            && SYSTEM_WALLETS <= |at.wallets| == |after.wallets|
            && var row := after.orders[o];
               var base, courier := p.itemsNet + p.courierFee, UserWallet(row.courier.value);
               && courier < |at.wallets|
               && PricingTheorems.IsRatedPart(row.commission, base, requests[m].cfg.commissionRate)
               && row.payout == base - row.commission
               && after.wallets[TAX_PAYABLE].balance == at.wallets[TAX_PAYABLE].balance + p.tax
               && after.wallets[courier].balance == at.wallets[courier].balance + row.payout
               && after.wallets[REVENUE].balance
                  == at.wallets[REVENUE].balance + p.serviceFee + row.commission - p.discount
               && after.wallets[ESCROW].balance == at.wallets[ESCROW].balance - p.total
  {
    hide Inv, WalletLaw, DisputeLaw, Commit, Step, PriceOf, PaidInvoice, IsReleased, Run, PricingTheorems.IsRatedPart;
    var before, at := requests[..m], Run(Seeded(), requests[..m]);
    assert before[..k] == requests[..k] && before[k] == requests[k];
    PriceIsKept(before, k);
    RunKeepsInv(before);
    RunKeepsDisputes(before);
    ReleaseMoves(at, requests[m], requests[k].call.order, |Run(Seeded(), requests[..k]).invoices|);
    PriceAddsUp(Run(Seeded(), requests[..k]), requests[k]);
    EnoughWallets(at);
  }

  lemma PriceAddsUp(db: Db, request: Request)
    requires request.call.CallCreateInvoice?
    ensures var p := PriceOf(db, request); p.total == p.itemsNet + p.courierFee + p.serviceFee - p.discount + p.tax
  {
    hide PriceGiven, DiscountGiven;
    var call := request.call;
    var d := DiscountGiven(db, call.lines, call.fee, call.promoCode);
    PricedSums(request.cfg, call.lines, call.fee, if d.Ok? then d.value else 0);
  }

  lemma EnoughWallets(db: Db)
    requires Inv(db)
    ensures |db.wallets| >= SYSTEM_WALLETS
  {
    hide FlowLaw, EscrowFunded, EscrowOnce, IntentLaw, HoldLaw, KeyLaw, TopupOnce, PayoutOnce, PromoLaw, Overdrawn;
  }
}
