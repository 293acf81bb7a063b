/** How orders and invoices may move together, and what each kind of move does to escrow. */
module FlowProofs {
  import opened Results
  import opened Sums
  import opened Tables
  import opened OrderState
  import opened Ledger
  import opened Market
  import opened Laws

  /** The active invoice of an order is the only one. */
  lemma ActiveIs(invoices: seq<Invoice>, i: nat)
    requires OneActivePerOrder(invoices) && i < |invoices| && IsActive(invoices[i].status)
    ensures ActiveInvoice(invoices, invoices[i].order) == Some(i)
  {
    var r := ActiveInvoice(invoices, invoices[i].order);
    assert r.Some?;
    assert r.value == i;
  }

  lemma NoOtherActive(invoices: seq<Invoice>, i: nat, k: nat)
    requires OneActivePerOrder(invoices) && i < |invoices| && k < |invoices| && i != k
    requires IsActive(invoices[i].status) && invoices[k].order == invoices[i].order
    ensures !IsActive(invoices[k].status)
  {
  }

  /** Orders whose invoices are untouched keep their active invoice. */
  lemma ActiveKept(invoices: seq<Invoice>, invoices': seq<Invoice>, o: nat)
    requires OneActivePerOrder(invoices) && OneActivePerOrder(invoices')
    requires |invoices| <= |invoices'|
    requires forall i :: 0 <= i < |invoices| && (invoices[i].order == o || invoices'[i].order == o)
               ==> invoices'[i].order == invoices[i].order
                   && IsActive(invoices'[i].status) == IsActive(invoices[i].status)
    requires forall i :: |invoices| <= i < |invoices'| ==> invoices'[i].order != o
    ensures ActiveInvoice(invoices', o) == ActiveInvoice(invoices, o)
  {
    var r, r' := ActiveInvoice(invoices, o), ActiveInvoice(invoices', o);
    if r.Some? {
      assert invoices'[r.value].order == o && IsActive(invoices'[r.value].status);
      ActiveIs(invoices', r.value);
    } else {
      assert forall i :: 0 <= i < |invoices'| && invoices'[i].order == o ==> !IsActive(invoices'[i].status);
    }
  }

  /** In WAITING_PAYMENT the active invoice is ISSUED, in or after escrow it is PAID, and before
      invoicing there is none. */
  lemma ActiveStatus(n: nat, orders: seq<Order>, invoices: seq<Invoice>, o: nat)
    requires FlowLaw(n, orders, invoices) && o < |orders|
    ensures var s, active := orders[o].status, ActiveInvoice(invoices, o);
            && (s.WaitingPayment? ==> active.Some? && invoices[active.value].status.Issued?)
            && (Phase(s) >= 1 ==> active.Some? && invoices[active.value].status.InvoicePaid?)
            && (s.New? || s.Assigned? ==> active.None?)
            && (s.Cancelled? && active.Some? ==> invoices[active.value].status.Issued?)
  {
    var active := ActiveInvoice(invoices, o);
    if active.Some? {
      assert InvoiceFits(invoices[active.value], orders[invoices[active.value].order].status);
    }
  }

  // ------------------------------------------------------------------ moves that leave escrow alone

  /** At most a status change inside one money phase: a new date, acceptance, cancellation, delivery, a dispute. */
  ghost predicate Sidestep(s: OrderStatus, t: OrderStatus) {
    (s == t || CanTransition(s, t)) && Phase(s) == Phase(t) && !t.WaitingPayment? && !(s.WaitingPayment? && t.Assigned?)
  }

  lemma SidestepKeepsFlow(n: nat, orders: seq<Order>, invoices: seq<Invoice>, o: nat, r: Order)
    requires FlowLaw(n, orders, invoices) && o < |orders|
    requires OrderWellFormed(r, n) && Sidestep(orders[o].status, r.status)
    ensures FlowLaw(n, orders[o := r], invoices)
    ensures EscrowDue(orders[o := r], invoices) == EscrowDue(orders, invoices)
  {
    hide ActiveInvoice, Sum;
    var orders' := orders[o := r];
    ActiveStatus(n, orders, invoices, o);
    assert EscrowTerms(orders', invoices) == EscrowTerms(orders, invoices);
    forall i | 0 <= i < |invoices| ensures InvoiceFits(invoices[i], orders'[invoices[i].order].status) {
      assert InvoiceFits(invoices[i], orders[invoices[i].order].status);
      if invoices[i].order == o && IsActive(invoices[i].status) {
        ActiveIs(invoices, i);
      }
    }
  }

  lemma SidestepKeepsHistory(es: seq<Entry>, orders: seq<Order>, invoices: seq<Invoice>, o: nat, r: Order)
    requires EscrowOnce(es, orders, invoices) && o < |orders| && Phase(r.status) == Phase(orders[o].status)
    ensures EscrowOnce(es, orders[o := r], invoices)
  {
    hide ActiveInvoice, Trail;
  }

  lemma NewOrderKeepsFlow(n: nat, orders: seq<Order>, invoices: seq<Invoice>, r: Order)
    requires FlowLaw(n, orders, invoices) && OrderWellFormed(r, n) && r.status.New?
    ensures FlowLaw(n, orders + [r], invoices)
    ensures EscrowDue(orders + [r], invoices) == EscrowDue(orders, invoices)
  {
    hide ActiveInvoice, Sum;
    var orders' := orders + [r];
    assert EscrowTerms(orders', invoices) == EscrowTerms(orders, invoices);
    forall i | 0 <= i < |invoices| ensures InvoiceFits(invoices[i], orders'[invoices[i].order].status) {
      assert InvoiceFits(invoices[i], orders[invoices[i].order].status);
    }
  }

  lemma NewOrderKeepsHistory(es: seq<Entry>, orders: seq<Order>, invoices: seq<Invoice>, r: Order)
    requires EscrowOnce(es, orders, invoices) && r.status.New?
    ensures EscrowOnce(es, orders + [r], invoices)
  {
    hide ActiveInvoice, Trail;
  }

  lemma MoreWalletsKeepFlow(n: nat, n': nat, orders: seq<Order>, invoices: seq<Invoice>)
    requires FlowLaw(n, orders, invoices) && n <= n'
    ensures FlowLaw(n', orders, invoices)
  {
  }

  /** Issuing an invoice on an ASSIGNED order. */
  ghost predicate Issues(n: nat, orders: seq<Order>, invoices: seq<Invoice>, r: Order, inv: Invoice) {
    && inv.order < |orders| && InvoiceWellFormed(inv, |orders|) && inv.status.Issued?
    && orders[inv.order].status.Assigned? && r.status.WaitingPayment? && OrderWellFormed(r, n)
  }

  lemma IssueKeepsFlow(n: nat, orders: seq<Order>, invoices: seq<Invoice>, r: Order, inv: Invoice)
    requires FlowLaw(n, orders, invoices) && Issues(n, orders, invoices, r, inv)
    ensures FlowLaw(n, orders[inv.order := r], invoices + [inv])
  {
    hide ActiveInvoice;
    var o, orders', invoices' := inv.order, orders[inv.order := r], invoices + [inv];
    ActiveStatus(n, orders, invoices, o);
    forall i | 0 <= i < |invoices'| ensures InvoiceFits(invoices'[i], orders'[invoices'[i].order].status) {
      if i < |invoices| {
        assert InvoiceFits(invoices[i], orders[invoices[i].order].status);
      }
    }
    forall p | 0 <= p < |orders'| && NeedsInvoice(orders'[p].status) ensures ActiveInvoice(invoices', p).Some? {
      var k := if p == o then |invoices| else ActiveInvoice(invoices, p).value;
      assert invoices'[k].order == p && IsActive(invoices'[k].status);
    }
  }

  lemma IssueKeepsEscrow(n: nat, orders: seq<Order>, invoices: seq<Invoice>, r: Order, inv: Invoice)
    requires FlowLaw(n, orders, invoices) && Issues(n, orders, invoices, r, inv)
    ensures EscrowDue(orders[inv.order := r], invoices + [inv]) == EscrowDue(orders, invoices)
  {
    hide ActiveInvoice, Sum;
    var o, orders', invoices' := inv.order, orders[inv.order := r], invoices + [inv];
    forall i | 0 <= i < |invoices| ensures EscrowTerm(orders', invoices[i]) == EscrowTerm(orders, invoices[i]) {
      assert InvoiceFits(invoices[i], orders[invoices[i].order].status);
    }
    assert EscrowTerms(orders', invoices') == EscrowTerms(orders, invoices) + [0];
    SumAppend(EscrowTerms(orders, invoices), 0);
  }

  lemma IssueKeepsHistory(n: nat, es: seq<Entry>, orders: seq<Order>, invoices: seq<Invoice>, r: Order, inv: Invoice)
    requires FlowLaw(n, orders, invoices) && EscrowOnce(es, orders, invoices) && Issues(n, orders, invoices, r, inv)
    requires OneActivePerOrder(invoices + [inv])
    ensures EscrowOnce(es, orders[inv.order := r], invoices + [inv])
  {
    hide ActiveInvoice, Trail;
    var orders', invoices' := orders[inv.order := r], invoices + [inv];
    forall p: nat ensures Trail(es, EscrowOf(p))
        == if p < |orders'| then EscrowHistory(orders'[p].status, ActiveTotal(invoices', p)) else []
    {
      if p < |orders| && p != inv.order {
        ActiveKept(invoices, invoices', p);
      }
    }
  }

  /** An ISSUED invoice is cancelled or expired. Its order goes back to ASSIGNED if it was waiting. */
  ghost predicate Retired(inv: Invoice, inv': Invoice) {
    inv.status.Issued? && inv' == inv.(status := inv'.status)
        && (inv'.status.InvoiceCancelled? || inv'.status.InvoiceExpired?)
  }

  ghost predicate Reopened(o: Order, o': Order) {
    if o.status.WaitingPayment? then o' == o.(status := Assigned, total := 0) else o' == o
  }

  lemma RetireKeepsFlow(n: nat, orders: seq<Order>, invoices: seq<Invoice>, i: nat, inv': Invoice, r: Order)
    requires FlowLaw(n, orders, invoices) && i < |invoices|
    requires Retired(invoices[i], inv') && Reopened(orders[invoices[i].order], r)
    ensures FlowLaw(n, orders[invoices[i].order := r], invoices[i := inv'])
    ensures EscrowDue(orders[invoices[i].order := r], invoices[i := inv']) == EscrowDue(orders, invoices)
  {
    hide ActiveInvoice, Sum;
    var o := invoices[i].order;
    var orders', invoices' := orders[o := r], invoices[i := inv'];
    assert InvoiceWellFormed(invoices[i], |orders|) && InvoiceFits(invoices[i], orders[o].status);
    assert OrderWellFormed(orders[o], n);
    assert EscrowTerms(orders', invoices') == EscrowTerms(orders, invoices);
    forall k | 0 <= k < |invoices'| ensures InvoiceFits(invoices'[k], orders'[invoices'[k].order].status) {
      assert InvoiceFits(invoices[k], orders[invoices[k].order].status);
      if k != i && invoices[k].order == o {
        NoOtherActive(invoices, i, k);
      }
    }
    assert OneActivePerOrder(invoices');
    forall p | 0 <= p < |orders'| && NeedsInvoice(orders'[p].status) ensures ActiveInvoice(invoices', p).Some? {
      var k := ActiveInvoice(invoices, p).value;
      assert invoices'[k] == invoices[k];
    }
  }

  lemma RetireKeepsHistory(n: nat, es: seq<Entry>, orders: seq<Order>, invoices: seq<Invoice>, i: nat, inv': Invoice,
      r: Order)
    requires FlowLaw(n, orders, invoices) && EscrowOnce(es, orders, invoices) && i < |invoices|
    requires Retired(invoices[i], inv') && Reopened(orders[invoices[i].order], r)
    requires OneActivePerOrder(invoices[i := inv'])
    ensures EscrowOnce(es, orders[invoices[i].order := r], invoices[i := inv'])
  {
    hide ActiveInvoice, Trail;
    var o := invoices[i].order;
    var orders', invoices' := orders[o := r], invoices[i := inv'];
    assert InvoiceFits(invoices[i], orders[o].status);
    forall p: nat ensures Trail(es, EscrowOf(p))
        == if p < |orders'| then EscrowHistory(orders'[p].status, ActiveTotal(invoices', p)) else []
    {
      if p < |orders| && p != o {
        ActiveKept(invoices, invoices', p);
      }
    }
  }

  /** The payment fields of an invoice change, nothing else does. */
  ghost predicate Repriced(inv: Invoice, inv': Invoice) {
    inv' == inv.(fromWallet := inv'.fromWallet, fromGateway := inv'.fromGateway, paymentMethod := inv'.paymentMethod)
  }

  lemma RepriceKeepsFlow(n: nat, orders: seq<Order>, invoices: seq<Invoice>, i: nat, inv': Invoice)
    requires FlowLaw(n, orders, invoices) && i < |invoices| && Repriced(invoices[i], inv')
    ensures FlowLaw(n, orders, invoices[i := inv'])
    ensures EscrowDue(orders, invoices[i := inv']) == EscrowDue(orders, invoices)
  {
    hide ActiveInvoice, Sum;
    var invoices' := invoices[i := inv'];
    assert EscrowTerms(orders, invoices') == EscrowTerms(orders, invoices);
    assert InvoiceFits(invoices[i], orders[invoices[i].order].status) && InvoiceWellFormed(invoices[i], |orders|);
    assert OneActivePerOrder(invoices');
    forall p | 0 <= p < |orders| && NeedsInvoice(orders[p].status) ensures ActiveInvoice(invoices', p).Some? {
      var k := ActiveInvoice(invoices, p).value;
      assert invoices'[k].order == invoices[k].order && invoices'[k].status == invoices[k].status;
    }
  }

  lemma RepriceKeepsHistory(es: seq<Entry>, orders: seq<Order>, invoices: seq<Invoice>, i: nat, inv': Invoice)
    requires OneActivePerOrder(invoices) && EscrowOnce(es, orders, invoices) && i < |invoices|
        && Repriced(invoices[i], inv')
    requires OneActivePerOrder(invoices[i := inv'])
    ensures EscrowOnce(es, orders, invoices[i := inv'])
  {
    hide ActiveInvoice, Trail;
    var invoices' := invoices[i := inv'];
    forall p: nat ensures ActiveTotal(invoices', p) == ActiveTotal(invoices, p) {
      ActiveKept(invoices, invoices', p);
    }
  }

  // ------------------------------------------------------------------ into escrow and out of it

  /** Only an ISSUED invoice of a waiting order passes the unique index when it is marked PAID. */
  lemma OnlyIssuedSettles(n: nat, orders: seq<Order>, invoices: seq<Invoice>, i: nat, inv': Invoice)
    requires FlowLaw(n, orders, invoices) && i < |invoices| && !invoices[i].status.InvoicePaid?
    requires inv'.order == invoices[i].order && inv'.status.InvoicePaid?
    requires orders[invoices[i].order].status.WaitingPayment?
    ensures OneActivePerOrder(invoices[i := inv']) <==> invoices[i].status.Issued?
  {
    var o, invoices' := invoices[i].order, invoices[i := inv'];
    ActiveStatus(n, orders, invoices, o);
    var k := ActiveInvoice(invoices, o).value;
    if invoices[i].status.Issued? {
      ActiveIs(invoices, i);
      forall a, b | 0 <= a < b < |invoices'| && invoices'[a].order == invoices'[b].order
        ensures !IsActive(invoices'[a].status) || !IsActive(invoices'[b].status)
      {
        if a == i || b == i {
          NoOtherActive(invoices, i, a + b - i);
        }
      }
    } else {
      assert k != i;
      assert invoices'[k] == invoices[k] && IsActive(invoices'[k].status) && IsActive(invoices'[i].status);
    }
  }

  lemma SettleKeepsFlow(n: nat, orders: seq<Order>, invoices: seq<Invoice>, i: nat, inv': Invoice, r: Order)
    requires FlowLaw(n, orders, invoices) && i < |invoices| && invoices[i].status.Issued?
    requires inv' == invoices[i].(status := InvoicePaid, paymentMethod := inv'.paymentMethod,
                                  fromWallet := inv'.fromWallet, fromGateway := inv'.fromGateway)
    requires orders[invoices[i].order].status.WaitingPayment? && r == orders[invoices[i].order].(status := InProgress)
    ensures FlowLaw(n, orders[invoices[i].order := r], invoices[i := inv'])
    ensures EscrowDue(orders[invoices[i].order := r], invoices[i := inv'])
        == EscrowDue(orders, invoices) + invoices[i].total
  {
    hide ActiveInvoice, Sum;
    var o := invoices[i].order;
    var orders', invoices' := orders[o := r], invoices[i := inv'];
    OnlyIssuedSettles(n, orders, invoices, i, inv');
    assert InvoiceWellFormed(invoices[i], |orders|) && OrderWellFormed(orders[o], n);
    forall k | 0 <= k < |invoices'|
      ensures InvoiceFits(invoices'[k], orders'[invoices'[k].order].status)
      ensures k != i ==> EscrowTerm(orders', invoices'[k]) == EscrowTerm(orders, invoices[k])
    {
      assert InvoiceFits(invoices[k], orders[invoices[k].order].status);
      if k != i && invoices[k].order == o {
        NoOtherActive(invoices, i, k);
      }
    }
    assert EscrowTerms(orders', invoices') == EscrowTerms(orders, invoices)[i := inv'.total];
    SumUpdate(EscrowTerms(orders, invoices), i, inv'.total);
    forall p | 0 <= p < |orders'| && NeedsInvoice(orders'[p].status) ensures ActiveInvoice(invoices', p).Some? {
      var k := ActiveInvoice(invoices, p).value;
      assert invoices'[k].order == invoices[k].order && IsActive(invoices'[k].status);
    }
  }

  lemma SettleExtendsHistory(n: nat, es: seq<Entry>, es': seq<Entry>, orders: seq<Order>, invoices: seq<Invoice>,
                             i: nat, inv': Invoice, r: Order)
    requires FlowLaw(n, orders, invoices) && EscrowOnce(es, orders, invoices) && i < |invoices|
    requires invoices[i].status.Issued? && inv'.status.InvoicePaid?
    requires inv'.order == invoices[i].order && inv'.total == invoices[i].total
    requires orders[invoices[i].order].status.WaitingPayment? && r.status.InProgress?
    requires OneActivePerOrder(invoices[i := inv'])
    requires forall p: nat :: Trail(es', EscrowOf(p))
               == Trail(es, EscrowOf(p)) + (if p == invoices[i].order then [invoices[i].total] else [])
    ensures EscrowOnce(es', orders[invoices[i].order := r], invoices[i := inv'])
  {
    hide ActiveInvoice, Trail;
    var o := invoices[i].order;
    var orders', invoices' := orders[o := r], invoices[i := inv'];
    ActiveIs(invoices', i);
    forall p: nat ensures Trail(es', EscrowOf(p))
        == if p < |orders'| then EscrowHistory(orders'[p].status, ActiveTotal(invoices', p)) else []
    {
      if p < |orders| && p != o {
        ActiveKept(invoices, invoices', p);
      }
    }
  }

  lemma FinishKeepsFlow(n: nat, orders: seq<Order>, invoices: seq<Invoice>, i: nat, r: Order)
    requires FlowLaw(n, orders, invoices) && i < |invoices| && invoices[i].status.InvoicePaid?
    requires Phase(orders[invoices[i].order].status) == 1 && Phase(r.status) == 2 && OrderWellFormed(r, n)
    ensures FlowLaw(n, orders[invoices[i].order := r], invoices)
    ensures EscrowDue(orders[invoices[i].order := r], invoices) == EscrowDue(orders, invoices) - invoices[i].total
  {
    hide ActiveInvoice, Sum;
    var o := invoices[i].order;
    var orders' := orders[o := r];
    ActiveIs(invoices, i);
    forall k | 0 <= k < |invoices|
      ensures InvoiceFits(invoices[k], orders'[invoices[k].order].status)
      ensures k != i ==> EscrowTerm(orders', invoices[k]) == EscrowTerm(orders, invoices[k])
    {
      assert InvoiceFits(invoices[k], orders[invoices[k].order].status);
      if k != i && invoices[k].order == o {
        NoOtherActive(invoices, i, k);
      }
    }
    assert EscrowTerms(orders', invoices) == EscrowTerms(orders, invoices)[i := 0];
    SumUpdate(EscrowTerms(orders, invoices), i, 0);
  }

  lemma FinishExtendsHistory(es: seq<Entry>, es': seq<Entry>, orders: seq<Order>, invoices: seq<Invoice>, i: nat,
      r: Order)
    requires OneActivePerOrder(invoices) && EscrowOnce(es, orders, invoices) && i < |invoices|
        && invoices[i].order < |orders|
    requires invoices[i].status.InvoicePaid?
    requires Phase(orders[invoices[i].order].status) == 1 && Phase(r.status) == 2
    requires forall p: nat :: Trail(es', EscrowOf(p))
               == Trail(es, EscrowOf(p)) + (if p == invoices[i].order then [-invoices[i].total] else [])
    ensures EscrowOnce(es', orders[invoices[i].order := r], invoices)
  {
    hide ActiveInvoice, Trail;
    ActiveIs(invoices, i);
  }

  /** Escrow always covers any one order it still owes. */
  lemma EscrowCoversOrder(n: nat, orders: seq<Order>, invoices: seq<Invoice>, i: nat)
    requires FlowLaw(n, orders, invoices) && i < |invoices| && invoices[i].status.InvoicePaid?
    requires Funded(orders[invoices[i].order].status)
    ensures invoices[i].total <= EscrowDue(orders, invoices)
  {
    TermAtMostSum(EscrowTerms(orders, invoices), i);
  }

  lemma EscrowDueNonNegative(n: nat, orders: seq<Order>, invoices: seq<Invoice>)
    requires FlowLaw(n, orders, invoices)
    ensures EscrowDue(orders, invoices) >= 0
  {
    SumNonNegative(EscrowTerms(orders, invoices));
  }
}
