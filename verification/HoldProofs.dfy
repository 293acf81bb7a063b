/** How reservations move: what each kind of step does to the live holds of every user. */
module HoldProofs {
  import opened Results
  import opened Sums
  import opened Tables
  import opened Market
  import opened Laws

  /** What the open intent of an invoice holds in a user's wallet. */
  function OpenHold(intents: seq<Intent>, invoices: seq<Invoice>, invoice: nat, user: nat): int {
    var open := OpenIntent(intents, invoice);
    if open.Some? then IntentHold(intents[open.value], invoices, user) else 0
  }

  /** The open intent of an invoice is the only one. */
  lemma OpenIs(intents: seq<Intent>, j: nat, invoice: nat)
    requires OneOpenPerInvoice(intents) && j < |intents| && IsOpenFor(intents[j], invoice)
    ensures OpenIntent(intents, invoice) == Some(j)
  {
    hide OpenIntent;
    var r := OpenIntent(intents, invoice);
    assert r.Some?;
    assert intents[r.value].purpose == intents[j].purpose;
  }

  lemma HoldNonNegative(n: nat, intents: seq<Intent>, invoices: seq<Invoice>, user: nat)
    requires IntentLaw(n, intents, invoices)
    ensures forall j :: 0 <= j < |intents| ==> 0 <= IntentHold(intents[j], invoices, user)
  {
    forall j | 0 <= j < |intents| ensures 0 <= IntentHold(intents[j], invoices, user) {
      assert PortionsAddUp(intents[j], invoices);
    }
  }

  lemma OpenHoldBounds(n: nat, intents: seq<Intent>, invoices: seq<Invoice>, withdrawals: seq<Withdrawal>, i: nat,
      user: nat)
    requires IntentLaw(n, intents, invoices) && WithdrawalLaw(n, withdrawals)
    ensures 0 <= OpenHold(intents, invoices, i, user) <= LiveHolds(intents, invoices, withdrawals, user)
  {
    hide OpenIntent, Sum;
    HoldNonNegative(n, intents, invoices, user);
    var open := OpenIntent(intents, i);
    SumNonNegative(WithdrawalHolds(withdrawals, user));
    SumNonNegative(IntentHolds(intents, invoices, user));
    if open.Some? {
      TermAtMostSum(IntentHolds(intents, invoices, user), open.value);
    }
  }

  lemma LiveHoldsNonNegative(n: nat, intents: seq<Intent>, invoices: seq<Invoice>, withdrawals: seq<Withdrawal>,
      user: nat)
    requires IntentLaw(n, intents, invoices) && WithdrawalLaw(n, withdrawals)
    ensures 0 <= LiveHolds(intents, invoices, withdrawals, user)
  {
    hide OpenIntent, Sum;
    OpenHoldBounds(n, intents, invoices, withdrawals, 0, user);
  }

  // ------------------------------------------------------------------ an invoice stops being ISSUED

  /** Intents are as they were, except that the open intent of the invoice may have been closed. */
  ghost predicate ClosedAtMost(intents: seq<Intent>, intents': seq<Intent>, invoice: nat) {
    && |intents'| == |intents|
    && forall j :: 0 <= j < |intents| ==>
         intents'[j] == intents[j]
         || (IsOpenFor(intents[j], invoice) && intents'[j] == intents[j].(status := intents'[j].status)
             && !intents'[j].status.IntentNew?)
  }

  /** Whatever its open intent held is live no longer. */
  lemma LeavingIssuedDropsHold(n: nat, intents: seq<Intent>, intents': seq<Intent>, invoices: seq<Invoice>,
                               i: nat, inv': Invoice, user: nat)
    requires IntentLaw(n, intents, invoices) && i < |invoices|
    requires !inv'.status.Issued? && ClosedAtMost(intents, intents', i)
    ensures Sum(IntentHolds(intents', invoices[i := inv'], user))
         == Sum(IntentHolds(intents, invoices, user)) - OpenHold(intents, invoices, i, user)
  {
    hide OpenIntent, Sum;
    var invoices', open := invoices[i := inv'], OpenIntent(intents, i);
    var before, after := IntentHolds(intents, invoices, user), IntentHolds(intents', invoices', user);
    forall j | 0 <= j < |intents| && (open.None? || j != open.value) ensures after[j] == before[j] {
      if IsOpenFor(intents[j], i) {
        OpenIs(intents, j, i);
      }
    }
    if open.None? {
      assert after == before;
    } else {
      assert after == before[open.value := 0];
      SumUpdate(before, open.value, 0);
    }
  }

  lemma LeavingIssuedKeepsIntents(n: nat, intents: seq<Intent>, intents': seq<Intent>, invoices: seq<Invoice>, i: nat,
      inv': Invoice)
    requires IntentLaw(n, intents, invoices) && i < |invoices|
    requires !inv'.status.Issued? && ClosedAtMost(intents, intents', i)
    ensures IntentLaw(n, intents', invoices[i := inv'])
  {
    var invoices' := invoices[i := inv'];
    forall j | 0 <= j < |intents'|
      ensures PortionsAddUp(intents'[j], invoices') && IntentWellFormed(intents'[j], n, |invoices'|)
    {
      assert PortionsAddUp(intents[j], invoices) && IntentWellFormed(intents[j], n, |invoices|);
    }
  }

  // ------------------------------------------------------------------ a new invoice, a new intent, a closed intent

  lemma IssueKeepsHolds(n: nat, intents: seq<Intent>, invoices: seq<Invoice>, inv: Invoice)
    requires IntentLaw(n, intents, invoices)
    ensures IntentLaw(n, intents, invoices + [inv])
    ensures forall u: nat :: IntentHolds(intents, invoices + [inv], u) == IntentHolds(intents, invoices, u)
  {
    var invoices' := invoices + [inv];
    forall j | 0 <= j < |intents|
      ensures PortionsAddUp(intents[j], invoices') && IntentWellFormed(intents[j], n, |invoices'|)
      ensures forall u: nat :: IntentHold(intents[j], invoices', u) == IntentHold(intents[j], invoices, u)
    {
      assert PortionsAddUp(intents[j], invoices) && IntentWellFormed(intents[j], n, |invoices|);
    }
    forall u: nat ensures IntentHolds(intents, invoices', u) == IntentHolds(intents, invoices, u) {
    }
  }

  /** A pending payment: the invoice takes its two portions and an intent opens for the gateway one. */
  lemma PendingKeepsIntents(n: nat, intents: seq<Intent>, invoices: seq<Invoice>, i: nat, inv': Invoice, it: Intent)
    requires IntentLaw(n, intents, invoices) && i < |invoices| && OpenIntent(intents, i).None?
    requires IntentWellFormed(it, n, |invoices|) && it.purpose == OrderInvoice(i)
    requires inv'.fromWallet >= 0 && inv'.fromWallet + it.amount == inv'.total
    ensures IntentLaw(n, intents + [it], invoices[i := inv'])
  {
    hide OpenIntent;
    var intents', invoices' := intents + [it], invoices[i := inv'];
    forall j | 0 <= j < |intents'|
      ensures PortionsAddUp(intents'[j], invoices') && IntentWellFormed(intents'[j], n, |invoices'|)
    {
      if j < |intents| {
        assert PortionsAddUp(intents[j], invoices) && IntentWellFormed(intents[j], n, |invoices|);
        assert !IsOpenFor(intents[j], i);
      }
    }
    forall j, k | 0 <= j < k < |intents'| && intents'[j].purpose.OrderInvoice?
        && intents'[j].purpose == intents'[k].purpose
      ensures !intents'[j].status.IntentNew? || !intents'[k].status.IntentNew?
    {
      if k == |intents| {
        assert !IsOpenFor(intents[j], i);
      }
    }
  }

  lemma PendingHolds(intents: seq<Intent>, invoices: seq<Invoice>, i: nat, inv': Invoice, it: Intent, user: nat)
    requires i < |invoices| && OpenIntent(intents, i).None? && inv'.status.Issued?
    requires it.purpose == OrderInvoice(i) && it.status.IntentNew?
    ensures Sum(IntentHolds(intents + [it], invoices[i := inv'], user))
         == Sum(IntentHolds(intents, invoices, user)) + (if user == it.user then inv'.fromWallet else 0)
  {
    hide OpenIntent, Sum;
    var invoices', added := invoices[i := inv'], if user == it.user then inv'.fromWallet else 0;
    forall j | 0 <= j < |intents| ensures IntentHold(intents[j], invoices', user)
        == IntentHold(intents[j], invoices, user) {
      assert !IsOpenFor(intents[j], i);
    }
    assert IntentHolds(intents + [it], invoices', user) == IntentHolds(intents, invoices, user) + [added];
    SumAppend(IntentHolds(intents, invoices, user), added);
  }

  /** Closing an intent on its own: a failed webhook, an expired or settled top-up. */
  lemma CloseKeepsIntents(n: nat, intents: seq<Intent>, invoices: seq<Invoice>, j: nat, status: IntentStatus)
    requires IntentLaw(n, intents, invoices) && j < |intents| && !status.IntentNew?
    ensures IntentLaw(n, intents[j := intents[j].(status := status)], invoices)
  {
    var intents' := intents[j := intents[j].(status := status)];
    forall k | 0 <= k < |intents'|
      ensures PortionsAddUp(intents'[k], invoices) && IntentWellFormed(intents'[k], n, |invoices|)
    {
      assert PortionsAddUp(intents[k], invoices) && IntentWellFormed(intents[k], n, |invoices|);
    }
  }

  lemma CloseDropsHold(intents: seq<Intent>, invoices: seq<Invoice>, j: nat, status: IntentStatus, user: nat)
    requires j < |intents| && !status.IntentNew?
    ensures Sum(IntentHolds(intents[j := intents[j].(status := status)], invoices, user))
         == Sum(IntentHolds(intents, invoices, user)) - IntentHold(intents[j], invoices, user)
  {
    hide Sum;
    var before := IntentHolds(intents, invoices, user);
    assert IntentHolds(intents[j := intents[j].(status := status)], invoices, user) == before[j := 0];
    SumUpdate(before, j, 0);
  }

  lemma NewTopupKeepsIntents(n: nat, intents: seq<Intent>, invoices: seq<Invoice>, it: Intent)
    requires IntentLaw(n, intents, invoices) && IntentWellFormed(it, n, |invoices|) && it.purpose.WalletTopup?
    ensures IntentLaw(n, intents + [it], invoices)
    ensures forall u: nat :: Sum(IntentHolds(intents + [it], invoices, u)) == Sum(IntentHolds(intents, invoices, u))
  {
    hide Sum;
    forall j | 0 <= j < |intents + [it]|
      ensures PortionsAddUp((intents + [it])[j], invoices) && IntentWellFormed((intents + [it])[j], n, |invoices|)
    {
      if j < |intents| {
        assert PortionsAddUp(intents[j], invoices) && IntentWellFormed(intents[j], n, |invoices|);
      }
    }
    forall u: nat ensures Sum(IntentHolds(intents + [it], invoices, u)) == Sum(IntentHolds(intents, invoices, u)) {
      assert IntentHolds(intents + [it], invoices, u) == IntentHolds(intents, invoices, u) + [0];
      SumAppend(IntentHolds(intents, invoices, u), 0);
    }
  }

  // ------------------------------------------------------------------ withdrawals

  lemma NewWithdrawalHolds(withdrawals: seq<Withdrawal>, wd: Withdrawal, user: nat)
    requires wd.status.Requested?
    ensures Sum(WithdrawalHolds(withdrawals + [wd], user))
         == Sum(WithdrawalHolds(withdrawals, user)) + (if user == wd.courier then wd.amount else 0)
  {
    hide Sum;
    var added := if user == wd.courier then wd.amount else 0;
    assert WithdrawalHolds(withdrawals + [wd], user) == WithdrawalHolds(withdrawals, user) + [added];
    SumAppend(WithdrawalHolds(withdrawals, user), added);
  }

  lemma WithdrawalMoves(withdrawals: seq<Withdrawal>, k: nat, status: WithdrawalStatus, user: nat)
    requires k < |withdrawals|
    ensures var row := withdrawals[k].(status := status);
            Sum(WithdrawalHolds(withdrawals[k := row], user))
            == Sum(WithdrawalHolds(withdrawals, user)) - WithdrawalHold(withdrawals[k], user)
                + WithdrawalHold(row, user)
  {
    hide Sum;
    var row, before := withdrawals[k].(status := status), WithdrawalHolds(withdrawals, user);
    assert WithdrawalHolds(withdrawals[k := row], user) == before[k := WithdrawalHold(row, user)];
    SumUpdate(before, k, WithdrawalHold(row, user));
  }

  /** A pending withdrawal's amount is held. */
  lemma WithdrawalIsHeld(n: nat, wallets: seq<Wallet>, intents: seq<Intent>, invoices: seq<Invoice>,
                         withdrawals: seq<Withdrawal>, k: nat)
    requires IntentLaw(n, intents, invoices) && WithdrawalLaw(n, withdrawals)
    requires HoldLaw(wallets, intents, invoices, withdrawals) && n == |wallets| && k < |withdrawals|
    requires withdrawals[k].status.Requested? || withdrawals[k].status.Approved?
    ensures withdrawals[k].amount <= wallets[UserWallet(withdrawals[k].courier)].held
  {
    hide Sum;
    var u := withdrawals[k].courier;
    HoldNonNegative(n, intents, invoices, u);
    SumNonNegative(IntentHolds(intents, invoices, u));
    TermAtMostSum(WithdrawalHolds(withdrawals, u), k);
  }
}
