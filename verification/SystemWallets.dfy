/** What the platform's own wallets hold in every reachable state, from the records of the business alone. */
module SystemWallets {
  import opened Results
  import opened Sums
  import opened Tables
  import opened OrderState
  import opened Ledger
  import opened MoneyOps
  import opened Market
  import opened Laws
  import opened Movements
  import opened FlowProofs
  import opened HoldProofs
  import opened MoneyProofs
  import opened SettlementProofs
  import opened Evolution
  import opened Outcomes
  import opened Theorems
  import Money

  // ------------------------------------------------------------------ what each wallet should hold

  /** The order's escrow has been released to its courier: completed, and not by a split. */
  predicate IsReleased(db: Db, o: nat) {
    && o < |db.orders| && db.orders[o].status.Completed?
    && !(o in db.disputes && db.disputes[o].ResolvedSplit?)
  }

  function TaxTerm(db: Db, inv: Invoice): int {
    if inv.status.InvoicePaid? && IsReleased(db, inv.order) then inv.tax else 0
  }

  function RevenueTerm(db: Db, inv: Invoice): int {
    if inv.status.InvoicePaid? && IsReleased(db, inv.order)
    then inv.total - inv.tax - db.orders[inv.order].payout else 0
  }

  function GatewayTerm(inv: Invoice): int {
    if inv.status.InvoicePaid? then inv.fromGateway else 0
  }

  function PayoutTerm(wd: Withdrawal): int {
    if wd.status.WithdrawalPaid? then wd.amount else 0
  }

  /** The amount of a top-up that has been credited. Its status does not say so: the sweep relabels paid ones. */
  function CreditTerm(db: Db, j: nat): int
    requires j < |db.intents|
  {
    if Trail(Entries(db.ledger), TopupOf(j)) != [] then db.intents[j].amount else 0
  }

  function TaxTerms(db: Db): (r: seq<int>)
    ensures |r| == |db.invoices|
  {
    seq(|db.invoices|, i requires 0 <= i < |db.invoices| => TaxTerm(db, db.invoices[i]))
  }

  function RevenueTerms(db: Db): (r: seq<int>)
    ensures |r| == |db.invoices|
  {
    seq(|db.invoices|, i requires 0 <= i < |db.invoices| => RevenueTerm(db, db.invoices[i]))
  }

  function GatewayTerms(db: Db): (r: seq<int>)
    ensures |r| == |db.invoices|
  {
    seq(|db.invoices|, i requires 0 <= i < |db.invoices| => GatewayTerm(db.invoices[i]))
  }

  function PayoutTerms(db: Db): (r: seq<int>)
    ensures |r| == |db.withdrawals|
  {
    seq(|db.withdrawals|, k requires 0 <= k < |db.withdrawals| => PayoutTerm(db.withdrawals[k]))
  }

  function CreditTerms(db: Db): (r: seq<int>)
    ensures |r| == |db.intents|
  {
    seq(|db.intents|, j requires 0 <= j < |db.intents| => CreditTerm(db, j))
  }

  /** The tax wallet holds the taxes of the released orders; the revenue wallet what is left of their totals after
      tax and payout; the gateway wallet what was paid out, less the top-ups credited, less what payments brought in. */
  ghost predicate SystemLaw(db: Db) {
    && |db.wallets| >= SYSTEM_WALLETS
    && db.wallets[TAX_PAYABLE].balance == Sum(TaxTerms(db))
    && db.wallets[REVENUE].balance == Sum(RevenueTerms(db))
    && db.wallets[GATEWAY].balance == Sum(PayoutTerms(db)) - Sum(CreditTerms(db)) - Sum(GatewayTerms(db))
  }

  // ------------------------------------------------------------------ sums that stay

  /** The same terms, and further ones that are zero. */
  ghost predicate Alike(a: seq<int>, b: seq<int>) {
    |a| <= |b| && (forall i :: 0 <= i < |a| ==> b[i] == a[i]) && (forall i :: |a| <= i < |b| ==> b[i] == 0)
  }

  lemma {:induction false} AlikeSums(a: seq<int>, b: seq<int>)
    requires Alike(a, b)
    ensures Sum(a) == Sum(b)
  {
    assert b == a + b[|a|..];
    SumConcat(a, b[|a|..]);
    SumZero(b[|a|..]);
  }

  ghost predicate NoNewPaid(db: Db, db': Db) {
    forall i :: 0 <= i < |db'.invoices| && db'.invoices[i].status.InvoicePaid? ==>
      i < |db.invoices| && db.invoices[i].status.InvoicePaid?
  }

  ghost predicate NoNewCompleted(db: Db, db': Db) {
    forall o :: 0 <= o < |db'.orders| && db'.orders[o].status.Completed? ==>
      o < |db.orders| && db.orders[o].status.Completed?
  }

  ghost predicate NoNewReleased(db: Db, db': Db) {
    forall o :: 0 <= o < |db'.orders| && IsReleased(db', o) ==> IsReleased(db, o)
  }

  ghost predicate NoNewPayout(db: Db, db': Db) {
    forall k :: 0 <= k < |db'.withdrawals| && db'.withdrawals[k].status.WithdrawalPaid? ==>
      k < |db.withdrawals| && db.withdrawals[k].status.WithdrawalPaid?
  }

  ghost predicate NoNewCredit(db: Db, db': Db) {
    forall j :: 0 <= j < |db'.intents| && db'.intents[j].purpose.WalletTopup? && !db'.intents[j].status.IntentNew? ==>
      j < |db.intents| && !db.intents[j].status.IntentNew?
  }

  /** A dispute starts open. */
  ghost predicate DisputesStartOpen(db: Db, db': Db) {
    forall o :: o in db'.disputes && o !in db.disputes ==> db'.disputes[o].Open?
  }

  lemma ReleasedKept(db: Db, db': Db, o: nat)
    requires Evolves(db, db') && NoNewReleased(db, db') && DisputesStartOpen(db, db')
    ensures IsReleased(db', o) <==> IsReleased(db, o)
    ensures IsReleased(db, o) ==> db'.orders[o] == db.orders[o]
  {
    hide NoLateCredit, InvoicesEvolve, IntentsEvolve, WithdrawalsEvolve;
    if o < |db.orders| {
      assert OrderEvolves(db.orders[o], db'.orders[o]);
    }
  }

  /** Neither an ISSUED invoice nor a new one belongs to a released order. */
  lemma ReleasedIsFrozen(db: Db, db': Db, i: nat)
    requires Inv(db) && Evolves(db, db') && IssuesOnlyAssigned(db, db') && i < |db'.invoices|
    requires IsReleased(db, db'.invoices[i].order)
    ensures i < |db.invoices| && db'.invoices[i] == db.invoices[i]
  {
    hide LedgerLaw, EscrowFunded, EscrowOnce, IntentLaw, HoldLaw, KeyLaw, TopupOnce, PayoutOnce, PromoLaw, Overdrawn,
         ActiveInvoice, OneActivePerOrder, NoLateCredit, IntentsEvolve, WithdrawalsEvolve, OrdersEvolve;
    if i < |db.invoices| {
      assert InvoiceEvolves(db.invoices[i], db'.invoices[i]);
      assert InvoiceFits(db.invoices[i], db.orders[db.invoices[i].order].status);
    }
  }

  lemma TaxesKept(db: Db, db': Db)
    requires Inv(db) && Evolves(db, db') && IssuesOnlyAssigned(db, db')
    requires NoNewReleased(db, db') && DisputesStartOpen(db, db')
    ensures Sum(TaxTerms(db')) == Sum(TaxTerms(db)) && Sum(RevenueTerms(db')) == Sum(RevenueTerms(db))
  {
    hide Inv, Sum, IsReleased, NoNewReleased, NoLateCredit, OrdersEvolve, IntentsEvolve, WithdrawalsEvolve,
         DisputesEvolve;
    forall i | 0 <= i < |db'.invoices|
      ensures TaxTerm(db', db'.invoices[i]) == if i < |db.invoices| then TaxTerm(db, db.invoices[i]) else 0
      ensures RevenueTerm(db', db'.invoices[i]) == if i < |db.invoices| then RevenueTerm(db, db.invoices[i]) else 0
    {
      var o := db'.invoices[i].order;
      ReleasedKept(db, db', o);
      if IsReleased(db, o) {
        ReleasedIsFrozen(db, db', i);
      } else if i < |db.invoices| {
        assert InvoiceEvolves(db.invoices[i], db'.invoices[i]);
      }
    }
    AlikeSums(TaxTerms(db), TaxTerms(db'));
    AlikeSums(RevenueTerms(db), RevenueTerms(db'));
  }

  lemma ReceiptsKept(db: Db, db': Db)
    requires Evolves(db, db') && NoNewPaid(db, db')
    ensures Sum(GatewayTerms(db')) == Sum(GatewayTerms(db))
  {
    hide Sum, NoLateCredit, OrdersEvolve, IntentsEvolve, WithdrawalsEvolve, DisputesEvolve, OrphansStayOpen;
    forall i | 0 <= i < |db.invoices| ensures GatewayTerm(db'.invoices[i]) == GatewayTerm(db.invoices[i]) {
      assert InvoiceEvolves(db.invoices[i], db'.invoices[i]);
    }
    AlikeSums(GatewayTerms(db), GatewayTerms(db'));
  }

  lemma PayoutsKept(db: Db, db': Db)
    requires Evolves(db, db') && NoNewPayout(db, db')
    ensures Sum(PayoutTerms(db')) == Sum(PayoutTerms(db))
  {
    hide Sum, NoLateCredit, OrdersEvolve, IntentsEvolve, InvoicesEvolve, DisputesEvolve, OrphansStayOpen;
    forall k | 0 <= k < |db.withdrawals| ensures PayoutTerm(db'.withdrawals[k]) == PayoutTerm(db.withdrawals[k]) {
      assert WithdrawalEvolves(db.withdrawals[k], db'.withdrawals[k]);
    }
    AlikeSums(PayoutTerms(db), PayoutTerms(db'));
  }

  lemma CreditOf(db: Db, j: nat)
    requires Inv(db)
    ensures j < |db.intents| ==> CreditFits(Trail(Entries(db.ledger), TopupOf(j)), db.intents[j])
    ensures j >= |db.intents| ==> Trail(Entries(db.ledger), TopupOf(j)) == []
  {
    hide LedgerLaw, FlowLaw, EscrowFunded, EscrowOnce, IntentLaw, HoldLaw, KeyLaw, PayoutOnce, PromoLaw, Overdrawn,
         Trail, CreditFits;
  }

  /** The credit of an intent stays unless it is a top-up that now leaves NEW. */
  lemma CreditKept(db: Db, db': Db, j: nat)
    requires Inv(db) && Inv(db') && Evolves(db, db') && j < |db'.intents|
    requires db'.intents[j].purpose.WalletTopup? && !db'.intents[j].status.IntentNew? ==>
               j < |db.intents| && !db.intents[j].status.IntentNew?
    ensures CreditTerm(db', j) == if j < |db.intents| then CreditTerm(db, j) else 0
  {
    hide Inv, Trail, OrdersEvolve, InvoicesEvolve, WithdrawalsEvolve, DisputesEvolve, OrphansStayOpen;
    CreditOf(db, j);
    CreditOf(db', j);
    if j < |db.intents| {
      assert IntentEvolves(db.intents[j], db'.intents[j]);
    }
  }

  lemma CreditsKept(db: Db, db': Db)
    requires Inv(db) && Inv(db') && Evolves(db, db') && NoNewCredit(db, db')
    ensures Sum(CreditTerms(db')) == Sum(CreditTerms(db))
  {
    hide Inv, Sum, CreditTerm, NoLateCredit, OrdersEvolve, InvoicesEvolve, WithdrawalsEvolve, DisputesEvolve,
         OrphansStayOpen;
    forall j | 0 <= j < |db'.intents|
      ensures CreditTerm(db', j) == if j < |db.intents| then CreditTerm(db, j) else 0
    {
      CreditKept(db, db', j);
    }
    AlikeSums(CreditTerms(db), CreditTerms(db'));
  }

  lemma CreditsOfSameLedger(db: Db, db': Db)
    requires Inv(db) && db'.ledger == db.ledger && Evolves(db, db')
    ensures Sum(CreditTerms(db')) == Sum(CreditTerms(db))
  {
    hide Inv, Sum, Trail, NoLateCredit, OrdersEvolve, InvoicesEvolve, WithdrawalsEvolve, DisputesEvolve,
         OrphansStayOpen;
    forall j | 0 <= j < |db'.intents|
      ensures CreditTerm(db', j) == if j < |db.intents| then CreditTerm(db, j) else 0
    {
      CreditOf(db, j);
      if j < |db.intents| {
        assert IntentEvolves(db.intents[j], db'.intents[j]);
      }
    }
    AlikeSums(CreditTerms(db), CreditTerms(db'));
  }

  // ------------------------------------------------------------------ calls that move no money

  ghost predicate BalancesKept(db: Db, db': Db) {
    && |db.wallets| <= |db'.wallets|
    && forall w :: 0 <= w < |db.wallets| ==> db'.wallets[w].balance == db.wallets[w].balance
  }

  ghost predicate Quiet(db: Db, db': Db) {
    && db'.ledger == db.ledger && BalancesKept(db, db')
    && NoNewPaid(db, db') && NoNewCompleted(db, db') && NoNewPayout(db, db') && DisputesStartOpen(db, db')
  }

  lemma QuietKeeps(db: Db, db': Db)
    requires Inv(db) && SystemLaw(db) && Quiet(db, db') && Evolves(db, db') && IssuesOnlyAssigned(db, db')
    ensures SystemLaw(db')
  {
    hide Inv, Sum, Evolves, TaxTerms, RevenueTerms, PayoutTerms, CreditTerms, GatewayTerms, NoNewPaid, NoNewCompleted,
         NoNewPayout, DisputesStartOpen, IssuesOnlyAssigned, NoNewReleased;
    NothingReleased(db, db');
    TaxesKept(db, db');
    ReceiptsKept(db, db');
    PayoutsKept(db, db');
    CreditsOfSameLedger(db, db');
  }

  lemma NothingReleased(db: Db, db': Db)
    requires Evolves(db, db') && NoNewCompleted(db, db')
    ensures NoNewReleased(db, db')
  {
    hide NoLateCredit, OrdersEvolve, InvoicesEvolve, IntentsEvolve, WithdrawalsEvolve, OrphansStayOpen;
  }

  lemma OrderCallsQuiet(db: Db, o: nat, actor: nat, date: int, photos: nat, inRadius: bool, now: int)
    ensures var r := CreateOrder(db, actor, date, now); r.Ok? ==> Quiet(db, r.value)
    ensures var r := RescheduleOrder(db, o, date, now); r.Ok? ==> Quiet(db, r.value)
    ensures var r := AcceptOrder(db, o, actor, now); r.Ok? ==> Quiet(db, r.value)
    ensures var r := CancelOrder(db, o, actor, now); r.Ok? ==> Quiet(db, r.value)
    ensures var r := Deliver(db, o, actor, photos, inRadius, now); r.Ok? ==> Quiet(db, r.value)
    ensures var r := RaiseDispute(db, o, actor, now); r.Ok? ==> Quiet(db, r.value)
  {
    hide InWindow;
  }

  lemma IssueQuiet(cfg: Settings, db: Db, o: nat, actor: nat, lines: seq<LineInput>, fee: nat, promo: Option<nat>,
      now: int)
    requires CreateInvoice(cfg, db, o, actor, lines, fee, promo, now).Ok?
    ensures Quiet(db, CreateInvoice(cfg, db, o, actor, lines, fee, promo, now).value)
  {
    hide CreateInvoice;
    IssueShape(cfg, db, o, actor, lines, fee, promo, now);
  }

  lemma RetireQuiet(db: Db, i: nat, actor: nat, now: int)
    ensures var r := CancelInvoice(db, i, actor, now); r.Ok? ==> Quiet(db, r.value)
    ensures var r := ExpireInvoice(db, i, now); r.Ok? ==> Quiet(db, r.value)
  {
    hide ReleasePromo, CloseOpenIntent, InWindow;
    PromoOnly(db, i);
    if i < |db.invoices| && CloseOpenIntent(db, i).Ok? {
      CloseOnly(db, i);
      CloseKeepsBalances(db, i);
      PromoOnly(CloseOpenIntent(db, i).value, i);
    }
  }

  lemma CloseKeepsBalances(db: Db, i: nat)
    requires i < |db.invoices| && CloseOpenIntent(db, i).Ok?
    ensures BalancesKept(db, CloseOpenIntent(db, i).value)
  {
    hide OpenIntent;
  }

  lemma PendingQuiet(db: Db, i: nat, actor: nat, now: int)
    requires PayInvoice(db, i, actor, now).Ok? && !WalletCovers(db, i, actor)
    ensures Quiet(db, PayInvoice(db, i, actor, now).value)
  {
    hide FundEscrow, SettleRecord, OpenIntent;
  }

  lemma IntentCallsQuiet(cfg: Settings, db: Db, user: nat, amount: real, j: nat, status: IntentStatus)
    ensures var r := CreateTopup(cfg, db, user, amount); r.Ok? ==> Quiet(db, r.value)
    ensures Quiet(db, ExpireTopup(db, j).value)
    ensures j < |db.intents| ==> Quiet(db, SetIntent(db, j, status))
  {
    hide Money.Quantize;
  }

  lemma WithdrawalCallsQuiet(cfg: Settings, db: Db, courier: nat, amount: real, key: string, k: nat)
    ensures var r := RequestWithdrawal(cfg, db, courier, amount, key); r.Ok? ==> Quiet(db, r.value)
    ensures var r := ApproveWithdrawal(db, k); r.Ok? ==> Quiet(db, r.value)
    ensures var r := RejectWithdrawal(db, k); r.Ok? ==> Quiet(db, r.value)
  {
    hide HasWithdrawal, Money.Quantize;
  }

  lemma UserCallsQuiet(db: Db, promos: seq<Promo>)
    ensures Quiet(db, Register(db).value) && Quiet(db, CreateUser(db).value) && Quiet(db, db.(promos := promos))
  {
  }

  /** The calls that can move money: a payment the wallet covers, a PAID event for a NEW intent, and settlements. */
  ghost predicate MayMoveMoney(db: Db, call: Call) {
    match call
    case CallPayInvoice(invoice, actor) => WalletCovers(db, invoice, actor)
    case CallWebhook(intent, paid, _) => paid && intent < |db.intents| && db.intents[intent].status.IntentNew?
    case CallApproveOrder(_, _) => true
    case CallAutoApprove(_) => true
    case CallResolveDispute(_, _, _) => true
    case CallMarkWithdrawalPaid(_) => true
    case _ => false
  }

  /** All others leave the ledger and every balance alone, and finish nothing. */
  lemma StepIsQuiet(db: Db, request: Request)
    requires Step(db, request).Ok? && !MayMoveMoney(db, request.call)
    ensures Quiet(db, Step(db, request).value)
  {
    hide Quiet, CreateOrder, RescheduleOrder, AcceptOrder, CancelOrder, Deliver, RaiseDispute, CreateInvoice,
         CancelInvoice, ExpireInvoice, PayInvoice, RequestWithdrawal, ApproveWithdrawal, RejectWithdrawal,
         CreateTopup, ExpireTopup, Register, CreateUser, SettleTopup, SettleInvoice, SetIntent;
    var cfg, now, db' := request.cfg, request.now, Step(db, request).value;
    match request.call {
      case CallRegister => UserCallsQuiet(db, db.promos);
      case CallCreateUser => UserCallsQuiet(db, db.promos);
      case CallCreatePromo(promo) => UserCallsQuiet(db, db'.promos);
      case CallSetPromoActive(promo, active) => UserCallsQuiet(db, db'.promos);
      case CallCreateOrder(customer, date) => OrderCallsQuiet(db, 0, customer, date, 0, false, now);
      case CallRescheduleOrder(order, date) => OrderCallsQuiet(db, order, 0, date, 0, false, now);
      case CallAcceptOrder(order, courier) => OrderCallsQuiet(db, order, courier, 0, 0, false, now);
      case CallCancelOrder(order, actor) => OrderCallsQuiet(db, order, actor, 0, 0, false, now);
      case CallDeliver(order, actor, photos, inRadius) => OrderCallsQuiet(db, order, actor, 0, photos, inRadius, now);
      case CallRaiseDispute(order, actor) => OrderCallsQuiet(db, order, actor, 0, 0, false, now);
      case CallCreateInvoice(order, actor, lines, fee, promo) =>
        IssueQuiet(cfg, db, order, actor, lines, fee, promo, now);
      case CallCancelInvoice(invoice, actor) => RetireQuiet(db, invoice, actor, now);
      case CallExpireInvoice(invoice) => RetireQuiet(db, invoice, 0, now);
      case CallPayInvoice(invoice, actor) => PendingQuiet(db, invoice, actor, now);
      case CallCreateTopup(user, amount) => IntentCallsQuiet(cfg, db, user, amount, 0, IntentNew);
      case CallWebhook(intent, paid, reported) =>
        IntentCallsQuiet(cfg, db, 0, 0.0, intent, IntentFailed); UserCallsQuiet(db, db.promos);
      case CallExpireTopup(intent) => IntentCallsQuiet(cfg, db, 0, 0.0, intent, IntentNew);
      case CallRequestWithdrawal(courier, amount, key) => WithdrawalCallsQuiet(cfg, db, courier, amount, key, 0);
      case CallApproveWithdrawal(withdrawal) => WithdrawalCallsQuiet(cfg, db, 0, 0.0, "", withdrawal);
      case CallRejectWithdrawal(withdrawal) => WithdrawalCallsQuiet(cfg, db, 0, 0.0, "", withdrawal);
    }
  }

  // ------------------------------------------------------------------ calls that move money

  /** A payment settled: the gateway's portion comes in. */
  lemma SettledKeeps(db: Db, db': Db, i: nat, payer: nat, fromWallet: int, fromGateway: int, via: PaymentMethod)
    requires Inv(db) && Inv(db') && SystemLaw(db) && Evolves(db, db') && IssuesOnlyAssigned(db, db')
    requires Settles(db, db', i, fromWallet, fromGateway, via) && !db.invoices[i].status.InvoicePaid?
    requires Moves(db, db', FundMovement(UserWallet(payer), fromWallet, fromGateway, i, db.invoices[i].order))
    requires NoNewCredit(db, db')
    ensures SystemLaw(db')
  {
    hide Inv, Sum, Evolves, TaxTerms, RevenueTerms, PayoutTerms, CreditTerms, GatewayTerms, NoNewCredit,
         IssuesOnlyAssigned, NoNewReleased;
    SettledReleasesNothing(db, db', i, fromWallet, fromGateway, via);
    TaxesKept(db, db');
    PayoutsKept(db, db');
    CreditsKept(db, db');
    ReceiptAdded(db, db', i, fromWallet, fromGateway, via);
  }

  lemma SettledReleasesNothing(db: Db, db': Db, i: nat, fromWallet: int, fromGateway: int, via: PaymentMethod)
    requires Settles(db, db', i, fromWallet, fromGateway, via)
    ensures NoNewReleased(db, db')
  {
  }

  lemma ReceiptAdded(db: Db, db': Db, i: nat, fromWallet: int, fromGateway: int, via: PaymentMethod)
    requires Settles(db, db', i, fromWallet, fromGateway, via) && !db.invoices[i].status.InvoicePaid?
    ensures Sum(GatewayTerms(db')) == Sum(GatewayTerms(db)) + fromGateway
  {
    hide Sum;
    assert GatewayTerms(db') == GatewayTerms(db)[i := fromGateway];
    SumUpdate(GatewayTerms(db), i, fromGateway);
  }

  /** A top-up credited. */
  lemma TopupKeeps(db: Db, db': Db, j: nat)
    requires Inv(db) && Inv(db') && SystemLaw(db) && Evolves(db, db')
    requires j < |db.intents| && db.intents[j].status.IntentNew? && db.intents[j].purpose.WalletTopup?
    requires db' == db.(wallets := db'.wallets, ledger := db'.ledger,
                        intents := db.intents[j := db.intents[j].(status := IntentPaid)])
    requires Moves(db, db', TopupMovement(UserWallet(db.intents[j].user), db.intents[j].amount, j))
    ensures SystemLaw(db')
  {
    hide Inv, Sum, CreditTerms, Evolves;
    CreditAdded(db, db', j);
    assert TaxTerms(db') == TaxTerms(db) && RevenueTerms(db') == RevenueTerms(db);
    assert PayoutTerms(db') == PayoutTerms(db) && GatewayTerms(db') == GatewayTerms(db);
  }

  lemma CreditAdded(db: Db, db': Db, j: nat)
    requires Inv(db) && Inv(db') && Evolves(db, db')
    requires j < |db.intents| && db.intents[j].status.IntentNew? && db.intents[j].purpose.WalletTopup?
    requires db'.intents == db.intents[j := db.intents[j].(status := IntentPaid)]
    ensures Sum(CreditTerms(db')) == Sum(CreditTerms(db)) + db.intents[j].amount
  {
    hide Inv, Sum, Evolves, Trail;
    CreditOf(db, j);
    CreditOf(db', j);
    var amount := db.intents[j].amount;
    forall k | 0 <= k < |db.intents| && k != j ensures CreditTerm(db', k) == CreditTerm(db, k) {
      CreditKept(db, db', k);
    }
    assert CreditTerms(db') == CreditTerms(db)[j := amount];
    SumUpdate(CreditTerms(db), j, amount);
  }

  /** A withdrawal paid out. */
  lemma PaidOutKeeps(db: Db, db': Db, k: nat)
    requires Inv(db) && Inv(db') && SystemLaw(db) && Evolves(db, db')
    requires k < |db.withdrawals| && db.withdrawals[k].status.Approved?
    requires db' == db.(wallets := db'.wallets, ledger := db'.ledger,
                        withdrawals := db.withdrawals[k := db.withdrawals[k].(status := WithdrawalPaid)])
    requires Moves(db, db', PayoutMovement(UserWallet(db.withdrawals[k].courier), db.withdrawals[k].amount, k))
    ensures SystemLaw(db')
  {
    hide Inv, Sum, CreditTerms, Evolves, PayoutTerms;
    CreditsKept(db, db');
    PayoutAdded(db, db', k);
    assert TaxTerms(db') == TaxTerms(db) && RevenueTerms(db') == RevenueTerms(db);
    assert GatewayTerms(db') == GatewayTerms(db);
  }

  lemma PayoutAdded(db: Db, db': Db, k: nat)
    requires k < |db.withdrawals| && db.withdrawals[k].status.Approved?
    requires db'.withdrawals == db.withdrawals[k := db.withdrawals[k].(status := WithdrawalPaid)]
    ensures Sum(PayoutTerms(db')) == Sum(PayoutTerms(db)) + db.withdrawals[k].amount
  {
    hide Sum;
    assert PayoutTerms(db') == PayoutTerms(db)[k := db.withdrawals[k].amount];
    SumUpdate(PayoutTerms(db), k, db.withdrawals[k].amount);
  }

  /** An order settled: its row and perhaps its dispute change, and money moves. */
  ghost predicate Finished(db: Db, db': Db, o: nat, row: Order, m: Movement) {
    && o < |db.orders| && Funded(db.orders[o].status) && OrderState.Settled(row.status)
    && db' == db.(wallets := db'.wallets, ledger := db'.ledger, orders := db.orders[o := row],
                  disputes := db'.disputes)
    && (forall k :: k in db'.disputes && k != o ==> k in db.disputes && db'.disputes[k] == db.disputes[k])
    && (forall k :: k in db.disputes && k != o ==> k in db'.disputes)
    && Moves(db, db', m)
  }

  /** The PAID invoice of a funded order is its only one. */
  lemma OnlyPaidInvoice(db: Db, o: nat, i: nat, k: nat)
    requires Inv(db) && o < |db.orders| && PaidInvoice(db, o) == Ok(i)
    requires k < |db.invoices| && k != i && db.invoices[k].order == o
    ensures !db.invoices[k].status.InvoicePaid?
  {
    hide LedgerLaw, EscrowFunded, EscrowOnce, IntentLaw, HoldLaw, KeyLaw, TopupOnce, PayoutOnce, PromoLaw, Overdrawn,
         ActiveInvoice;
    assert OneActivePerOrder(db.invoices);
  }

  lemma NotReleasedYet(db: Db, o: nat)
    requires o < |db.orders| && Funded(db.orders[o].status)
    ensures !IsReleased(db, o)
  {
  }

  /** Released: its tax and revenue are added. */
  lemma ReleasedAdds(db: Db, db': Db, o: nat, i: nat, row: Order, m: Movement)
    requires Inv(db) && Finished(db, db', o, row, m) && PaidInvoice(db, o) == Ok(i) && IsReleased(db', o)
    ensures Sum(TaxTerms(db')) == Sum(TaxTerms(db)) + db.invoices[i].tax
    ensures Sum(RevenueTerms(db'))
         == Sum(RevenueTerms(db)) + db.invoices[i].total - db.invoices[i].tax - row.payout
  {
    hide Inv, Sum, Moves, PaidInvoice;
    var tax, revenue := db.invoices[i].tax, db.invoices[i].total - db.invoices[i].tax - row.payout;
    PaidIsPaid(db, o, i);
    forall k | 0 <= k < |db.invoices| && k != i
      ensures TaxTerm(db', db'.invoices[k]) == TaxTerm(db, db.invoices[k])
      ensures RevenueTerm(db', db'.invoices[k]) == RevenueTerm(db, db.invoices[k])
    {
      if db.invoices[k].order == o {
        OnlyPaidInvoice(db, o, i, k);
      }
    }
    assert TaxTerms(db') == TaxTerms(db)[i := tax];
    assert RevenueTerms(db') == RevenueTerms(db)[i := revenue];
    SumUpdate(TaxTerms(db), i, tax);
    SumUpdate(RevenueTerms(db), i, revenue);
  }

  lemma PaidIsPaid(db: Db, o: nat, i: nat)
    requires PaidInvoice(db, o) == Ok(i)
    ensures i < |db.invoices| && db.invoices[i].order == o && db.invoices[i].status.InvoicePaid?
  {
  }

  /** Refunded or split: no term changes. */
  lemma OtherwiseKept(db: Db, db': Db, o: nat, row: Order, m: Movement)
    requires Finished(db, db', o, row, m) && !IsReleased(db', o)
    ensures TaxTerms(db') == TaxTerms(db) && RevenueTerms(db') == RevenueTerms(db)
  {
    hide Moves;
  }

  lemma FinishedKeeps(db: Db, db': Db, o: nat, i: nat, row: Order, m: Movement)
    requires Inv(db) && Inv(db') && SystemLaw(db) && Evolves(db, db') && Finished(db, db', o, row, m)
    requires PaidInvoice(db, o) == Ok(i) && i < |db.invoices| && Delta(m, GATEWAY) == 0
    requires Delta(m, TAX_PAYABLE) == if IsReleased(db', o) then db.invoices[i].tax else 0
    requires Delta(m, REVENUE)
          == if IsReleased(db', o) then db.invoices[i].total - db.invoices[i].tax - row.payout else 0
    ensures SystemLaw(db')
  {
    hide Inv, Sum, CreditTerms, Evolves, TaxTerms, RevenueTerms, IsReleased, PaidInvoice, Delta;
    CreditsKept(db, db');
    assert GatewayTerms(db') == GatewayTerms(db) && PayoutTerms(db') == PayoutTerms(db);
    if IsReleased(db', o) {
      ReleasedAdds(db, db', o, i, row, m);
    } else {
      OtherwiseKept(db, db', o, row, m);
    }
  }

  // ------------------------------------------------------------------ every call and every run

  lemma PayKeeps(db: Db, i: nat, actor: nat, now: int)
    requires Inv(db) && SystemLaw(db) && PayInvoice(db, i, actor, now).Ok?
    requires var db' := PayInvoice(db, i, actor, now).value;
             Inv(db') && Evolves(db, db') && IssuesOnlyAssigned(db, db')
    ensures SystemLaw(PayInvoice(db, i, actor, now).value)
  {
    hide Inv, SystemLaw, PayInvoice, Evolves, IssuesOnlyAssigned, Settles, Moves, Quiet;
    var db' := PayInvoice(db, i, actor, now).value;
    PayInvoiceOutcome(db, i, actor, now);
    if WalletCovers(db, i, actor) {
      SettledKeeps(db, db', i, actor, db.invoices[i].total, 0, WalletOnly);
    } else {
      PendingQuiet(db, i, actor, now);
      QuietKeeps(db, db');
    }
  }

  lemma WebhookKeeps(cfg: Settings, db: Db, j: nat, paid: bool, amount: Option<int>, now: int)
    requires Inv(db) && WalletLaw(db) && SystemLaw(db) && j < |db.intents| && Webhook(db, j, paid, amount, now).Ok?
    requires var db' := Webhook(db, j, paid, amount, now).value;
             Inv(db') && Evolves(db, db') && IssuesOnlyAssigned(db, db')
    ensures SystemLaw(Webhook(db, j, paid, amount, now).value)
  {
    hide Inv, WalletLaw, SystemLaw, Webhook, Evolves, IssuesOnlyAssigned, Settles, Moves, Quiet, Settleable;
    var it, db' := db.intents[j], Webhook(db, j, paid, amount, now).value;
    WebhookOutcome(db, j, paid, amount, now);
    if it.status.IntentNew? && paid {
      match it.purpose {
        case WalletTopup => TopupKeeps(db, db', j);
        case OrderInvoice(i) =>
          if db.invoices[i].status.InvoicePaid? {
            IntentCallsQuiet(cfg, db, 0, 0.0, j, IntentPaid);
            QuietKeeps(db, db');
          } else {
            SettledKeeps(db, db', i, it.user, db.invoices[i].fromWallet, it.amount, BookedVia(db.invoices[i]));
          }
      }
    } else if it.status.IntentNew? {
      IntentCallsQuiet(cfg, db, 0, 0.0, j, IntentFailed);
      QuietKeeps(db, db');
    }
  }

  lemma CompletionKeeps(cfg: Settings, db: Db, o: nat, now: int)
    requires cfg.Valid() && Inv(db) && SystemLaw(db) && DisputeLaw(db.orders, db.disputes)
    requires o < |db.orders| && CompleteAndRelease(cfg, db, o, now).Ok?
    requires var db' := CompleteAndRelease(cfg, db, o, now).value; Inv(db') && Evolves(db, db')
    ensures SystemLaw(CompleteAndRelease(cfg, db, o, now).value)
  {
    hide Inv, SystemLaw, CompleteAndRelease, Evolves, Moves, PaidInvoice, Vanishes, InWindow;
    var db' := CompleteAndRelease(cfg, db, o, now).value;
    CompletionOutcome(cfg, db, o, now);
    var i, row := PaidInvoice(db, o).value, db'.orders[o];
    FinishedKeeps(db, db', o, i, row, ReleaseOf(db.invoices[i], row));
  }

  lemma ResolutionKeeps(cfg: Settings, db: Db, o: nat, outcome: DisputeStatus, courierAmount: Option<real>, now: int)
    requires cfg.Valid() && Inv(db) && SystemLaw(db) && DisputeLaw(db.orders, db.disputes)
    requires o < |db.orders| && ResolveDispute(cfg, db, o, outcome, courierAmount, now).Ok?
    requires var db' := ResolveDispute(cfg, db, o, outcome, courierAmount, now).value; Inv(db') && Evolves(db, db')
    ensures SystemLaw(ResolveDispute(cfg, db, o, outcome, courierAmount, now).value)
  {
    hide Inv, SystemLaw, ResolveDispute, Evolves, Moves, PaidInvoice, InWindow, Money.Quantize, DisputeLaw;
    var db' := ResolveDispute(cfg, db, o, outcome, courierAmount, now).value;
    ResolveDisputeOutcome(cfg, db, o, outcome, courierAmount, now);
    var i := PaidInvoice(db, o).value;
    var row := db'.orders[o];
    FinishedKeeps(db, db', o, i, row, OutcomeMovement(db.invoices[i], row, outcome));
  }

  lemma MarkPaidKeeps(db: Db, k: nat)
    requires Inv(db) && SystemLaw(db) && k < |db.withdrawals| && MarkWithdrawalPaid(db, k).Ok?
    requires var db' := MarkWithdrawalPaid(db, k).value; Inv(db') && Evolves(db, db')
    ensures SystemLaw(MarkWithdrawalPaid(db, k).value)
  {
    hide Inv, SystemLaw, MarkWithdrawalPaid, Evolves, Moves;
    MarkPaidOutcome(db, k);
    if db.withdrawals[k].status.Approved? {
      PaidOutKeeps(db, MarkWithdrawalPaid(db, k).value, k);
    }
  }

  lemma Found(db: Db, o: nat, outcome: DisputeStatus, courierAmount: Option<real>, k: nat, cfg: Settings, now: int)
    ensures ResolveDispute(cfg, db, o, outcome, courierAmount, now).Ok? ==> o < |db.orders|
    ensures MarkWithdrawalPaid(db, k).Ok? ==> k < |db.withdrawals|
  {
    hide ApplyOutcome, PaidInvoice, PayWithdrawal;
  }

  lemma StepKeepsSystem(db: Db, request: Request)
    requires request.cfg.Valid() && Inv(db) && WalletLaw(db) && DisputeLaw(db.orders, db.disputes) && SystemLaw(db)
    requires Step(db, request).Ok?
    ensures SystemLaw(Step(db, request).value)
  {
    hide Inv, WalletLaw, DisputeLaw, SystemLaw, Evolves, IssuesOnlyAssigned, Quiet, PayInvoice, Webhook,
         CompleteAndRelease, ResolveDispute, MarkWithdrawalPaid, FollowsTable, RequestsUnique, SettlesWithWallet;
    var cfg, now, db' := request.cfg, request.now, Step(db, request).value;
    StepKeepsInv(db, request);
    StepAdvances(db, request);
    if !MayMoveMoney(db, request.call) {
      StepIsQuiet(db, request);
      QuietKeeps(db, db');
    } else {
      match request.call {
        case CallPayInvoice(invoice, actor) => PayKeeps(db, invoice, actor, now);
        case CallWebhook(intent, paid, reported) => WebhookKeeps(cfg, db, intent, paid, reported, now);
        case CallApproveOrder(order, actor) => CompletionKeeps(cfg, db, order, now);
        case CallAutoApprove(order) =>
          if order < |db.orders| && db.orders[order].status.Delivered? {
            CompletionKeeps(cfg, db, order, now);
          }
        case CallResolveDispute(order, outcome, courierAmount) =>
          Found(db, order, outcome, courierAmount, 0, cfg, now);
          ResolutionKeeps(cfg, db, order, outcome, courierAmount, now);
        case CallMarkWithdrawalPaid(withdrawal) =>
          Found(db, 0, Open, None, withdrawal, cfg, now); MarkPaidKeeps(db, withdrawal);
      }
    }
  }

  lemma CommitKeepsSystem(db: Db, request: Request)
    requires request.cfg.Valid() && Inv(db) && WalletLaw(db) && DisputeLaw(db.orders, db.disputes) && SystemLaw(db)
    ensures SystemLaw(Commit(db, request))
  {
    hide Inv, WalletLaw, DisputeLaw, SystemLaw, Step;
    if Step(db, request).Ok? {
      StepKeepsSystem(db, request);
    }
  }

  /** In every reachable state the tax, revenue and gateway wallets hold exactly what the orders, invoices, top-ups
      and withdrawals account for. */
  lemma {:induction false} SystemWalletsAreExact(requests: seq<Request>)
    requires AllValid(requests)
    ensures SystemLaw(Run(Seeded(), requests))
  {
    hide Inv, WalletLaw, DisputeLaw, SystemLaw, Commit;
    if |requests| == 0 {
      SeededSystem();
    } else {
      var init := requests[..|requests| - 1];
      SystemWalletsAreExact(init);
      RunKeepsInv(init);
      RunKeepsDisputes(init);
      CommitKeepsSystem(Run(Seeded(), init), requests[|requests| - 1]);
    }
  }

  lemma SeededSystem()
    ensures SystemLaw(Seeded())
  {
  }

  lemma {:induction false} SystemAndUsers(wallets: seq<Wallet>)
    requires |wallets| >= SYSTEM_WALLETS
    ensures Sum(Balances(wallets))
         == wallets[ESCROW].balance + wallets[REVENUE].balance + wallets[GATEWAY].balance
            + wallets[TAX_PAYABLE].balance + Sum(Balances(wallets)[SYSTEM_WALLETS..])
  {
    hide Sum;
    var all := Balances(wallets);
    assert all == all[..SYSTEM_WALLETS] + all[SYSTEM_WALLETS..];
    SumConcat(all[..SYSTEM_WALLETS], all[SYSTEM_WALLETS..]);
    SumOfFour(all[0], all[1], all[2], all[3]);
    assert all[..SYSTEM_WALLETS] == [all[0], all[1], all[2], all[3]];
  }

  lemma {:induction false} SumOfFour(a: int, b: int, c: int, d: int)
    ensures Sum([a, b, c, d]) == a + b + c + d
  {
    SumAppend([], a);
    SumAppend([a], b);
    SumAppend([a, b], c);
    SumAppend([a, b, c], d);
    assert [] + [a] == [a] && [a] + [b] == [a, b] && [a, b] + [c] == [a, b, c] && [a, b, c] + [d] == [a, b, c, d];
  }

  /** What the users own together is exactly what came in through the gateway, less what was paid out, less what is in
      escrow, owed in tax and earned. */
  lemma {:induction false} UsersOwnTheRest(requests: seq<Request>)
    requires AllValid(requests)
    ensures var db := Run(Seeded(), requests);
            && |db.wallets| >= SYSTEM_WALLETS
            && Sum(Balances(db.wallets)[SYSTEM_WALLETS..])
               == Sum(CreditTerms(db)) + Sum(GatewayTerms(db)) - Sum(PayoutTerms(db))
                  - EscrowDue(db.orders, db.invoices) - Sum(TaxTerms(db)) - Sum(RevenueTerms(db))
  {
    hide Run, Sum, TaxTerms, RevenueTerms, PayoutTerms, CreditTerms, GatewayTerms, EscrowDue, Inv, Balances;
    var db := Run(Seeded(), requests);
    SystemWalletsAreExact(requests);
    EscrowIsExact(requests);
    LedgerIsExact(requests);
    SystemAndUsers(db.wallets);
  }
}
