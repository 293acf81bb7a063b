/** The laws every committed state of the money system obeys. Each is stated over just the tables it
    speaks about. */
module Laws {
  import opened Results
  import opened Sums
  import opened Tables
  import opened OrderState
  import opened Ledger
  import opened Market

  // ------------------------------------------------------------------ the ledger

  function Balances(wallets: seq<Wallet>): (r: seq<int>)
    ensures |r| == |wallets|
  {
    seq(|wallets|, w requires 0 <= w < |wallets| => wallets[w].balance)
  }

  /** Every wallet's balance is the sum of its settled rows. */
  ghost predicate BalancesAreSums(wallets: seq<Wallet>, es: seq<Entry>) {
    forall w :: 0 <= w < |wallets| ==> wallets[w].balance == SumBy(es, OnWallet(w))
  }

  /** Every row's running balance is its wallet's prefix sum. */
  ghost predicate RunningBalances(walletCount: nat, ledger: seq<Row>) {
    forall i :: 0 <= i < |ledger| ==>
      && ledger[i].entry.wallet < walletCount
      && ledger[i].balanceAfter == SumBy(Entries(ledger)[..i + 1], OnWallet(ledger[i].entry.wallet))
  }

  /** Every correlation group sums to zero. */
  ghost predicate GroupsBalance(es: seq<Entry>) {
    forall c: nat :: SumBy(es, OnCorrelation(c)) == 0
  }

  ghost predicate KeysUnique(es: seq<Entry>) {
    forall i, j :: 0 <= i < j < |es| && es[i].key.Some? ==> es[i].key != es[j].key
  }

  ghost predicate LedgerLaw(wallets: seq<Wallet>, ledger: seq<Row>) {
    && |wallets| >= SYSTEM_WALLETS
    && BalancesAreSums(wallets, Entries(ledger))
    && RunningBalances(|wallets|, ledger)
    && GroupsBalance(Entries(ledger))
    && KeysUnique(Entries(ledger))
    && Sum(Balances(wallets)) == 0
  }

  // ------------------------------------------------------------------ orders, invoices and escrow

  ghost predicate OrderWellFormed(o: Order, walletCount: nat) {
    && UserWallet(o.customer) < walletCount
    && (o.courier.Some? ==> UserWallet(o.courier.value) < walletCount)
    && (o.courier.None? ==> o.status.New? || o.status.Cancelled?)
    && (o.status.New? ==> o.courier.None?)
    && o.total >= 0 && o.commission >= 0 && o.payout >= 0
  }

  ghost predicate InvoiceWellFormed(inv: Invoice, orderCount: nat) {
    && inv.order < orderCount
    && inv.total > 0 && inv.tax >= 0 && inv.itemsNet >= 0 && inv.courierFee >= 0
  }

  /** An ISSUED invoice belongs to an order awaiting payment (or cancelled under it), a PAID one to an order
      whose money is or was in escrow. */
  ghost predicate InvoiceFits(inv: Invoice, s: OrderStatus) {
    && (inv.status.Issued? ==> s.WaitingPayment? || s.Cancelled?)
    && (inv.status.InvoicePaid? ==> Phase(s) >= 1)
  }

  ghost predicate NeedsInvoice(s: OrderStatus) {
    s.WaitingPayment? || Phase(s) >= 1
  }

  ghost predicate FlowLaw(walletCount: nat, orders: seq<Order>, invoices: seq<Invoice>) {
    && (forall o :: 0 <= o < |orders| ==> OrderWellFormed(orders[o], walletCount))
    && (forall i :: 0 <= i < |invoices| ==> InvoiceWellFormed(invoices[i], |orders|))
    && (forall i :: 0 <= i < |invoices| ==> InvoiceFits(invoices[i], orders[invoices[i].order].status))
    && OneActivePerOrder(invoices)
    && (forall o :: 0 <= o < |orders| && NeedsInvoice(orders[o].status) ==> ActiveInvoice(invoices, o).Some?)
  }

  function EscrowTerm(orders: seq<Order>, inv: Invoice): int {
    if inv.status.InvoicePaid? && inv.order < |orders| && Funded(orders[inv.order].status) then inv.total else 0
  }

  function EscrowTerms(orders: seq<Order>, invoices: seq<Invoice>): (r: seq<int>)
    ensures |r| == |invoices|
  {
    seq(|invoices|, i requires 0 <= i < |invoices| => EscrowTerm(orders, invoices[i]))
  }

  /** The totals of the PAID invoices of orders in IN_PROGRESS, DELIVERED or DISPUTED. */
  function EscrowDue(orders: seq<Order>, invoices: seq<Invoice>): int {
    Sum(EscrowTerms(orders, invoices))
  }

  ghost predicate EscrowFunded(wallets: seq<Wallet>, orders: seq<Order>, invoices: seq<Invoice>) {
    |wallets| >= SYSTEM_WALLETS && wallets[ESCROW].balance == EscrowDue(orders, invoices)
  }

  /** The escrow movements of an order. */
  function EscrowOf(order: nat): Entry -> bool {
    (e: Entry) => e.wallet == ESCROW && e.order == Some(order)
  }

  function ActiveTotal(invoices: seq<Invoice>, order: nat): int {
    var active := ActiveInvoice(invoices, order);
    if active.Some? then invoices[active.value].total else 0
  }

  /** One credit once paid, one debit of the same amount once settled, nothing else ever. */
  function EscrowHistory(s: OrderStatus, total: int): seq<int> {
    if Phase(s) == 0 then [] else if Phase(s) == 1 then [total] else [total, -total]
  }

  ghost predicate EscrowOnce(es: seq<Entry>, orders: seq<Order>, invoices: seq<Invoice>) {
    forall o: nat :: Trail(es, EscrowOf(o))
                  == if o < |orders| then EscrowHistory(orders[o].status, ActiveTotal(invoices, o)) else []
  }

  // ------------------------------------------------------------------ intents, holds and withdrawals

  ghost predicate IntentWellFormed(it: Intent, walletCount: nat, invoiceCount: nat) {
    && UserWallet(it.user) < walletCount && it.amount > 0
    && (it.purpose.OrderInvoice? ==> it.purpose.invoice < invoiceCount)
  }

  ghost predicate OneOpenPerInvoice(intents: seq<Intent>) {
    forall j, k :: 0 <= j < k < |intents| && intents[j].purpose.OrderInvoice?
        && intents[j].purpose == intents[k].purpose
      ==> !intents[j].status.IntentNew? || !intents[k].status.IntentNew?
  }

  /** The two portions of an invoice with an open intent make up its total. */
  ghost predicate PortionsAddUp(it: Intent, invoices: seq<Invoice>) {
    (&& it.status.IntentNew? && it.purpose.OrderInvoice? && it.purpose.invoice < |invoices|
     && invoices[it.purpose.invoice].status.Issued?)
      ==> var inv := invoices[it.purpose.invoice];
          inv.fromWallet >= 0 && inv.fromWallet + it.amount == inv.total
  }

  ghost predicate IntentLaw(walletCount: nat, intents: seq<Intent>, invoices: seq<Invoice>) {
    && (forall j :: 0 <= j < |intents| ==> IntentWellFormed(intents[j], walletCount, |invoices|))
    && (forall j :: 0 <= j < |intents| ==> PortionsAddUp(intents[j], invoices))
    && OneOpenPerInvoice(intents)
  }

  ghost predicate WithdrawalLaw(walletCount: nat, withdrawals: seq<Withdrawal>) {
    forall k :: 0 <= k < |withdrawals| ==> UserWallet(withdrawals[k].courier) < walletCount && withdrawals[k].amount > 0
  }

  /** What an open intent reserves in a user's wallet: the wallet portion of its ISSUED invoice. */
  function IntentHold(it: Intent, invoices: seq<Invoice>, user: nat): int {
    if && it.user == user && it.status.IntentNew? && it.purpose.OrderInvoice? && it.purpose.invoice < |invoices|
       && invoices[it.purpose.invoice].status.Issued?
    then invoices[it.purpose.invoice].fromWallet else 0
  }

  function IntentHolds(intents: seq<Intent>, invoices: seq<Invoice>, user: nat): (r: seq<int>)
    ensures |r| == |intents|
  {
    seq(|intents|, j requires 0 <= j < |intents| => IntentHold(intents[j], invoices, user))
  }

  function WithdrawalHold(wd: Withdrawal, user: nat): int {
    if wd.courier == user && (wd.status.Requested? || wd.status.Approved?) then wd.amount else 0
  }

  function WithdrawalHolds(withdrawals: seq<Withdrawal>, user: nat): (r: seq<int>)
    ensures |r| == |withdrawals|
  {
    seq(|withdrawals|, k requires 0 <= k < |withdrawals| => WithdrawalHold(withdrawals[k], user))
  }

  /** A user's live reservations. */
  function LiveHolds(intents: seq<Intent>, invoices: seq<Invoice>, withdrawals: seq<Withdrawal>, user: nat): int {
    Sum(IntentHolds(intents, invoices, user)) + Sum(WithdrawalHolds(withdrawals, user))
  }

  /** Live reservations never exceed what is held, nor holds the balance. */
  ghost predicate HoldLaw(wallets: seq<Wallet>, intents: seq<Intent>, invoices: seq<Invoice>,
      withdrawals: seq<Withdrawal>) {
    && (forall w :: 0 <= w < |wallets| && w < SYSTEM_WALLETS ==> wallets[w].held == 0)
    && (forall u: nat :: UserWallet(u) < |wallets| ==>
          LiveHolds(intents, invoices, withdrawals, u) <= wallets[UserWallet(u)].held <= wallets[UserWallet(u)].balance)
  }

  // ------------------------------------------------------------------ keys, top-ups and payouts

  /** What a used idempotency key says about the row it was derived from. */
  ghost predicate Spent(k: Key, orders: seq<Order>, invoices: seq<Invoice>, intents: seq<Intent>,
      withdrawals: seq<Withdrawal>) {
    match k
    case TopupKey(j) => j < |intents| && !intents[j].status.IntentNew?
    case EscrowKey(i) => i < |invoices| && invoices[i].status.InvoicePaid?
    case ReleaseKey(o) => o < |orders| && OrderState.Settled(orders[o].status)
    case RefundKey(o) => o < |orders| && OrderState.Settled(orders[o].status)
    case SplitKey(o) => o < |orders| && OrderState.Settled(orders[o].status)
    case PayoutKey(w) => w < |withdrawals| && withdrawals[w].status.WithdrawalPaid?
  }

  ghost predicate KeyLaw(es: seq<Entry>, orders: seq<Order>, invoices: seq<Invoice>, intents: seq<Intent>,
                         withdrawals: seq<Withdrawal>)
  {
    forall k: Key :: KeyUsed(es, k) ==> Spent(k, orders, invoices, intents, withdrawals)
  }

  /** The credits of a top-up intent. */
  function TopupOf(intent: nat): Entry -> bool {
    (e: Entry) => e.kind.Topup? && e.intent == Some(intent) && e.wallet != GATEWAY
  }

  /** A top-up is credited at most once, for exactly its amount: not while NEW or FAILED, exactly once when PAID. */
  ghost predicate CreditFits(trail: seq<int>, it: Intent) {
    && (trail == [] || (trail == [it.amount] && it.purpose.WalletTopup?))
    && (it.status.IntentNew? ==> trail == [])
    && (it.status.IntentPaid? && it.purpose.WalletTopup? ==> trail == [it.amount])
  }

  ghost predicate TopupOnce(es: seq<Entry>, intents: seq<Intent>) {
    forall j: nat :: if j < |intents| then CreditFits(Trail(es, TopupOf(j)), intents[j])
        else Trail(es, TopupOf(j)) == []
  }

  /** The debits of a withdrawal. */
  function PayoutOf(withdrawal: nat): Entry -> bool {
    (e: Entry) => e.key == Some(PayoutKey(withdrawal))
  }

  ghost predicate PayoutOnce(es: seq<Entry>, withdrawals: seq<Withdrawal>) {
    forall k: nat :: Trail(es, PayoutOf(k))
                  == if k < |withdrawals| && withdrawals[k].status.WithdrawalPaid? then [-withdrawals[k].amount] else []
  }

  // ------------------------------------------------------------------ promos

  function RedemptionFor(s: InvoiceStatus): RedemptionStatus {
    match s
    case Issued => Reserved
    case InvoicePaid => Consumed
    case InvoiceCancelled => Released
    case InvoiceExpired => Released
  }

  /** An invoice has a redemption exactly when it has a promo, in the state its own status dictates. */
  ghost predicate RedemptionFits(inv: Invoice, r: Option<Redemption>, promoCount: nat) {
    && (inv.promo.Some? <==> r.Some?)
    && (r.Some? ==> inv.promo == Some(r.value.promo) && r.value.promo < promoCount
                    && r.value.status == RedemptionFor(inv.status))
  }

  ghost predicate PromoWithinCaps(p: Promo, uses: int) {
    p.used == uses && (p.maxTotal.Some? ==> p.used <= p.maxTotal.value)
  }

  ghost predicate PromoLaw(promos: seq<Promo>, invoices: seq<Invoice>, redemptions: seq<Option<Redemption>>) {
    && |redemptions| == |invoices|
    && (forall i :: 0 <= i < |invoices| ==> RedemptionFits(invoices[i], redemptions[i], |promos|))
    && (forall p :: 0 <= p < |promos| ==> PromoWithinCaps(promos[p], Uses(redemptions, p, None)))
    && (forall p: nat, u: nat :: p < |promos| ==> Uses(redemptions, p, Some(u)) <= promos[p].maxPerUser)
  }

  // ------------------------------------------------------------------ disputes

  /** A DISPUTED order has an open dispute; an order with a dispute is DISPUTED or has been settled since, and
      has been settled if the dispute is resolved. */
  ghost predicate DisputeLaw(orders: seq<Order>, disputes: map<nat, DisputeStatus>) {
    && (forall o :: 0 <= o < |orders| && orders[o].status.Disputed? ==> o in disputes && disputes[o].Open?)
    && (forall o :: o in disputes ==>
          o < |orders| && (orders[o].status.Disputed? || OrderState.Settled(orders[o].status)))
  }

  /** A courier never has two withdrawals under one idempotency key. */
  ghost predicate RequestsUnique(withdrawals: seq<Withdrawal>) {
    forall j, k :: 0 <= j < k < |withdrawals| && withdrawals[j].courier == withdrawals[k].courier
      ==> withdrawals[j].idempotencyKey != withdrawals[k].idempotencyKey
  }

  // ------------------------------------------------------------------ users without a wallet

  /** An empty slot stands for no wallet: no intent, withdrawal or ledger row belongs to it. */
  ghost predicate WalletLaw(db: Db) {
    && (forall w :: w in db.emptySlots ==> SYSTEM_WALLETS <= w < |db.wallets|)
    && (forall j :: 0 <= j < |db.intents| ==> UserWallet(db.intents[j].user) !in db.emptySlots)
    && (forall k :: 0 <= k < |db.withdrawals| ==> UserWallet(db.withdrawals[k].courier) !in db.emptySlots)
    && (forall i :: 0 <= i < |db.ledger| ==> db.ledger[i].entry.wallet !in db.emptySlots)
  }

  // ------------------------------------------------------------------ all of them

  ghost predicate Inv(db: Db) {
    && LedgerLaw(db.wallets, db.ledger) && !Overdrawn(db.wallets)
    && FlowLaw(|db.wallets|, db.orders, db.invoices)
    && EscrowFunded(db.wallets, db.orders, db.invoices)
    && EscrowOnce(Entries(db.ledger), db.orders, db.invoices)
    && IntentLaw(|db.wallets|, db.intents, db.invoices)
    && WithdrawalLaw(|db.wallets|, db.withdrawals)
    && HoldLaw(db.wallets, db.intents, db.invoices, db.withdrawals)
    && KeyLaw(Entries(db.ledger), db.orders, db.invoices, db.intents, db.withdrawals)
    && TopupOnce(Entries(db.ledger), db.intents)
    && PayoutOnce(Entries(db.ledger), db.withdrawals)
    && PromoLaw(db.promos, db.invoices, db.redemptions)
    && db.overReleases == 0
  }

  /** What is held beyond the live reservations: reservations that were dropped and never released. */
  function Slack(db: Db, user: nat): int
    requires UserWallet(user) < |db.wallets|
  {
    db.wallets[UserWallet(user)].held - LiveHolds(db.intents, db.invoices, db.withdrawals, user)
  }
}
