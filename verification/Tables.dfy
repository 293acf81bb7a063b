/** app/models/tables.py and app/models/enums.py: the committed rows of the money system.
    Rows are never deleted, so a table is a sequence and a row's id is its position in it. */
module Tables {
  import opened Results
  import Pricing

  datatype OrderStatus =
    New | Assigned | WaitingPayment | InProgress | Delivered | Completed | Cancelled | Disputed | Refunded

  datatype InvoiceStatus = Issued | InvoicePaid | InvoiceCancelled | InvoiceExpired

  datatype IntentStatus = IntentNew | IntentPaid | IntentFailed | IntentExpired

  datatype WithdrawalStatus = Requested | Approved | WithdrawalPaid | Rejected

  datatype DisputeStatus = Open | ResolvedCustomer | ResolvedCourier | ResolvedSplit

  datatype RedemptionStatus = Reserved | Consumed | Released

  datatype TransactionType = Topup | Withdraw | EscrowHold | EscrowRelease | Payment | Refund | CommissionFee | TaxDue

  datatype TransactionStatus = Pending | Settled | Reversed

  datatype PaymentMethod = WalletOnly | GatewayOnly | Split

  /** The ledger's idempotency keys, e.g. "order:<id>:release". */
  datatype Key =
    | TopupKey(intent: nat)
    | EscrowKey(invoice: nat)
    | ReleaseKey(order: nat)
    | RefundKey(order: nat)
    | SplitKey(order: nat)
    | PayoutKey(withdrawal: nat)

  // Wallet ids: the four seeded system wallets, then one wallet for each user.
  const ESCROW: nat := 0
  const REVENUE: nat := 1
  const GATEWAY: nat := 2
  const TAX_PAYABLE: nat := 3
  const SYSTEM_WALLETS: nat := 4

  function UserWallet(user: nat): nat {
    SYSTEM_WALLETS + user
  }

  datatype Wallet = Wallet(balance: int, held: int)

  /** What a ledger row says about a movement ... */
  datatype Entry = Entry(
    wallet: nat, amount: int, kind: TransactionType, status: TransactionStatus, correlation: nat,
    key: Option<Key>, order: Option<nat>, invoice: Option<nat>, intent: Option<nat>)

  /** ... and the balance it left behind. */
  datatype Row = Row(entry: Entry, balanceAfter: int)

  datatype Order = Order(
    customer: nat, courier: Option<nat>, status: OrderStatus, total: int, commission: int, payout: int,
        deliveryDate: int)

  datatype Invoice = Invoice(
    order: nat, issuer: nat, status: InvoiceStatus,
    itemsNet: int, courierFee: int, serviceFee: int, discount: int, tax: int, total: int,
    promo: Option<nat>, fromWallet: int, fromGateway: int, paymentMethod: Option<PaymentMethod>, expiresAt: int)

  datatype Purpose = WalletTopup | OrderInvoice(invoice: nat)

  /** A payment intent, named by its payment link (unique by uq_payment_intents_streampay_link). */
  datatype Intent = Intent(user: nat, purpose: Purpose, amount: int, status: IntentStatus)

  datatype Withdrawal = Withdrawal(courier: nat, amount: int, status: WithdrawalStatus, idempotencyKey: string)

  datatype Promo = Promo(
    pricing: Pricing.Promo, minOrder: int, maxTotal: Option<nat>, maxPerUser: nat, used: nat,
    active: bool, startsAt: Option<int>, endsAt: Option<int>)

  datatype Redemption = Redemption(promo: nat, user: nat, status: RedemptionStatus)

  /** The whole committed state. `redemptions[i]` is the promo redemption of invoice `i`, if it has one;
      `disputes[o]` the dispute of order `o` (uq_disputes_order). `overReleases` counts the warnings that
      `release_hold` logs when it has to clamp. Every user has a slot in `wallets`; the slots in `emptySlots`
      belong to users whom the dashboard created without a wallet, and stand for no row. */
  datatype Db = Db(
    wallets: seq<Wallet>, ledger: seq<Row>,
    orders: seq<Order>, invoices: seq<Invoice>, redemptions: seq<Option<Redemption>>,
    intents: seq<Intent>, disputes: map<nat, DisputeStatus>, withdrawals: seq<Withdrawal>, promos: seq<Promo>,
    overReleases: nat, emptySlots: set<nat>)

  /** The seeded database: the four system wallets, empty. */
  function Seeded(): Db {
    Db([Wallet(0, 0), Wallet(0, 0), Wallet(0, 0), Wallet(0, 0)], [], [], [], [], [], map[], [], [], 0, {})
  }

  /** app/core/config.py: the settings the money system reads. */
  datatype Settings = Settings(
    pricing: Pricing.Config, commissionRate: real, expirySeconds: nat, maxInvoiceItems: nat, maxUnitPrice: int,
    minTopup: int, maxTopup: int, minWithdrawal: int, maxWithdrawal: int)
  {
    /** What the settings validator enforces (app/core/config.py:205-213). */
    predicate Valid() {
      && Pricing.IsRate(pricing.serviceFeeRate) && Pricing.IsRate(pricing.vatRate)
      && Pricing.IsRate(commissionRate)
      && 5000 <= minWithdrawal <= maxWithdrawal
    }
  }
}
