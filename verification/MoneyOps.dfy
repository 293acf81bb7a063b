/** app/services/money_service.py:164-487: the movements the services ask for, as functions of the
    committed state. A fresh correlation id is the length of the ledger. */
module MoneyOps {
  import opened Results
  import opened Tables
  import opened Ledger

  function PlainLeg(wallet: nat, amount: int, kind: TransactionType, order: Option<nat>, invoice: Option<nat>,
                    intent: Option<nat>): Leg
  {
    Leg(wallet, amount as real, kind, None, order, invoice, intent)
  }

  function KeyedLeg(wallet: nat, amount: int, kind: TransactionType, key: Key, order: Option<nat>,
                    invoice: Option<nat>, intent: Option<nat>): Leg
  {
    Leg(wallet, amount as real, kind, Some(key), order, invoice, intent)
  }

  function TopupLegs(wallet: nat, amount: int, intent: nat): seq<Leg> {
    [KeyedLeg(wallet, amount, Topup, TopupKey(intent), None, None, Some(intent)),
     PlainLeg(GATEWAY, -amount, Topup, None, None, Some(intent))]
  }

  function ReleaseLegs(order: nat, invoice: nat, courier: nat, payout: int, tax: int, revenue: int): seq<Leg> {
    [KeyedLeg(ESCROW, -(payout + tax + revenue), EscrowRelease, ReleaseKey(order), Some(order), Some(invoice), None)]
    + [PlainLeg(courier, payout, EscrowRelease, Some(order), Some(invoice), None)]
    + (if tax != 0 then [PlainLeg(TAX_PAYABLE, tax, TaxDue, Some(order), Some(invoice), None)] else [])
    + (if revenue != 0 then [PlainLeg(REVENUE, revenue, CommissionFee, Some(order), Some(invoice), None)] else [])
  }

  function RefundLegs(order: nat, invoice: nat, customer: nat, amount: int): seq<Leg> {
    [KeyedLeg(ESCROW, -amount, Refund, RefundKey(order), Some(order), Some(invoice), None),
     PlainLeg(customer, amount, Refund, Some(order), Some(invoice), None)]
  }

  function SplitLegs(order: nat, invoice: nat, courier: nat, customer: nat, courierAmount: int, refund: int): seq<Leg> {
    [KeyedLeg(ESCROW, -(courierAmount + refund), EscrowRelease, SplitKey(order), Some(order), Some(invoice), None)]
    + (if courierAmount != 0 then [PlainLeg(courier, courierAmount, EscrowRelease, Some(order), Some(invoice), None)]
        else [])
    + (if refund != 0 then [PlainLeg(customer, refund, Refund, Some(order), Some(invoice), None)] else [])
  }

  function PayoutLegs(wallet: nat, amount: int, withdrawal: nat): seq<Leg> {
    [KeyedLeg(wallet, -amount, Withdraw, PayoutKey(withdrawal), None, None, None),
     PlainLeg(GATEWAY, amount, Withdraw, None, None, None)]
  }

  function FundLegs(customer: nat, fromWallet: int, fromGateway: int, invoice: nat, order: nat,
      intent: Option<nat>): seq<Leg> {
    (if fromWallet > 0 then [PlainLeg(customer, -fromWallet, Payment, Some(order), Some(invoice), intent)] else [])
    + (if fromGateway > 0 then [PlainLeg(GATEWAY, -fromGateway, Payment, Some(order), Some(invoice), intent)] else [])
    + [KeyedLeg(ESCROW, fromWallet + fromGateway, EscrowHold, EscrowKey(invoice), Some(order), Some(invoice), intent)]
  }

  function Post(db: Db, legs: seq<Leg>): Result<(Db, bool)> {
    PostGroup(db, legs, |db.ledger|)
  }

  function Available(db: Db, wallet: nat): int {
    if wallet < |db.wallets| then db.wallets[wallet].balance - db.wallets[wallet].held else 0
  }

  function HoldFunds(db: Db, wallet: nat, amount: int): Result<Db> {
    if wallet >= |db.wallets| then Err(NotFound)
    else if Available(db, wallet) < amount then Err(InsufficientFunds)
    else
      var w := db.wallets[wallet];
      Ok(db.(wallets := db.wallets[wallet := w.(held := w.held + amount)]))
  }

  /** Clamps at zero, and counts the warning when it does. */
  function ReleaseHold(db: Db, wallet: nat, amount: int): Result<Db> {
    if wallet >= |db.wallets| then Err(NotFound)
    else
      var w := db.wallets[wallet];
      if amount > w.held then
        Ok(db.(wallets := db.wallets[wallet := w.(held := 0)], overReleases := db.overReleases + 1))
      else
        Ok(db.(wallets := db.wallets[wallet := w.(held := w.held - amount)]))
  }

  function PayWithdrawal(db: Db, wallet: nat, amount: int, withdrawal: nat): Result<(Db, bool)> {
    var (posted, first) :- Post(db, PayoutLegs(wallet, amount, withdrawal));
    if first then
      var released :- ReleaseHold(posted, wallet, amount);
      Ok((released, true))
    else Ok((posted, false))
  }

  /** Move an invoice's paid total into escrow; the hold is dropped only when the group is first posted. */
  function FundEscrow(db: Db, customer: nat, fromWallet: int, fromGateway: int, invoice: nat, order: nat,
                      intent: Option<nat>, wasHeld: bool): Result<Db>
  {
    var (posted, first) :- Post(db, FundLegs(customer, fromWallet, fromGateway, invoice, order, intent));
    if first && wasHeld && fromWallet > 0 then ReleaseHold(posted, customer, fromWallet) else Ok(posted)
  }
}
