/** Idempotency keys, top-up credits and payout debits follow the rows they were derived from. */
module RecordProofs {
  import opened Results
  import opened Tables
  import opened OrderState
  import opened Ledger
  import opened Market
  import opened Laws
  import opened Movements

  /** Rows never leave the states that a spent key stands for. */
  ghost predicate Persists(db: Db, db': Db) {
    && |db.orders| <= |db'.orders| && |db.invoices| <= |db'.invoices|
    && |db.intents| <= |db'.intents| && |db.withdrawals| <= |db'.withdrawals|
    && (forall o :: 0 <= o < |db.orders| && OrderState.Settled(db.orders[o].status) ==>
          OrderState.Settled(db'.orders[o].status))
    && (forall i :: 0 <= i < |db.invoices| && db.invoices[i].status.InvoicePaid? ==>
          db'.invoices[i].status.InvoicePaid?)
    && (forall j :: 0 <= j < |db.intents| && !db.intents[j].status.IntentNew? ==> !db'.intents[j].status.IntentNew?)
    && (forall k :: 0 <= k < |db.withdrawals| && db.withdrawals[k].status.WithdrawalPaid? ==>
          db'.withdrawals[k].status.WithdrawalPaid?)
  }

  ghost predicate SpentIn(k: Key, db: Db) {
    Spent(k, db.orders, db.invoices, db.intents, db.withdrawals)
  }

  ghost predicate Keys(db: Db) {
    KeyLaw(Entries(db.ledger), db.orders, db.invoices, db.intents, db.withdrawals)
  }

  lemma SpentPersists(k: Key, db: Db, db': Db)
    requires Persists(db, db') && SpentIn(k, db)
    ensures SpentIn(k, db')
  {
  }

  lemma KeysKept(db: Db, db': Db)
    requires Keys(db) && Persists(db, db') && db'.ledger == db.ledger
    ensures Keys(db')
  {
    hide KeyUsed;
    forall k: Key | KeyUsed(Entries(db'.ledger), k) ensures SpentIn(k, db') {
      SpentPersists(k, db, db');
    }
  }

  lemma KeysExtended(db: Db, posted: Db, db': Db, m: Movement)
    requires Keys(db) && Extended(Entries(db.ledger), Entries(posted.ledger), m) && posted.ledger == db'.ledger
    requires Persists(db, db') && SpentIn(m.key, db')
    ensures Keys(db')
  {
    hide KeyUsed, Trail;
    forall k: Key | KeyUsed(Entries(db'.ledger), k) ensures SpentIn(k, db') {
      if k != m.key {
        SpentPersists(k, db, db');
      }
    }
  }

  /** The histories of a law that the movement does not extend are untouched. */
  lemma TrailsKept(es: seq<Entry>, es': seq<Entry>, m: Movement)
    requires Extended(es, es', m)
    ensures m.escrow.None? ==> forall o: nat :: Trail(es', EscrowOf(o)) == Trail(es, EscrowOf(o))
    ensures m.topup.None? ==> forall j: nat :: Trail(es', TopupOf(j)) == Trail(es, TopupOf(j))
    ensures m.payout.None? ==> forall k: nat :: Trail(es', PayoutOf(k)) == Trail(es, PayoutOf(k))
  {
    hide Trail, KeyUsed;
  }

  lemma EscrowUntouched(es: seq<Entry>, es': seq<Entry>, orders: seq<Order>, invoices: seq<Invoice>, m: Movement)
    requires Extended(es, es', m) && m.escrow.None? && EscrowOnce(es, orders, invoices)
    ensures EscrowOnce(es', orders, invoices)
  {
    hide Trail, KeyUsed, ActiveTotal;
    TrailsKept(es, es', m);
  }

  lemma PayoutUntouched(es: seq<Entry>, es': seq<Entry>, withdrawals: seq<Withdrawal>, m: Movement)
    requires Extended(es, es', m) && m.payout.None? && PayoutOnce(es, withdrawals)
    ensures PayoutOnce(es', withdrawals)
  {
    hide Trail, KeyUsed;
    TrailsKept(es, es', m);
  }

  lemma TopupUntouched(es: seq<Entry>, es': seq<Entry>, intents: seq<Intent>, m: Movement)
    requires Extended(es, es', m) && m.topup.None? && TopupOnce(es, intents)
    ensures TopupOnce(es', intents)
  {
    hide Trail, KeyUsed;
    TrailsKept(es, es', m);
  }

  /** Opening an intent, or closing one that is not a top-up being paid, fits the credits as they are. */
  ghost predicate CreditsStillFit(intents: seq<Intent>, intents': seq<Intent>) {
    && |intents| <= |intents'|
    && (forall j :: 0 <= j < |intents| ==>
          && intents'[j].amount == intents[j].amount && intents'[j].purpose == intents[j].purpose
          && (intents'[j].status == intents[j].status || intents'[j].status.IntentFailed?
              || intents'[j].status.IntentExpired?
              || (intents'[j].status.IntentPaid? && !intents[j].purpose.WalletTopup?)))
    && (forall j :: |intents| <= j < |intents'| ==> intents'[j].status.IntentNew?)
  }

  lemma CreditsKept(es: seq<Entry>, intents: seq<Intent>, intents': seq<Intent>)
    requires TopupOnce(es, intents) && CreditsStillFit(intents, intents')
    ensures TopupOnce(es, intents')
  {
    hide Trail;
    forall j: nat ensures if j < |intents'| then CreditFits(Trail(es, TopupOf(j)), intents'[j])
        else Trail(es, TopupOf(j)) == [] {
      if j < |intents| {
        assert CreditFits(Trail(es, TopupOf(j)), intents[j]);
      }
    }
  }

  /** Paying a NEW top-up credits it once. */
  lemma CreditPosted(es: seq<Entry>, es': seq<Entry>, intents: seq<Intent>, j: nat, m: Movement)
    requires TopupOnce(es, intents) && Extended(es, es', m) && j < |intents|
    requires intents[j].status.IntentNew? && intents[j].purpose.WalletTopup? && m.topup == Some((j, intents[j].amount))
    ensures TopupOnce(es', intents[j := intents[j].(status := IntentPaid)])
  {
    hide Trail, KeyUsed;
    var intents' := intents[j := intents[j].(status := IntentPaid)];
    forall k: nat ensures if k < |intents'| then CreditFits(Trail(es', TopupOf(k)), intents'[k])
        else Trail(es', TopupOf(k)) == [] {
      if k < |intents| {
        assert CreditFits(Trail(es, TopupOf(k)), intents[k]);
      }
    }
  }

  lemma PayoutsKept(es: seq<Entry>, withdrawals: seq<Withdrawal>, k: nat, status: WithdrawalStatus)
    requires PayoutOnce(es, withdrawals) && k < |withdrawals|
    requires !status.WithdrawalPaid? && !withdrawals[k].status.WithdrawalPaid?
    ensures PayoutOnce(es, withdrawals[k := withdrawals[k].(status := status)])
  {
    hide Trail;
  }

  lemma NewPayoutKept(es: seq<Entry>, withdrawals: seq<Withdrawal>, wd: Withdrawal)
    requires PayoutOnce(es, withdrawals) && !wd.status.WithdrawalPaid?
    ensures PayoutOnce(es, withdrawals + [wd])
  {
    hide Trail;
  }

  lemma PayoutPosted(es: seq<Entry>, es': seq<Entry>, withdrawals: seq<Withdrawal>, k: nat, m: Movement)
    requires PayoutOnce(es, withdrawals) && Extended(es, es', m) && k < |withdrawals|
    requires !withdrawals[k].status.WithdrawalPaid? && m.payout == Some((k, -withdrawals[k].amount))
    ensures PayoutOnce(es', withdrawals[k := withdrawals[k].(status := WithdrawalPaid)])
  {
    hide Trail, KeyUsed;
  }
}
