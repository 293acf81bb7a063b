/** app/services/money_service.py:489-514 and app/repositories/wallet_repository.py:103-171: reconciliation by
    one GROUP BY over the ledger and one HAVING filter. */
module Reconcile {
  import opened Results
  import opened Tables
  import opened Ledger
  import opened Laws
  import opened Market
  import opened Theorems

  datatype Drift =
    | WalletDrift(wallet: nat, balance: int, settled: int)
    | GroupDrift(correlation: nat, total: int)

  datatype Report = Report(walletsChecked: nat, correlationsChecked: nat, drifts: seq<Drift>)

  datatype Column = ByWallet | ByCorrelation

  function KeyOf(e: Entry, column: Column): nat {
    if column.ByWallet? then e.wallet else e.correlation
  }

  /** The naive sum of one group: one SUM query per key. */
  function GroupSum(es: seq<Entry>, column: Column, key: nat): int {
    SumBy(es, if column.ByWallet? then OnWallet(key) else OnCorrelation(key))
  }

  ghost predicate HasSettled(es: seq<Entry>, column: Column, key: nat) {
    exists i :: 0 <= i < |es| && es[i].status.Settled? && KeyOf(es[i], column) == key
  }

  /** SELECT key, SUM(amount) WHERE status = SETTLED GROUP BY key, in one pass over the rows. */
  method SettledSums(es: seq<Entry>, column: Column) returns (sums: map<nat, int>)
    ensures forall key: nat :: key in sums <==> HasSettled(es, column, key)
    ensures forall key: nat :: key in sums ==> sums[key] == GroupSum(es, column, key)
    ensures forall key: nat :: key !in sums ==> GroupSum(es, column, key) == 0
  {
    sums := map[];
    for i := 0 to |es|
      invariant forall key: nat :: key in sums <==> HasSettled(es[..i], column, key)
      invariant forall key: nat :: (if key in sums then sums[key] else 0) == GroupSum(es[..i], column, key)
    {
      assert es[..i + 1][..i] == es[..i] && es[..i + 1][i] == es[i];
      HasSettledStep(es, column, i);
      if es[i].status.Settled? {
        var key := KeyOf(es[i], column);
        sums := sums[key := (if key in sums then sums[key] else 0) + es[i].amount];
      }
    }
    assert es[..|es|] == es;
  }

  lemma HasSettledStep(es: seq<Entry>, column: Column, i: nat)
    requires i < |es|
    ensures forall key: nat :: HasSettled(es[..i + 1], column, key)
              <==> HasSettled(es[..i], column, key) || (es[i].status.Settled? && KeyOf(es[i], column) == key)
  {
    forall key: nat ensures HasSettled(es[..i + 1], column, key)
              <==> HasSettled(es[..i], column, key) || (es[i].status.Settled? && KeyOf(es[i], column) == key)
    {
      if HasSettled(es[..i], column, key) {
        var k :| 0 <= k < i && es[..i][k].status.Settled? && KeyOf(es[..i][k], column) == key;
        assert es[..i + 1][k] == es[..i][k];
      }
      if es[i].status.Settled? && KeyOf(es[i], column) == key {
        assert es[..i + 1][i] == es[i];
      }
      if HasSettled(es[..i + 1], column, key) {
        var k :| 0 <= k < i + 1 && es[..i + 1][k].status.Settled? && KeyOf(es[..i + 1][k], column) == key;
        if k < i {
          assert es[..i][k] == es[..i + 1][k];
        }
      }
    }
  }

  /** The wallets among the first slots. */
  function WalletsBelow(db: Db, n: nat): set<nat> {
    set w: nat | w < n && w !in db.emptySlots
  }

  lemma WalletsStep(db: Db, n: nat)
    ensures WalletsBelow(db, n + 1) == WalletsBelow(db, n) + (if n in db.emptySlots then {} else {n})
  {
  }

  /** Exactly the drifts the naive per-wallet and per-group sums would find. */
  ghost predicate Exposes(db: Db, d: Drift) {
    var es := Entries(db.ledger);
    match d
    case WalletDrift(w, balance, settled) =>
      && w < |db.wallets| && w !in db.emptySlots
      && balance == db.wallets[w].balance != settled && settled == GroupSum(es, ByWallet, w)
    case GroupDrift(c, total) =>
      total == GroupSum(es, ByCorrelation, c) != 0
  }

  lemma NoWalletsYet(db: Db)
    ensures WalletsBelow(db, 0) == {}
  {
  }

  lemma NotYet(db: Db, n: nat)
    ensures n !in WalletsBelow(db, n)
  {
  }

  /** `reconcile`: the report lists every drift of the naive check, and no other. */
  method Check(db: Db) returns (report: Report)
    ensures forall d :: d in report.drifts <==> Exposes(db, d)
    ensures report.walletsChecked == |WalletsBelow(db, |db.wallets|)|
    ensures exists groups: set<nat> ::
              && report.correlationsChecked == |groups|
              && forall c: nat :: c in groups <==> HasSettled(Entries(db.ledger), ByCorrelation, c)
  {
    hide SumBy, HasSettled, WalletsBelow;
    var es := Entries(db.ledger);
    var settledSums := SettledSums(es, ByWallet);
    var drifts: seq<Drift>, checked := [], 0;
    assert WalletsBelow(db, 0) == {} by { NoWalletsYet(db); }
    for w := 0 to |db.wallets|
      invariant checked == |WalletsBelow(db, w)|
      invariant forall d :: d in drifts <==> d.WalletDrift? && d.wallet < w && Exposes(db, d)
    {
      WalletsStep(db, w);
      NotYet(db, w);
      if w !in db.emptySlots {
        checked := checked + 1;
        var settled := if w in settledSums then settledSums[w] else 0;
        ghost var before, drift := drifts, WalletDrift(w, db.wallets[w].balance, settled);
        if settled != db.wallets[w].balance {
          drifts := drifts + [WalletDrift(w, db.wallets[w].balance, settled)];
        }
        assert forall d :: d in drifts <==> d in before || (settled != db.wallets[w].balance && d == drift);
      }
    }
    var groupSums := SettledSums(es, ByCorrelation);
    var violators := map c | c in groupSums && groupSums[c] != 0 :: groupSums[c];
    var rest := violators.Keys;
    while rest != {}
      invariant rest <= violators.Keys
      invariant forall d :: d in drifts <==>
                  && Exposes(db, d)
                  && (d.WalletDrift? || (d.correlation in violators && d.correlation !in rest))
    {
      var c :| c in rest;
      ghost var before := drifts;
      drifts := drifts + [GroupDrift(c, violators[c])];
      rest := rest - {c};
      assert forall d :: d in drifts <==> d in before || d == GroupDrift(c, violators[c]);
    }
    report := Report(checked, |groupSums.Keys|, drifts);
  }

  /** The two documented conditions. */
  ghost predicate Reconciles(db: Db) {
    var es := Entries(db.ledger);
    && (forall w :: 0 <= w < |db.wallets| && w !in db.emptySlots ==>
          db.wallets[w].balance == SumBy(es, OnWallet(w)))
    && (forall c: nat :: SumBy(es, OnCorrelation(c)) == 0)
  }

  /** A report is clean exactly when every balance is its settled sum and every group sums to zero. */
  lemma CleanMeansReconciled(db: Db, drifts: seq<Drift>)
    requires forall d :: d in drifts <==> Exposes(db, d)
    ensures drifts == [] <==> Reconciles(db)
  {
    var es := Entries(db.ledger);
    if drifts == [] {
      forall w | 0 <= w < |db.wallets| && w !in db.emptySlots ensures db.wallets[w].balance == SumBy(es, OnWallet(w)) {
        assert WalletDrift(w, db.wallets[w].balance, GroupSum(es, ByWallet, w)) !in drifts;
      }
      forall c: nat ensures SumBy(es, OnCorrelation(c)) == 0 {
        assert GroupDrift(c, GroupSum(es, ByCorrelation, c)) !in drifts;
      }
    } else {
      assert drifts[0] in drifts;
    }
  }

  /** Reconciliation pages nobody, whatever the system has been through. */
  lemma EveryRunReconciles(calls: seq<Request>)
    requires AllValid(calls)
    ensures Reconciles(Run(Seeded(), calls))
  {
    hide Run, FlowLaw, EscrowFunded, EscrowOnce, IntentLaw, HoldLaw, KeyLaw, TopupOnce, PayoutOnce, PromoLaw,
         Overdrawn, SumBy;
    RunKeepsInv(calls);
  }
}
