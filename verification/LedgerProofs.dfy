/** What posting a group does to the ledger law. */
module LedgerProofs {
  import opened Results
  import opened Sums
  import opened Money
  import opened Tables
  import opened Ledger
  import opened Laws

  /** `after` is `before` with the entries `es` posted: balances move by the posted sums, holds stay. */
  ghost predicate Moved(before: seq<Wallet>, after: seq<Wallet>, es: seq<Entry>) {
    && |after| == |before|
    && forall w :: 0 <= w < |before| ==>
         after[w] == Wallet(before[w].balance + SumBy(es, OnWallet(w)), before[w].held)
  }

  lemma RowsEntries(wallets: seq<Wallet>, legs: seq<Leg>, correlation: nat)
    requires WalletsExist(|wallets|, legs)
    ensures Entries(RowsOf(wallets, legs, correlation)) == PostedAll(legs, correlation)
  {
    hide Quantize, ApplyLegs;
  }

  lemma ApplyLegsMoved(wallets: seq<Wallet>, legs: seq<Leg>, correlation: nat)
    requires WalletsExist(|wallets|, legs) && AllOnGrid(legs)
    ensures Moved(wallets, ApplyLegs(wallets, legs), PostedAll(legs, correlation))
  {
    forall w | 0 <= w < |wallets|
      ensures ApplyLegs(wallets, legs)[w]
           == Wallet(wallets[w].balance + SumBy(PostedAll(legs, correlation), OnWallet(w)), wallets[w].held)
    {
      ApplyLegsMoves(wallets, legs, correlation, w);
    }
  }

  lemma SumsExtend(wallets: seq<Wallet>, es: seq<Entry>, after: seq<Wallet>, posted: seq<Entry>)
    requires BalancesAreSums(wallets, es) && Moved(wallets, after, posted)
    ensures BalancesAreSums(after, es + posted)
  {
    forall w | 0 <= w < |after| ensures after[w].balance == SumBy(es + posted, OnWallet(w)) {
      SumByConcat(es, posted, OnWallet(w));
    }
  }

  lemma RunningExtends(wallets: seq<Wallet>, ledger: seq<Row>, legs: seq<Leg>, correlation: nat)
    requires WalletsExist(|wallets|, legs) && AllOnGrid(legs)
    requires BalancesAreSums(wallets, Entries(ledger)) && RunningBalances(|wallets|, ledger)
    ensures RunningBalances(|wallets|, ledger + RowsOf(wallets, legs, correlation))
  {
    var n, rows, es, posted := |ledger|, RowsOf(wallets, legs, correlation), Entries(ledger),
        PostedAll(legs, correlation);
    var all := ledger + rows;
    EntriesConcat(ledger, rows);
    RowsEntries(wallets, legs, correlation);
    forall i | 0 <= i < |all|
      ensures all[i].entry.wallet < |wallets|
      ensures all[i].balanceAfter == SumBy(Entries(all)[..i + 1], OnWallet(all[i].entry.wallet))
    {
      if i < n {
        assert Entries(all)[..i + 1] == es[..i + 1];
      } else {
        var k, w := i - n, all[i].entry.wallet;
        assert all[i] == rows[k];
        assert Entries(all)[..i + 1] == es + PostedAll(legs[..k + 1], correlation);
        SumByConcat(es, PostedAll(legs[..k + 1], correlation), OnWallet(w));
        ApplyLegsMoves(wallets, legs[..k + 1], correlation, w);
      }
    }
  }

  lemma {:induction false} GroupSum(es: seq<Entry>, correlation: nat, c: nat)
    requires forall i :: 0 <= i < |es| ==> es[i].correlation == correlation && es[i].status.Settled?
    ensures SumBy(es, OnCorrelation(c)) == if c == correlation then SumBy(es, Everything()) else 0
  {
    if |es| > 0 {
      GroupSum(es[..|es| - 1], correlation, c);
    }
  }

  /** Validation and the grid make a group sum to exactly zero. */
  lemma PostedSumsToZero(legs: seq<Leg>, correlation: nat)
    requires WellFormed(legs) && AllOnGrid(legs)
    ensures SumBy(PostedAll(legs, correlation), Everything()) == 0
  {
    hide Quantize;
    PostedTotal(legs, correlation);
    QuantizeOnGrid(SumBy(PostedAll(legs, correlation), Everything()));
  }

  lemma GroupsExtend(es: seq<Entry>, legs: seq<Leg>, correlation: nat)
    requires GroupsBalance(es) && WellFormed(legs) && AllOnGrid(legs)
    ensures GroupsBalance(es + PostedAll(legs, correlation))
  {
    hide Quantize;
    var posted := PostedAll(legs, correlation);
    PostedSumsToZero(legs, correlation);
    forall c: nat ensures SumBy(es + posted, OnCorrelation(c)) == 0 {
      SumByConcat(es, posted, OnCorrelation(c));
      GroupSum(posted, correlation, c);
    }
  }

  /** Summed over all wallets, the posted sums are the whole group. */
  lemma {:induction false} BalancesMove(before: seq<Wallet>, after: seq<Wallet>, es: seq<Entry>)
    requires Moved(before, after, es)
    requires forall i :: 0 <= i < |es| ==> es[i].wallet < |before| && es[i].status.Settled?
    ensures Sum(Balances(after)) == Sum(Balances(before)) + SumBy(es, Everything())
    decreases |es|
  {
    if |es| == 0 {
      assert Balances(after) == Balances(before);
    } else {
      var last := es[|es| - 1];
      var w := last.wallet;
      var middle := after[w := after[w].(balance := after[w].balance - last.amount)];
      BalancesMove(before, middle, es[..|es| - 1]);
      assert Balances(middle) == Balances(after)[w := after[w].balance - last.amount];
      SumUpdate(Balances(after), w, after[w].balance - last.amount);
    }
  }

  lemma KeysExtend(es: seq<Entry>, legs: seq<Leg>, correlation: nat)
    requires KeysUnique(es) && KeysDistinct(legs) && !AnyKeyExists(es, legs)
    ensures KeysUnique(es + PostedAll(legs, correlation))
  {
    hide Quantize;
    var all := es + PostedAll(legs, correlation);
    forall i, j | 0 <= i < |es| <= j < |all| && all[i].key.Some? ensures all[i].key != all[j].key {
      assert all[j].key == legs[j - |es|].key;
    }
    forall i, j | |es| <= i < j < |all| && all[i].key.Some? ensures all[i].key != all[j].key {
      assert all[j].key == legs[j - |es|].key && all[i].key == legs[i - |es|].key;
    }
  }

  /** Posting any validated on-grid group keeps the ledger law. */
  lemma PostGroupKeepsLedgerLaw(db: Db, legs: seq<Leg>, correlation: nat)
    requires LedgerLaw(db.wallets, db.ledger) && AllOnGrid(legs)
    requires PostGroup(db, legs, correlation).Ok? && PostGroup(db, legs, correlation).value.1
    ensures var db' := PostGroup(db, legs, correlation).value.0;
            && LedgerLaw(db'.wallets, db'.ledger)
            && Entries(db'.ledger) == Entries(db.ledger) + PostedAll(legs, correlation)
            && Moved(db.wallets, db'.wallets, PostedAll(legs, correlation))
            && db' == db.(wallets := db'.wallets, ledger := db'.ledger)
  {
    hide Quantize, SumBy, RowsOf, ApplyLegs, RawTotal;
    var es, posted, rows := Entries(db.ledger), PostedAll(legs, correlation), RowsOf(db.wallets, legs, correlation);
    EntriesConcat(db.ledger, rows);
    RowsEntries(db.wallets, legs, correlation);
    ApplyLegsMoved(db.wallets, legs, correlation);
    SumsExtend(db.wallets, es, ApplyLegs(db.wallets, legs), posted);
    RunningExtends(db.wallets, db.ledger, legs, correlation);
    GroupsExtend(es, legs, correlation);
    PostedSumsToZero(legs, correlation);
    BalancesMove(db.wallets, ApplyLegs(db.wallets, legs), posted);
    KeysExtend(es, legs, correlation);
  }
}
