/** app/services/money_service.py:30-162: posting a double-entry group, as a function of the wallet and
    ledger tables. */
module Ledger {
  import opened Results
  import opened Sums
  import opened Money
  import opened Tables

  /** One side of a movement. The amount is an exact Decimal, in halalas. */
  datatype Leg = Leg(
    wallet: nat, amount: real, kind: TransactionType,
    key: Option<Key>, order: Option<nat>, invoice: Option<nat>, intent: Option<nat>)

  // ------------------------------------------------------------------ reading the ledger

  function Entries(ledger: seq<Row>): (es: seq<Entry>)
    ensures |es| == |ledger|
  {
    seq(|ledger|, i requires 0 <= i < |ledger| => ledger[i].entry)
  }

  function SumBy(es: seq<Entry>, f: Entry -> int): int {
    if |es| == 0 then 0 else SumBy(es[..|es| - 1], f) + f(es[|es| - 1])
  }

  /** The amounts of the entries a predicate selects, oldest first. */
  function Trail(es: seq<Entry>, p: Entry -> bool): seq<int> {
    if |es| == 0 then []
    else
      var last := es[|es| - 1];
      Trail(es[..|es| - 1], p) + (if p(last) then [last.amount] else [])
  }

  function OnWallet(w: nat): Entry -> int {
    (e: Entry) => if e.wallet == w && e.status.Settled? then e.amount else 0
  }

  function OnCorrelation(c: nat): Entry -> int {
    (e: Entry) => if e.correlation == c && e.status.Settled? then e.amount else 0
  }

  function Everything(): Entry -> int {
    (e: Entry) => if e.status.Settled? then e.amount else 0
  }

  predicate KeyUsed(es: seq<Entry>, key: Key) {
    exists i :: 0 <= i < |es| && es[i].key == Some(key)
  }

  // ------------------------------------------------------------------ posting a group

  function RawTotal(legs: seq<Leg>): real {
    if |legs| == 0 then 0.0 else RawTotal(legs[..|legs| - 1]) + legs[|legs| - 1].amount
  }

  /** `_validate_legs`: two legs or more, a raw total that rounds to zero, no leg that rounds to zero. */
  predicate WellFormed(legs: seq<Leg>) {
    && |legs| >= 2
    && Quantize(RawTotal(legs)) == 0
    && forall i :: 0 <= i < |legs| ==> Quantize(legs[i].amount) != 0
  }

  predicate AnyKeyExists(es: seq<Entry>, legs: seq<Leg>) {
    exists i :: 0 <= i < |legs| && legs[i].key.Some? && KeyUsed(es, legs[i].key.value)
  }

  predicate WalletsExist(n: nat, legs: seq<Leg>) {
    forall i :: 0 <= i < |legs| ==> legs[i].wallet < n
  }

  /** uq_transactions_idempotency inside the group itself. */
  predicate KeysDistinct(legs: seq<Leg>) {
    forall i, j :: 0 <= i < j < |legs| && legs[i].key.Some? ==> legs[i].key != legs[j].key
  }

  function Posted(leg: Leg, correlation: nat): Entry {
    Entry(leg.wallet, Quantize(leg.amount), leg.kind, Settled, correlation, leg.key, leg.order, leg.invoice, leg.intent)
  }

  function PostedAll(legs: seq<Leg>, correlation: nat): (es: seq<Entry>)
    ensures |es| == |legs|
  {
    seq(|legs|, i requires 0 <= i < |legs| => Posted(legs[i], correlation))
  }

  function ApplyLegs(wallets: seq<Wallet>, legs: seq<Leg>): (r: seq<Wallet>)
    requires WalletsExist(|wallets|, legs)
    ensures |r| == |wallets|
  {
    if |legs| == 0 then wallets
    else
      var before, leg := ApplyLegs(wallets, legs[..|legs| - 1]), legs[|legs| - 1];
      var wallet := before[leg.wallet];
      before[leg.wallet := wallet.(balance := Quantize(wallet.balance as real + leg.amount))]
  }

  function RowsOf(wallets: seq<Wallet>, legs: seq<Leg>, correlation: nat): (rows: seq<Row>)
    requires WalletsExist(|wallets|, legs)
    ensures |rows| == |legs|
  {
    seq(|legs|, i requires 0 <= i < |legs| =>
      Row(Posted(legs[i], correlation), ApplyLegs(wallets, legs[..i + 1])[legs[i].wallet].balance))
  }

  /** chk_balance_non_negative, from which the gateway and revenue wallets are exempt. */
  predicate Overdrawn(wallets: seq<Wallet>) {
    exists w :: 0 <= w < |wallets| && w != GATEWAY && w != REVENUE && (wallets[w].balance < 0 || wallets[w].held < 0)
  }

  /** The outcome of `post_group`: the new tables, and whether the group was posted or recognised as a
      replay. */
  function PostGroup(db: Db, legs: seq<Leg>, correlation: nat): Result<(Db, bool)> {
    if !WellFormed(legs) then Err(LedgerImbalance)
    else if AnyKeyExists(Entries(db.ledger), legs) then Ok((db, false))
    else if !WalletsExist(|db.wallets|, legs) then Err(NotFound)
    else if Overdrawn(ApplyLegs(db.wallets, legs)) then Err(NegativeBalance)
    else if !KeysDistinct(legs) then Err(UniqueViolation)
    else Ok((db.(wallets := ApplyLegs(db.wallets, legs),
                 ledger := db.ledger + RowsOf(db.wallets, legs, correlation)), true))
  }

  // ------------------------------------------------------------------ algebra of sums and trails

  lemma {:induction false} SumByConcat(a: seq<Entry>, b: seq<Entry>, f: Entry -> int)
    ensures SumBy(a + b, f) == SumBy(a, f) + SumBy(b, f)
  {
    if |b| == 0 {
      assert a + b == a;
    } else {
      SumByConcat(a, b[..|b| - 1], f);
      assert (a + b)[..|a + b| - 1] == a + b[..|b| - 1];
    }
  }

  lemma {:induction false} TrailConcat(a: seq<Entry>, b: seq<Entry>, p: Entry -> bool)
    ensures Trail(a + b, p) == Trail(a, p) + Trail(b, p)
  {
    if |b| == 0 {
      assert a + b == a;
    } else {
      TrailConcat(a, b[..|b| - 1], p);
      assert (a + b)[..|a + b| - 1] == a + b[..|b| - 1];
    }
  }

  lemma SumByOne(e: Entry, f: Entry -> int)
    ensures SumBy([e], f) == f(e)
  {
    assert SumBy([e][..0], f) == 0;
  }

  lemma TrailOne(e: Entry, p: Entry -> bool)
    ensures Trail([e], p) == if p(e) then [e.amount] else []
  {
    assert Trail([e][..0], p) == [];
  }

  lemma EntriesConcat(a: seq<Row>, b: seq<Row>)
    ensures Entries(a + b) == Entries(a) + Entries(b)
  {
  }

  // ------------------------------------------------------------------ what a posted group changes

  ghost predicate AllOnGrid(legs: seq<Leg>) {
    forall i :: 0 <= i < |legs| ==> OnGrid(legs[i].amount)
  }

  /** On-grid legs move each wallet by exactly the sum posted to it, and nothing else. */
  lemma {:induction false} ApplyLegsMoves(wallets: seq<Wallet>, legs: seq<Leg>, correlation: nat, w: nat)
    requires WalletsExist(|wallets|, legs) && AllOnGrid(legs) && w < |wallets|
    ensures ApplyLegs(wallets, legs)[w]
         == Wallet(wallets[w].balance + SumBy(PostedAll(legs, correlation), OnWallet(w)), wallets[w].held)
  {
    hide Quantize;
    if |legs| > 0 {
      var init, leg := legs[..|legs| - 1], legs[|legs| - 1];
      ApplyLegsMoves(wallets, init, correlation, w);
      assert PostedAll(legs, correlation)[..|legs| - 1] == PostedAll(init, correlation);
      GridAdd(ApplyLegs(wallets, init)[leg.wallet].balance, leg.amount);
    }
  }

  /** On-grid legs that pass validation sum to exactly zero once posted. */
  lemma {:induction false} PostedTotal(legs: seq<Leg>, correlation: nat)
    requires AllOnGrid(legs)
    ensures RawTotal(legs) == SumBy(PostedAll(legs, correlation), Everything()) as real
  {
    hide Quantize;
    if |legs| > 0 {
      var init := legs[..|legs| - 1];
      PostedTotal(init, correlation);
      GridAdd(0, legs[|legs| - 1].amount);
      assert PostedAll(legs, correlation)[..|legs| - 1] == PostedAll(init, correlation);
    }
  }

  /** Off the grid neither half holds: these legs pass validation, and post a group that does not sum to
      zero and leaves a balance that differs from the sum of its rows. */
  lemma OffGridLegsDrift(db: Db)
    requires |db.wallets| >= 4 && db.wallets[GATEWAY].balance == -1
    ensures var legs := [Leg(GATEWAY, 0.5, Topup, None, None, None, None),
                         Leg(ESCROW, 0.5, Topup, None, None, None, None),
                         Leg(REVENUE, -1.0, Topup, None, None, None, None)];
            && WellFormed(legs)
            && SumBy(PostedAll(legs, 0), Everything()) == 1
            && ApplyLegs(db.wallets, legs)[GATEWAY].balance
               != db.wallets[GATEWAY].balance + SumBy(PostedAll(legs, 0), OnWallet(GATEWAY))
  {
    var a, b := Leg(GATEWAY, 0.5, Topup, None, None, None, None), Leg(ESCROW, 0.5, Topup, None, None, None, None);
    var c := Leg(REVENUE, -1.0, Topup, None, None, None, None);
    RawTotalStep([], a);
    RawTotalStep([a], b);
    RawTotalStep([a, b], c);
    var es := PostedAll([a, b, c], 0);
    assert es == [Posted(a, 0)] + [Posted(b, 0)] + [Posted(c, 0)];
    forall f: Entry -> int ensures SumBy(es, f) == f(Posted(a, 0)) + f(Posted(b, 0)) + f(Posted(c, 0)) {
      SumByConcat([Posted(a, 0)] + [Posted(b, 0)], [Posted(c, 0)], f);
      SumByConcat([Posted(a, 0)], [Posted(b, 0)], f);
    }
    assert [a, b, c][..2] == [a, b] && [a, b][..1] == [a];
    assert ApplyLegs(db.wallets, [a])[GATEWAY].balance == Quantize(-0.5);
  }

  lemma RawTotalStep(legs: seq<Leg>, leg: Leg)
    ensures RawTotal(legs + [leg]) == RawTotal(legs) + leg.amount
  {
    assert (legs + [leg])[..|legs|] == legs;
  }
}
