/** The effect of each MoneyService movement on balances, escrow and key histories. */
module Movements {
  import opened Results
  import opened Sums
  import opened Money
  import opened Tables
  import opened Ledger
  import opened MoneyOps
  import opened Laws
  import opened LedgerProofs

  /** How far one wallet moves. */
  datatype Slot = Slot(wallet: nat, amount: int)

  /** A movement: how far up to four wallets move, the escrow, top-up and payout history it extends, and
      the idempotency key it spends. */
  datatype Movement = Movement(
    a: Slot, b: Slot, c: Slot, d: Slot,
    escrow: Option<(nat, int)>, topup: Option<(nat, int)>, payout: Option<(nat, int)>, key: Key)

  function At(w: nat, s: Slot): int {
    if w == s.wallet then s.amount else 0
  }

  function Delta(m: Movement, w: nat): int {
    At(w, m.a) + At(w, m.b) + At(w, m.c) + At(w, m.d)
  }

  const IDLE := Slot(0, 0)

  function Extension(at: Option<(nat, int)>, id: nat): seq<int> {
    if at.Some? && at.value.0 == id then [at.value.1] else []
  }

  /** The posted entries amount to exactly this movement. */
  ghost predicate Realises(es: seq<Entry>, m: Movement) {
    && (forall w: nat :: SumBy(es, OnWallet(w)) == Delta(m, w))
    && (forall o: nat :: Trail(es, EscrowOf(o)) == Extension(m.escrow, o))
    && (forall j: nat :: Trail(es, TopupOf(j)) == Extension(m.topup, j))
    && (forall k: nat :: Trail(es, PayoutOf(k)) == Extension(m.payout, k))
    && (forall k: Key :: KeyUsed(es, k) <==> k == m.key)
  }

  /** The histories after a movement are the histories before it, extended by it. */
  ghost predicate Extended(es: seq<Entry>, es': seq<Entry>, m: Movement) {
    && (forall o: nat :: Trail(es', EscrowOf(o)) == Trail(es, EscrowOf(o)) + Extension(m.escrow, o))
    && (forall j: nat :: Trail(es', TopupOf(j)) == Trail(es, TopupOf(j)) + Extension(m.topup, j))
    && (forall k: nat :: Trail(es', PayoutOf(k)) == Trail(es, PayoutOf(k)) + Extension(m.payout, k))
    && (forall k: Key :: KeyUsed(es', k) <==> KeyUsed(es, k) || k == m.key)
  }

  ghost predicate WalletsMoved(before: seq<Wallet>, after: seq<Wallet>, m: Movement) {
    && |after| == |before|
    && forall w :: 0 <= w < |before| ==> after[w] == Wallet(before[w].balance + Delta(m, w), before[w].held)
  }

  /** `db'` is `db` with the movement posted, and nothing else changed. */
  ghost predicate Effect(db: Db, db': Db, m: Movement) {
    && db' == db.(wallets := db'.wallets, ledger := db'.ledger)
    && LedgerLaw(db'.wallets, db'.ledger)
    && WalletsMoved(db.wallets, db'.wallets, m)
    && Extended(Entries(db.ledger), Entries(db'.ledger), m)
  }

  lemma ExtendedBy(es: seq<Entry>, posted: seq<Entry>, m: Movement)
    requires Realises(posted, m)
    ensures Extended(es, es + posted, m)
  {
    forall o: nat ensures Trail(es + posted, EscrowOf(o)) == Trail(es, EscrowOf(o)) + Extension(m.escrow, o) {
      TrailConcat(es, posted, EscrowOf(o));
    }
    forall j: nat ensures Trail(es + posted, TopupOf(j)) == Trail(es, TopupOf(j)) + Extension(m.topup, j) {
      TrailConcat(es, posted, TopupOf(j));
    }
    forall k: nat ensures Trail(es + posted, PayoutOf(k)) == Trail(es, PayoutOf(k)) + Extension(m.payout, k) {
      TrailConcat(es, posted, PayoutOf(k));
    }
    forall k: Key ensures KeyUsed(es + posted, k) <==> KeyUsed(es, k) || k == m.key {
      KeyUsedConcat(es, posted, k);
    }
  }

  lemma KeyUsedConcat(a: seq<Entry>, b: seq<Entry>, k: Key)
    ensures KeyUsed(a + b, k) <==> KeyUsed(a, k) || KeyUsed(b, k)
  {
    var all := a + b;
    if KeyUsed(a, k) {
      var i :| 0 <= i < |a| && a[i].key == Some(k);
      assert all[i].key == Some(k);
    }
    if KeyUsed(b, k) {
      var i :| 0 <= i < |b| && b[i].key == Some(k);
      assert all[|a| + i].key == Some(k);
    }
  }

  /** Every leg a caller builds is on the grid, and at most one carries the movement's key. */
  ghost predicate Postable(legs: seq<Leg>, m: Movement, correlation: nat, walletCount: nat) {
    && WellFormed(legs) && AllOnGrid(legs) && KeysDistinct(legs) && WalletsExist(walletCount, legs)
    && Realises(PostedAll(legs, correlation), m)
  }

  /** No non-exempt wallet is taken below zero. */
  ghost predicate Covered(wallets: seq<Wallet>, m: Movement) {
    forall w :: 0 <= w < |wallets| && w != GATEWAY && w != REVENUE ==>
      wallets[w].balance + Delta(m, w) >= 0 && wallets[w].held >= 0
  }

  /** A postable, covered movement whose key is unspent is posted, with exactly its effect. */
  lemma PostHasEffect(db: Db, legs: seq<Leg>, m: Movement)
    requires LedgerLaw(db.wallets, db.ledger) && Postable(legs, m, |db.ledger|, |db.wallets|)
    requires !KeyUsed(Entries(db.ledger), m.key) && Covered(db.wallets, m)
    ensures var r := Post(db, legs);
            r.Ok? && r.value.1 && Effect(db, r.value.0, m)
  {
    hide Quantize, ApplyLegs, RowsOf, SumBy, Trail, RawTotal;
    var es, posted := Entries(db.ledger), PostedAll(legs, |db.ledger|);
    forall i | 0 <= i < |legs| && legs[i].key.Some? ensures !KeyUsed(es, legs[i].key.value) {
      assert posted[i].key == Some(legs[i].key.value);
      assert KeyUsed(posted, legs[i].key.value);
    }
    ApplyLegsMoved(db.wallets, legs, |db.ledger|);
    PostGroupKeepsLedgerLaw(db, legs, |db.ledger|);
    ExtendedBy(es, posted, m);
  }

  // ------------------------------------------------------------------ groups of up to four legs

  lemma RawTotalConcat(a: seq<Leg>, b: seq<Leg>)
    ensures RawTotal(a + b) == RawTotal(a) + RawTotal(b)
    decreases |b|
  {
    if |b| == 0 {
      assert a + b == a;
    } else {
      RawTotalConcat(a, b[..|b| - 1]);
      assert (a + b)[..|a + b| - 1] == a + b[..|b| - 1];
    }
  }

  lemma RawTotalOne(leg: Leg)
    ensures RawTotal([leg]) == leg.amount
  {
    RawTotalStep([], leg);
    assert [] + [leg] == [leg];
  }

  /** At most one leg, as the services append them. */
  ghost predicate AtMostOne(legs: seq<Leg>) {
    |legs| <= 1
  }

  ghost function One(legs: seq<Leg>, correlation: nat, f: Entry -> int): int
    requires AtMostOne(legs)
  {
    if |legs| == 0 then 0 else f(Posted(legs[0], correlation))
  }

  ghost function OneTrail(legs: seq<Leg>, correlation: nat, p: Entry -> bool): seq<int>
    requires AtMostOne(legs)
  {
    if |legs| == 1 && p(Posted(legs[0], correlation)) then [Quantize(legs[0].amount)] else []
  }

  lemma FourSum(a: seq<Leg>, b: seq<Leg>, c: seq<Leg>, d: seq<Leg>, n: nat, f: Entry -> int)
    requires AtMostOne(a) && AtMostOne(b) && AtMostOne(c) && AtMostOne(d)
    ensures SumBy(PostedAll(a + b + c + d, n), f) == One(a, n, f) + One(b, n, f) + One(c, n, f) + One(d, n, f)
  {
    hide Quantize;
    OneSum(a, n, f); OneSum(b, n, f); OneSum(c, n, f); OneSum(d, n, f);
    PostedConcat(a, b, n); PostedConcat(a + b, c, n); PostedConcat(a + b + c, d, n);
    SumByConcat(PostedAll(a, n), PostedAll(b, n), f);
    SumByConcat(PostedAll(a + b, n), PostedAll(c, n), f);
    SumByConcat(PostedAll(a + b + c, n), PostedAll(d, n), f);
  }

  lemma FourTrail(a: seq<Leg>, b: seq<Leg>, c: seq<Leg>, d: seq<Leg>, n: nat, p: Entry -> bool)
    requires AtMostOne(a) && AtMostOne(b) && AtMostOne(c) && AtMostOne(d)
    ensures Trail(PostedAll(a + b + c + d, n), p)
         == OneTrail(a, n, p) + OneTrail(b, n, p) + OneTrail(c, n, p) + OneTrail(d, n, p)
  {
    hide Quantize;
    TrailSingle(a, n, p); TrailSingle(b, n, p); TrailSingle(c, n, p); TrailSingle(d, n, p);
    PostedConcat(a, b, n); PostedConcat(a + b, c, n); PostedConcat(a + b + c, d, n);
    TrailConcat(PostedAll(a, n), PostedAll(b, n), p);
    TrailConcat(PostedAll(a + b, n), PostedAll(c, n), p);
    TrailConcat(PostedAll(a + b + c, n), PostedAll(d, n), p);
  }

  lemma OneSum(legs: seq<Leg>, n: nat, f: Entry -> int)
    requires AtMostOne(legs)
    ensures SumBy(PostedAll(legs, n), f) == One(legs, n, f)
  {
    hide Quantize;
    if |legs| == 1 {
      assert PostedAll(legs, n) == [Posted(legs[0], n)];
      SumByOne(Posted(legs[0], n), f);
    }
  }

  lemma TrailSingle(legs: seq<Leg>, n: nat, p: Entry -> bool)
    requires AtMostOne(legs)
    ensures Trail(PostedAll(legs, n), p) == OneTrail(legs, n, p)
  {
    hide Quantize;
    if |legs| == 1 {
      assert PostedAll(legs, n) == [Posted(legs[0], n)];
      TrailOne(Posted(legs[0], n), p);
    }
  }

  lemma PostedConcat(a: seq<Leg>, b: seq<Leg>, n: nat)
    ensures PostedAll(a + b, n) == PostedAll(a, n) + PostedAll(b, n)
  {
    hide Quantize;
  }

  ghost function OneRaw(legs: seq<Leg>): real
    requires AtMostOne(legs)
  {
    if |legs| == 0 then 0.0 else legs[0].amount
  }

  lemma FourRaw(a: seq<Leg>, b: seq<Leg>, c: seq<Leg>, d: seq<Leg>)
    requires AtMostOne(a) && AtMostOne(b) && AtMostOne(c) && AtMostOne(d)
    ensures RawTotal(a + b + c + d) == OneRaw(a) + OneRaw(b) + OneRaw(c) + OneRaw(d)
  {
    OneRawTotal(a); OneRawTotal(b); OneRawTotal(c); OneRawTotal(d);
    RawTotalConcat(a, b); RawTotalConcat(a + b, c); RawTotalConcat(a + b + c, d);
  }

  lemma OneRawTotal(legs: seq<Leg>)
    requires AtMostOne(legs)
    ensures RawTotal(legs) == OneRaw(legs)
  {
    if |legs| == 1 {
      assert legs == [legs[0]];
      RawTotalOne(legs[0]);
    }
  }

  /** A leg that moves a wallet as a slot says, or no leg for a slot that moves nothing. */
  ghost predicate LegIs(legs: seq<Leg>, s: Slot, walletCount: nat) {
    if s.amount == 0 then legs == []
    else |legs| == 1 && legs[0].wallet == s.wallet < walletCount && legs[0].amount == s.amount as real
  }

  /** A leg that carries no key and extends no history. */
  ghost predicate Silent(legs: seq<Leg>) {
    legs == [] || (legs[0].key.None? && legs[0].wallet != ESCROW && (legs[0].kind.Topup? ==> legs[0].wallet == GATEWAY))
  }

  /** The leg that carries the key, and with it whatever the movement adds to a history. */
  ghost predicate Carries(legs: seq<Leg>, m: Movement) {
    && |legs| == 1 && legs[0].key == Some(m.key)
    && (forall o: nat, n: nat :: OneTrail(legs, n, EscrowOf(o)) == Extension(m.escrow, o))
    && (forall j: nat, n: nat :: OneTrail(legs, n, TopupOf(j)) == Extension(m.topup, j))
    && (forall k: nat, n: nat :: OneTrail(legs, n, PayoutOf(k)) == Extension(m.payout, k))
  }

  lemma SilentTrail(legs: seq<Leg>, n: nat)
    requires AtMostOne(legs) && Silent(legs)
    ensures forall o: nat :: OneTrail(legs, n, EscrowOf(o)) == []
    ensures forall j: nat :: OneTrail(legs, n, TopupOf(j)) == []
    ensures forall k: nat :: OneTrail(legs, n, PayoutOf(k)) == []
  {
    hide Quantize;
  }

  lemma SlotSum(legs: seq<Leg>, s: Slot, walletCount: nat, n: nat, w: nat)
    requires LegIs(legs, s, walletCount)
    ensures One(legs, n, OnWallet(w)) == At(w, s)
    ensures OneRaw(legs) == s.amount as real
    ensures forall i :: 0 <= i < |legs| ==> OnGrid(legs[i].amount) && Quantize(legs[i].amount) == s.amount
  {
    hide Quantize;
    QuantizeOnGrid(s.amount);
  }

  ghost predicate FourLegs(a: seq<Leg>, b: seq<Leg>, c: seq<Leg>, d: seq<Leg>, m: Movement, walletCount: nat) {
    && LegIs(a, m.a, walletCount) && LegIs(b, m.b, walletCount) && LegIs(c, m.c, walletCount)
        && LegIs(d, m.d, walletCount)
    && m.a.amount + m.b.amount + m.c.amount + m.d.amount == 0
    && |a| + |b| + |c| + |d| >= 2
    && Silent(b) && Silent(d) && ((Carries(a, m) && Silent(c)) || (Silent(a) && Carries(c, m)))
  }

  lemma FourRealises(a: seq<Leg>, b: seq<Leg>, c: seq<Leg>, d: seq<Leg>, m: Movement, n: nat, walletCount: nat)
    requires FourLegs(a, b, c, d, m, walletCount)
    ensures Realises(PostedAll(a + b + c + d, n), m)
  {
    hide Quantize, One, OneTrail, At, OnWallet, EscrowOf, TopupOf, PayoutOf;
    var es := PostedAll(a + b + c + d, n);
    forall w: nat ensures SumBy(es, OnWallet(w)) == Delta(m, w) {
      FourSum(a, b, c, d, n, OnWallet(w));
      SlotSum(a, m.a, walletCount, n, w); SlotSum(b, m.b, walletCount, n, w);
      SlotSum(c, m.c, walletCount, n, w); SlotSum(d, m.d, walletCount, n, w);
    }
    SilentTrail(b, n);
    SilentTrail(d, n);
    if Silent(a) {
      SilentTrail(a, n);
    } else {
      SilentTrail(c, n);
    }
    forall o: nat ensures Trail(es, EscrowOf(o)) == Extension(m.escrow, o) {
      FourTrail(a, b, c, d, n, EscrowOf(o));
    }
    forall j: nat ensures Trail(es, TopupOf(j)) == Extension(m.topup, j) {
      FourTrail(a, b, c, d, n, TopupOf(j));
    }
    forall k: nat ensures Trail(es, PayoutOf(k)) == Extension(m.payout, k) {
      FourTrail(a, b, c, d, n, PayoutOf(k));
    }
    FourKeys(a, b, c, d, m, n, walletCount);
  }

  lemma FourKeys(a: seq<Leg>, b: seq<Leg>, c: seq<Leg>, d: seq<Leg>, m: Movement, n: nat, walletCount: nat)
    requires FourLegs(a, b, c, d, m, walletCount)
    ensures forall k: Key :: KeyUsed(PostedAll(a + b + c + d, n), k) <==> k == m.key
    ensures KeysDistinct(a + b + c + d)
  {
    hide Quantize, OneTrail;
    var legs := a + b + c + d;
    var at := if Silent(a) then |a| + |b| else 0;
    assert PostedAll(legs, n)[at].key == Some(m.key);
    assert forall i :: 0 <= i < |legs| && i != at ==> legs[i].key.None?;
  }

  /** Legs that move wallets as a movement's slots say, exactly one of them carrying its key, are postable
      as that movement: validated, on the grid, and with just that effect. */
  lemma FourPostable(a: seq<Leg>, b: seq<Leg>, c: seq<Leg>, d: seq<Leg>, m: Movement, n: nat, walletCount: nat)
    requires FourLegs(a, b, c, d, m, walletCount)
    ensures Postable(a + b + c + d, m, n, walletCount)
  {
    hide Quantize, Realises, FourLegs, OnGrid;
    FourFit(a, b, c, d, m, n, walletCount);
    FourRealises(a, b, c, d, m, n, walletCount);
    FourKeys(a, b, c, d, m, n, walletCount);
  }

  ghost predicate Fit(legs: seq<Leg>, walletCount: nat) {
    forall i :: 0 <= i < |legs| ==>
      OnGrid(legs[i].amount) && Quantize(legs[i].amount) != 0 && legs[i].wallet < walletCount
  }

  lemma FourFit(a: seq<Leg>, b: seq<Leg>, c: seq<Leg>, d: seq<Leg>, m: Movement, n: nat, walletCount: nat)
    requires FourLegs(a, b, c, d, m, walletCount)
    ensures Fit(a + b + c + d, walletCount) && WellFormed(a + b + c + d)
  {
    hide Quantize, OnGrid, One, Carries, RawTotal;
    SlotSum(a, m.a, walletCount, n, 0); SlotSum(b, m.b, walletCount, n, 0);
    SlotSum(c, m.c, walletCount, n, 0); SlotSum(d, m.d, walletCount, n, 0);
    assert Fit(a, walletCount) && Fit(b, walletCount) && Fit(c, walletCount) && Fit(d, walletCount);
    FitConcat(a, b, walletCount); FitConcat(a + b, c, walletCount); FitConcat(a + b + c, d, walletCount);
    FourRaw(a, b, c, d);
    QuantizeOnGrid(0);
  }

  lemma FitConcat(x: seq<Leg>, y: seq<Leg>, walletCount: nat)
    requires Fit(x, walletCount) && Fit(y, walletCount)
    ensures Fit(x + y, walletCount)
  {
    hide Quantize, OnGrid;
  }

  // ------------------------------------------------------------------ the movements

  function FundMovement(customer: nat, fromWallet: int, fromGateway: int, invoice: nat, order: nat): Movement {
    Movement(Slot(customer, -fromWallet), Slot(GATEWAY, -fromGateway), Slot(ESCROW, fromWallet + fromGateway), IDLE,
             Some((order, fromWallet + fromGateway)), None, None, EscrowKey(invoice))
  }

  lemma FundPostable(customer: nat, fromWallet: int, fromGateway: int, invoice: nat, order: nat, intent: Option<nat>,
                     n: nat, walletCount: nat)
    requires SYSTEM_WALLETS <= customer < walletCount
    requires fromWallet >= 0 && fromGateway >= 0 && fromWallet + fromGateway > 0
    ensures Postable(FundLegs(customer, fromWallet, fromGateway, invoice, order, intent),
                     FundMovement(customer, fromWallet, fromGateway, invoice, order), n, walletCount)
  {
    hide Quantize;
    var legs := FundLegs(customer, fromWallet, fromGateway, invoice, order, intent);
    var a := if fromWallet > 0 then [PlainLeg(customer, -fromWallet, Payment, Some(order), Some(invoice), intent)]
        else [];
    var b := if fromGateway > 0 then [PlainLeg(GATEWAY, -fromGateway, Payment, Some(order), Some(invoice), intent)]
        else [];
    var c := [KeyedLeg(ESCROW, fromWallet + fromGateway, EscrowHold, EscrowKey(invoice), Some(order), Some(invoice),
        intent)];
    FourPostable(a, b, c, [], FundMovement(customer, fromWallet, fromGateway, invoice, order), n, walletCount);
    assert a + b + c + [] == legs;
  }

  function ReleaseMovement(order: nat, courier: nat, payout: int, tax: int, revenue: int): Movement {
    Movement(Slot(ESCROW, -(payout + tax + revenue)), Slot(courier, payout), Slot(TAX_PAYABLE, tax),
        Slot(REVENUE, revenue),
             Some((order, -(payout + tax + revenue))), None, None, ReleaseKey(order))
  }

  lemma ReleasePostable(order: nat, invoice: nat, courier: nat, payout: int, tax: int, revenue: int, n: nat,
      walletCount: nat)
    requires SYSTEM_WALLETS <= courier < walletCount
    requires payout != 0 && payout + tax + revenue != 0
    ensures Postable(ReleaseLegs(order, invoice, courier, payout, tax, revenue),
                     ReleaseMovement(order, courier, payout, tax, revenue), n, walletCount)
  {
    hide Quantize;
    var total := payout + tax + revenue;
    var a := [KeyedLeg(ESCROW, -total, EscrowRelease, ReleaseKey(order), Some(order), Some(invoice), None)];
    var b := [PlainLeg(courier, payout, EscrowRelease, Some(order), Some(invoice), None)];
    var c := if tax != 0 then [PlainLeg(TAX_PAYABLE, tax, TaxDue, Some(order), Some(invoice), None)] else [];
    var d := if revenue != 0 then [PlainLeg(REVENUE, revenue, CommissionFee, Some(order), Some(invoice), None)] else [];
    FourPostable(a, b, c, d, ReleaseMovement(order, courier, payout, tax, revenue), n, walletCount);
  }

  function RefundMovement(order: nat, customer: nat, amount: int): Movement {
    Movement(Slot(ESCROW, -amount), Slot(customer, amount), IDLE, IDLE,
             Some((order, -amount)), None, None, RefundKey(order))
  }

  lemma RefundPostable(order: nat, invoice: nat, customer: nat, amount: int, n: nat, walletCount: nat)
    requires SYSTEM_WALLETS <= customer < walletCount && amount != 0
    ensures Postable(RefundLegs(order, invoice, customer, amount), RefundMovement(order, customer, amount), n,
        walletCount)
  {
    hide Quantize;
    var a := [KeyedLeg(ESCROW, -amount, Refund, RefundKey(order), Some(order), Some(invoice), None)];
    var b := [PlainLeg(customer, amount, Refund, Some(order), Some(invoice), None)];
    FourPostable(a, b, [], [], RefundMovement(order, customer, amount), n, walletCount);
    assert a + b + [] + [] == RefundLegs(order, invoice, customer, amount);
  }

  function SplitMovement(order: nat, courier: nat, customer: nat, share: int, refund: int): Movement {
    Movement(Slot(ESCROW, -(share + refund)), Slot(courier, share), Slot(customer, refund), IDLE,
             Some((order, -(share + refund))), None, None, SplitKey(order))
  }

  lemma SplitPostable(order: nat, invoice: nat, courier: nat, customer: nat, share: int, refund: int, n: nat,
      walletCount: nat)
    requires SYSTEM_WALLETS <= courier < walletCount && SYSTEM_WALLETS <= customer < walletCount
    requires share >= 0 && refund >= 0 && share + refund > 0
    ensures Postable(SplitLegs(order, invoice, courier, customer, share, refund),
                     SplitMovement(order, courier, customer, share, refund), n, walletCount)
  {
    hide Quantize;
    var a := [KeyedLeg(ESCROW, -(share + refund), EscrowRelease, SplitKey(order), Some(order), Some(invoice), None)];
    var b := if share != 0 then [PlainLeg(courier, share, EscrowRelease, Some(order), Some(invoice), None)] else [];
    var c := if refund != 0 then [PlainLeg(customer, refund, Refund, Some(order), Some(invoice), None)] else [];
    FourPostable(a, b, c, [], SplitMovement(order, courier, customer, share, refund), n, walletCount);
    assert a + b + c + [] == SplitLegs(order, invoice, courier, customer, share, refund);
  }

  function TopupMovement(wallet: nat, amount: int, intent: nat): Movement {
    Movement(Slot(wallet, amount), Slot(GATEWAY, -amount), IDLE, IDLE, None, Some((intent, amount)), None,
        TopupKey(intent))
  }

  lemma TopupPostable(wallet: nat, amount: int, intent: nat, n: nat, walletCount: nat)
    requires SYSTEM_WALLETS <= wallet < walletCount && amount != 0
    ensures Postable(TopupLegs(wallet, amount, intent), TopupMovement(wallet, amount, intent), n, walletCount)
  {
    hide Quantize;
    var a := [KeyedLeg(wallet, amount, Topup, TopupKey(intent), None, None, Some(intent))];
    var b := [PlainLeg(GATEWAY, -amount, Topup, None, None, Some(intent))];
    FourPostable(a, b, [], [], TopupMovement(wallet, amount, intent), n, walletCount);
    assert a + b + [] + [] == TopupLegs(wallet, amount, intent);
  }

  function PayoutMovement(wallet: nat, amount: int, withdrawal: nat): Movement {
    Movement(Slot(wallet, -amount), Slot(GATEWAY, amount), IDLE, IDLE, None, None, Some((withdrawal, -amount)),
        PayoutKey(withdrawal))
  }

  lemma PayoutPostable(wallet: nat, amount: int, withdrawal: nat, n: nat, walletCount: nat)
    requires SYSTEM_WALLETS <= wallet < walletCount && amount != 0
    ensures Postable(PayoutLegs(wallet, amount, withdrawal), PayoutMovement(wallet, amount, withdrawal), n, walletCount)
  {
    hide Quantize;
    var a := [KeyedLeg(wallet, -amount, Withdraw, PayoutKey(withdrawal), None, None, None)];
    var b := [PlainLeg(GATEWAY, amount, Withdraw, None, None, None)];
    FourPostable(a, b, [], [], PayoutMovement(wallet, amount, withdrawal), n, walletCount);
    assert a + b + [] + [] == PayoutLegs(wallet, amount, withdrawal);
  }
}
