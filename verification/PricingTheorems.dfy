/** What the pricing engine promises, for every item list, courier fee, promo and rate. */
module PricingTheorems {
  import opened Results
  import opened Sums
  import opened Money
  import opened Pricing
  import PricingEngine

  /** Components are non-negative and the absorber is one that counts. */
  ghost predicate Spread(comps: seq<int>, k: nat) {
    && k < |comps|
    && (forall i :: 0 <= i < |comps| ==> comps[i] >= 0)
    && (Sum(comps) > 0 ==> comps[k] > 0)
  }

  // ------------------------------------------------------------------ one share

  /** The exact share, before rounding. */
  ghost function ExactShare(d: int, c: int, total: int): (x: real)
    requires total > 0
    ensures x * total as real == (d * c) as real
    ensures Share(d, c, total) == Quantize(x)
  {
    d as real * c as real / total as real
  }

  lemma ScaleByTotal(q: int, x: real, product: int, total: int)
    requires total > 0 && x * total as real == product as real
    requires -0.5 <= q as real - x <= 0.5
    ensures -total <= 2 * (total * q) - 2 * product <= total
  {
    var y, t := q as real - x, total as real;
    assert -0.5 * t <= y * t <= 0.5 * t;
    assert y * t == q as real * t - product as real;
    assert q as real * t == (total * q) as real;
  }

  lemma ScaledShare(d: int, c: int, total: int)
    requires total > 0
    ensures -total <= Gap(total, Share(d, c, total), d, c) <= total
  {
    var x := ExactShare(d, c, total);
    ScaleByTotal(Quantize(x), x, d * c, total);
  }

  lemma DivideByTotal(x: real, product: int, c: int, total: int)
    requires total > 0 && x * total as real == product as real && 0 <= product <= total * c
    ensures 0.0 <= x <= c as real
  {
    var t := total as real;
    assert x < 0.0 ==> x * t < 0.0;
    assert x > c as real ==> x * t > c as real * t;
  }

  lemma DoubleByTotal(q: int, x: real, product: int, total: int)
    requires total > 0 && x * total as real == product as real && q as real <= 2.0 * x
    ensures total * q <= 2 * product
  {
    assert q as real * total as real <= 2.0 * x * total as real;
  }

  /** A share of a discount no larger than the base lies between nothing and the whole net, and
      rounding at most doubles it. */
  lemma ShareBounds(d: int, c: int, total: int)
    requires 0 <= d <= total && total > 0 && c >= 0
    ensures 0 <= Share(d, c, total) <= c
    ensures total * Share(d, c, total) <= 2 * (d * c)
  {
    var x := ExactShare(d, c, total);
    assert 0 <= d * c <= total * c;
    DivideByTotal(x, d * c, c, total);
    QuantizeMonotone(x, c as real);
    QuantizeOnGrid(c);
    QuantizeAtMostDoubles(x);
    DoubleByTotal(Quantize(x), x, d * c, total);
  }

  // ------------------------------------------------------------------ the allocation

  /** Allocations sum to the discount exactly. */
  lemma {:induction false} AllocationSums(comps: seq<int>, d: int, k: nat)
    requires Spread(comps, k) && 0 <= d <= Sum(comps)
    ensures Sum(Allocation(comps, d, k)) == d
  {
    var alloc := Allocation(comps, d, k);
    if d == 0 {
      SumZero(alloc);
    } else {
      var others := OtherShares(comps, d, k);
      SumUpdate(others, k, d - Sum(others));
    }
  }

  /** Every component but the absorber is given something between nothing and its own net. */
  lemma {:induction false} AllocationWithinNet(comps: seq<int>, d: int, k: nat, i: nat)
    requires Spread(comps, k) && 0 <= d <= Sum(comps) && i < |comps| && i != k
    ensures 0 <= Allocation(comps, d, k)[i] <= comps[i]
  {
    if d > 0 {
      ShareBounds(d, comps[i], Sum(comps));
    }
  }

  /** The base once for each component, other than the absorber, that takes part at all. */
  ghost function OtherWeights(comps: seq<int>, k: nat): (r: seq<int>)
    ensures |r| == |comps|
  {
    seq(|comps|, i requires 0 <= i < |comps| => if i == k || comps[i] == 0 then 0 else Sum(comps))
  }

  ghost function OtherNets(comps: seq<int>, k: nat): (r: seq<int>)
    requires k < |comps|
    ensures |r| == |comps|
  {
    comps[k := 0]
  }

  /** Twice the base times the distance between an allocation and its exact share. */
  ghost function Gap(base: int, alloc: int, d: int, net: int): int {
    2 * (base * alloc) - 2 * (d * net)
  }

  lemma GapAdds(base: int, a: int, b: int, d: int, x: int, y: int)
    ensures Gap(base, a + b, d, x + y) == Gap(base, a, d, x) + Gap(base, b, d, y)
  {
    assert base * (a + b) == base * a + base * b;
    assert d * (x + y) == d * x + d * y;
  }

  lemma {:induction false} GapsAdd(base: int, allocs: seq<int>, d: int, nets: seq<int>, gaps: seq<int>)
    requires |allocs| == |nets| == |gaps|
    requires forall i :: 0 <= i < |gaps| ==> gaps[i] == Gap(base, allocs[i], d, nets[i])
    ensures Sum(gaps) == Gap(base, Sum(allocs), d, Sum(nets))
  {
    var n := |gaps| - 1;
    if n >= 0 {
      GapsAdd(base, allocs[..n], d, nets[..n], gaps[..n]);
      GapAdds(base, Sum(allocs[..n]), allocs[n], d, Sum(nets[..n]), nets[n]);
    }
  }

  /** The absorber strays from its exact pro-rata share `d * net / base` by at most half a halala for
      each other component with a positive net. Both sides are multiplied by `2 * base`, so that
      nothing is divided. */
  lemma {:induction false} AbsorberError(comps: seq<int>, d: int, k: nat)
    requires Spread(comps, k) && 0 < d <= Sum(comps)
    ensures var bound := Sum(OtherWeights(comps, k));
            -bound <= Gap(Sum(comps), Allocation(comps, d, k)[k], d, comps[k]) <= bound
  {
    hide Share, Quantize, Gap;
    var base, upper := Sum(comps), OtherWeights(comps, k);
    var others, nets := OtherShares(comps, d, k), OtherNets(comps, k);
    var gaps := seq(|comps|, i requires 0 <= i < |comps| => Gap(base, others[i], d, nets[i]));
    var lower := seq(|comps|, i requires 0 <= i < |comps| => -upper[i]);
    forall i | 0 <= i < |comps| ensures lower[i] <= gaps[i] <= upper[i] {
      ComponentGap(comps, d, k, i);
    }
    SumMonotone(gaps, upper);
    SumMonotone(lower, gaps);
    SumLinear(-1, upper, 0, upper, lower);
    GapsAdd(base, others, d, nets, gaps);
    SumUpdate(comps, k, 0);
    WholeGap(base, Sum(others), d, comps[k]);
  }

  lemma {:induction false} ComponentGap(comps: seq<int>, d: int, k: nat, i: nat)
    requires Spread(comps, k) && 0 < d <= Sum(comps) && i < |comps|
    ensures var bound := OtherWeights(comps, k)[i];
            -bound <= Gap(Sum(comps), OtherShares(comps, d, k)[i], d, OtherNets(comps, k)[i]) <= bound
  {
    hide Share, Quantize, Gap;
    var base := Sum(comps);
    GapOfNothing(base, d);
    if i != k {
      ScaledShare(d, comps[i], base);
      ShareOfNothing(d, base);
    }
  }

  /** Every component but the absorber is given its pro-rata share to within half a halala. */
  lemma {:induction false} AllocationIsProRata(comps: seq<int>, d: int, k: nat, i: nat)
    requires Spread(comps, k) && 0 < d <= Sum(comps) && i < |comps| && i != k
    ensures var base, alloc := Sum(comps), Allocation(comps, d, k)[i];
            -base <= 2 * (base * alloc) - 2 * (d * comps[i]) <= base
  {
    hide Share, Quantize, Sum;
    ScaledShare(d, comps[i], Sum(comps));
    ShareOfNothing(d, Sum(comps));
  }

  lemma GapOfNothing(base: int, d: int)
    ensures Gap(base, 0, d, 0) == 0
  {
  }

  lemma ShareOfNothing(d: int, total: int)
    requires total > 0
    ensures Share(d, 0, total) == 0
  {
  }

  /** Over all components the exact shares make up the discount, so the absorber's gap balances the others'. */
  lemma WholeGap(base: int, others: int, d: int, net: int)
    ensures Gap(base, d - others, d, net) == -Gap(base, others, d, base - net)
  {
    assert base * (d - others) == base * d - base * others;
    assert d * (base - net) == d * base - d * net;
  }

  /** What the absorber can be driven below zero by is less than the discount itself. */
  lemma {:induction false} OvershootBelowDiscount(comps: seq<int>, d: int, k: nat)
    requires Spread(comps, k) && 0 < d <= Sum(comps)
    ensures Allocation(comps, d, k)[k] > -d
  {
    hide Share, Quantize;
    var base := Sum(comps);
    var others, nets := OtherShares(comps, d, k), OtherNets(comps, k);
    var scaled := seq(|comps|, i requires 0 <= i < |comps| => base * others[i]);
    var doubled := seq(|comps|, i requires 0 <= i < |comps| => (2 * d) * nets[i]);
    forall i | 0 <= i < |comps| ensures scaled[i] <= doubled[i] {
      ShareBounds(d, comps[i], base);
    }
    SumMonotone(scaled, doubled);
    SumLinear(base, others, 0, others, scaled);
    SumLinear(2 * d, nets, 0, nets, doubled);
    SumUpdate(comps, k, 0);
    OvershootArithmetic(base, d, comps[k], Sum(others));
  }

  lemma OvershootArithmetic(base: int, d: int, c: int, others: int)
    requires base > 0 && d > 0 && c > 0
    requires base * others + 0 * others <= (2 * d) * (base - c) + 0 * (base - c)
    ensures others < 2 * d
  {
    assert (2 * d) * (base - c) == 2 * (d * base) - 2 * (d * c);
    assert d * c > 0;
    assert others >= 2 * d ==> base * others >= base * (2 * d);
  }

  lemma SumOfFive(a: int, b: int, c: int, d: int, e: int)
    ensures Sum([a, b, c, d, e]) == a + b + c + d + e
  {
    SumAppend([a, b, c, d], e);
    SumAppend([a, b, c], d);
    SumAppend([a, b], c);
    SumAppend([a], b);
    SumAppend([], a);
    assert [a, b, c, d] + [e] == [a, b, c, d, e] && [a, b, c] + [d] == [a, b, c, d];
    assert [a, b] + [c] == [a, b, c] && [a] + [b] == [a, b] && [] + [a] == [a];
  }

  /** The absorber itself is not confined to [0, its net]: it can go negative, and it can exceed its net. */
  lemma AbsorberUnconfined()
    ensures Allocation([1, 1, 1, 1, 1], 3, 4)[4] == -1
    ensures Allocation([1, 1, 1, 1, 1], 2, 4)[4] == 2
  {
    var comps := [1, 1, 1, 1, 1];
    SumOfFive(1, 1, 1, 1, 1);
    SumOfFive(1, 1, 1, 1, 0);
    SumOfFive(0, 0, 0, 0, 0);
    assert OtherShares(comps, 3, 4) == [1, 1, 1, 1, 0];
    assert OtherShares(comps, 2, 4) == [0, 0, 0, 0, 0];
  }

  // ------------------------------------------------------------------ the totals

  /** What one component adds to the total once `alloc` of it is discounted. */
  ghost function Gross(net: int, alloc: int, rate: real): int {
    net - alloc + Tax(net - alloc, rate)
  }

  ghost function GrossTerms(comps: seq<int>, alloc: seq<int>, rates: seq<real>): (r: seq<int>)
    requires |comps| == |alloc| == |rates|
    ensures |r| == |comps|
  {
    seq(|comps|, i requires 0 <= i < |comps| => Gross(comps[i], alloc[i], rates[i]))
  }

  lemma GrossFalls(net: int, alloc: int, rate: real)
    requires IsRate(rate) && alloc >= 0
    ensures Gross(net, alloc, rate) <= Gross(net, 0, rate) - alloc
  {
    hide Part;
    ScaledByRate(net - alloc, net, rate);
    QuantizeMonotone(Part(net - alloc, rate), Part(net, rate));
  }

  /** A rate keeps order and never widens a gap. */
  lemma {:induction false} ScaledByRate(a: int, b: int, rate: real)
    requires IsRate(rate) && a <= b
    ensures Part(a, rate) <= Part(b, rate) <= Part(a, rate) + (b - a) as real
    decreases b - a
  {
    if a < b {
      ScaledByRate(a, b - 1, rate);
      PartOfNext(b - 1, rate);
      hide Part;
    }
  }

  lemma PartOfNext(n: int, rate: real)
    ensures Part(n + 1, rate) == Part(n, rate) + rate
  {
  }

  lemma PartOfZero(rate: real)
    ensures Part(0, rate) == 0.0
  {
  }

  /** Raising a non-negative base raises its tax by no more than the raise. */
  lemma GrossRises(net: int, alloc: int, rate: real)
    requires IsRate(rate) && net >= 0 && alloc <= 0
    ensures Gross(net, alloc, rate) <= Gross(net, 0, rate) - 2 * alloc
  {
    hide Part;
    var before, after := Part(net, rate), Part(net - alloc, rate);
    ScaledByRate(net, net - alloc, rate);
    ScaledByRate(0, net, rate);
    PartOfZero(rate);
    QuantizeMonotone(after, before + (-alloc) as real);
    QuantizeShift(before, -alloc);
  }

  lemma GrossBound(net: int, alloc: int, rate: real)
    requires IsRate(rate) && net >= 0
    ensures Gross(net, alloc, rate) <= Gross(net, 0, rate) - alloc + (if alloc < 0 then -alloc else 0)
  {
    if alloc < 0 {
      GrossRises(net, alloc, rate);
    } else {
      GrossFalls(net, alloc, rate);
    }
  }

  /** What a positive allocation takes off a component it takes off its taxed amount too; a negative one, only
      possible at the absorber, adds at most twice itself. */
  lemma {:induction false} DiscountedTerm(comps: seq<int>, rate: real, d: int, k: nat, i: nat)
    requires Spread(comps, k) && 0 < d <= Sum(comps) && i < |comps| && IsRate(rate)
    ensures var alloc := Allocation(comps, d, k);
            Gross(comps[i], alloc[i], rate)
            <= Gross(comps[i], 0, rate) - alloc[i] + (if i == k && alloc[k] < 0 then -alloc[k] else 0)
  {
    hide Gross, Allocation, Sum;
    if i != k {
      AllocationWithinNet(comps, d, k, i);
    }
    GrossBound(comps[i], Allocation(comps, d, k)[i], rate);
  }

  /** Sums of terms that are each bounded by a full price less an allocation. */
  lemma {:induction false} SumOfDiscounted(terms: seq<int>, full: seq<int>, alloc: seq<int>, k: nat, penalty: nat)
    requires |terms| == |full| == |alloc|
    requires forall i :: 0 <= i < |terms| ==> terms[i] <= full[i] - alloc[i] + (if i == k then penalty else 0)
    ensures Sum(terms) <= Sum(full) - Sum(alloc) + (if k < |terms| then penalty else 0)
  {
    if |terms| > 0 {
      var n := |terms| - 1;
      SumOfDiscounted(terms[..n], full[..n], alloc[..n], k, penalty);
    }
  }

  /** Granting a positive discount strictly lowers the sum of the taxed components, even when the
      absorber's allocation is negative. */
  lemma {:induction false} DiscountLowersGross(comps: seq<int>, rates: seq<real>, d: int, k: nat)
    requires Spread(comps, k) && 0 < d <= Sum(comps)
    requires |rates| == |comps| && forall i :: 0 <= i < |rates| ==> IsRate(rates[i])
    ensures Sum(GrossTerms(comps, Allocation(comps, d, k), rates)) < Sum(GrossTerms(comps, Allocation(comps, 0, k),
        rates))
  {
    hide Gross, Sum, OtherShares;
    var alloc, zeros := Allocation(comps, d, k), Allocation(comps, 0, k);
    var penalty := if alloc[k] < 0 then -alloc[k] else 0;
    var terms, full := GrossTerms(comps, alloc, rates), GrossTerms(comps, zeros, rates);
    forall i | 0 <= i < |comps| ensures terms[i] <= full[i] - alloc[i] + (if i == k then penalty else 0) {
      DiscountedTerm(comps, rates[i], d, k, i);
    }
    SumOfDiscounted(terms, full, alloc, k, penalty);
    AllocationSums(comps, d, k);
    OvershootBelowDiscount(comps, d, k);
  }

  // ------------------------------------------------------------------ fees, discounts and taxes, rounded

  ghost predicate WithinHalf(q: int, x: real) {
    q as real - 0.5 <= x <= q as real + 0.5
  }

  /** The service fee is the rounded rate where that lies between the bounds, and the bound it crosses where it
      does not; it never falls when the base rises. */
  lemma ServiceFeeIsClamped(base: int, larger: int, cfg: Config)
    requires base <= larger && IsRate(cfg.serviceFeeRate) && 0 <= cfg.serviceFeeMin <= cfg.serviceFeeMax
    ensures ServiceFee(base, cfg) <= ServiceFee(larger, cfg)
    ensures base <= 0 ==> ServiceFee(base, cfg) == 0
    ensures base > 0 ==>
              var fee, exact := ServiceFee(base, cfg), base as real * cfg.serviceFeeRate;
              && cfg.serviceFeeMin <= fee <= cfg.serviceFeeMax
              && (cfg.serviceFeeMin < fee < cfg.serviceFeeMax ==> WithinHalf(fee, exact))
              && (fee == cfg.serviceFeeMin < cfg.serviceFeeMax ==> exact <= fee as real + 0.5)
              && (fee == cfg.serviceFeeMax > cfg.serviceFeeMin ==> exact >= fee as real - 0.5)
  {
    hide WithinHalf, Quantize, Min, Max, RatedFee;
    RatedFeeRises(base, larger, cfg);
    RatedFeeIs(base, cfg);
    Clamped(RatedFee(base, cfg), RatedFee(larger, cfg), cfg.serviceFeeMin, cfg.serviceFeeMax);
  }

  lemma RatedFeeIs(base: int, cfg: Config)
    ensures RatedFee(base, cfg) == base as real * cfg.serviceFeeRate
  {
  }

  lemma RatedFeeRises(base: int, larger: int, cfg: Config)
    requires base <= larger && IsRate(cfg.serviceFeeRate)
    ensures RatedFee(base, cfg) <= RatedFee(larger, cfg)
  {
    ScaledByRate(base, larger, cfg.serviceFeeRate);
  }

  lemma Clamped(x: real, y: real, lo: int, hi: int)
    requires 0 <= lo <= hi && x <= y
    ensures var fee, larger := Min(Max(Quantize(x), lo), hi), Min(Max(Quantize(y), lo), hi);
            && lo <= fee <= hi && fee <= larger && 0 <= larger
            && (lo < fee < hi ==> WithinHalf(fee, x))
            && (fee == lo < hi ==> x <= fee as real + 0.5)
            && (fee == hi > lo ==> x >= fee as real - 0.5)
  {
    QuantizeMonotone(x, y);
    hide Quantize;
  }

  /** A percentage discount is the rounded percentage unless the promo's cap or the base is smaller, a fixed one
      its amount unless the base is. */
  lemma DiscountIsCapped(base: int, promo: Promo)
    requires Discount(base, Some(promo)).Ok?
    ensures var d := Discount(base, Some(promo)).value;
            && d <= base
            && (promo.kind.Percent? ==>
                  && promo.percentValue.Some?
                  && (promo.maxDiscount.Some? ==> d <= promo.maxDiscount.value)
                  && d as real - 0.5 <= base as real * promo.percentValue.value / 100.0
                  && (d < base && (promo.maxDiscount.Some? ==> d < promo.maxDiscount.value) ==>
                        WithinHalf(d, base as real * promo.percentValue.value / 100.0)))
            && (promo.kind.Fixed? ==> promo.fixedAmount.Some? && d <= promo.fixedAmount.value
                                      && (d < base ==> d == promo.fixedAmount.value))
  {
    hide Quantize;
  }

  ghost function ExactTaxes(lines: seq<Line>): real {
    if |lines| == 0 then 0.0
    else ExactTaxes(lines[..|lines| - 1]) + Part(lines[|lines| - 1].taxable, lines[|lines| - 1].taxRate)
  }

  lemma {:induction false} LineTaxError(lines: seq<Line>)
    requires forall i :: 0 <= i < |lines| ==> lines[i].tax == Tax(lines[i].taxable, lines[i].taxRate)
    ensures -0.5 * |lines| as real <= Sum(LineTaxes(lines)) as real - ExactTaxes(lines) <= 0.5 * |lines| as real
  {
    hide Quantize, Part;
    if |lines| > 0 {
      var n := |lines| - 1;
      LineTaxError(lines[..n]);
      assert LineTaxes(lines)[..n] == LineTaxes(lines[..n]);
    }
  }

  /** The tax on an invoice strays from the exact tax on its discounted components by at most half a halala for
      each line, for the courier fee and for the service fee. */
  lemma {:induction false} TaxErrorBound(items: seq<Item>, courierFee: real, d: int, cfg: Config)
    ensures var p := Price(items, courierFee, d, cfg);
            var exact := ExactTaxes(p.lines) + Part(p.courierFee - p.courierFeeDiscount, cfg.vatRate)
                + Part(p.serviceFee, cfg.vatRate);
            -0.5 * (|items| + 2) as real <= p.tax as real - exact <= 0.5 * (|items| + 2) as real
  {
    hide Quantize, ServiceFee, Allocation, LineNet, Sum, LineTaxes, ExactTaxes, Part;
    LineTaxError(Price(items, courierFee, d, cfg).lines);
  }

  /** Inputs the engine is documented for: positive-or-zero prices, quantities and courier fee. */
  ghost predicate LegalInputs(items: seq<Item>, courierFee: real) {
    && courierFee >= 0.0
    && forall i :: 0 <= i < |items| ==> items[i].unitPrice >= 0.0 && items[i].quantity >= 0
  }

  ghost predicate LegalRates(items: seq<Item>, cfg: Config) {
    && IsRate(cfg.vatRate)
    && forall i :: 0 <= i < |items| ==> IsRate(items[i].taxRate)
  }

  ghost function Base(items: seq<Item>, courierFee: real): int {
    Sum(LineNets(items)) + Quantize(courierFee)
  }

  /** Legal inputs give components the allocation lemmas apply to. */
  lemma {:induction false} LegalSpread(items: seq<Item>, courierFee: real)
    requires LegalInputs(items, courierFee)
    ensures var nets, fee := LineNets(items), Quantize(courierFee);
            Spread(Components(nets, fee), Absorber(nets, fee)) && Sum(Components(nets, fee)) == Base(items, courierFee)
  {
    var nets, fee := LineNets(items), Quantize(courierFee);
    SumAppend(nets, fee);
    forall i | 0 <= i < |nets| ensures nets[i] >= 0 {
      PricingEngine.NetNonNegative(items[i]);
    }
    if fee == 0 && Sum(nets) > 0 {
      PricingEngine.PositiveLineExists(nets);
    }
  }

  ghost function Rates(items: seq<Item>, cfg: Config): (r: seq<real>)
    ensures |r| == |items| + 1
  {
    seq(|items|, i requires 0 <= i < |items| => items[i].taxRate) + [cfg.vatRate]
  }

  ghost function Allocs(items: seq<Item>, courierFee: real, d: int): (r: seq<int>)
    ensures |r| == |items| + 1
  {
    var nets, fee := LineNets(items), Quantize(courierFee);
    Allocation(Components(nets, fee), d, Absorber(nets, fee))
  }

  /** The total is the sum of the taxed components and the taxed service fee, and both re-additions the
      engine performs agree with it. */
  lemma {:induction false} PriceLegs(items: seq<Item>, courierFee: real, d: int, cfg: Config)
    requires LegalInputs(items, courierFee) && 0 <= d <= Base(items, courierFee)
    ensures var p := Price(items, courierFee, d, cfg);
            && Allocated(p) == d
            && Reconstructed(p) == p.total
            && p.total == Sum(GrossTerms(Components(LineNets(items), Quantize(courierFee)),
                                         Allocs(items, courierFee, d), Rates(items, cfg)))
                          + p.serviceFee + p.serviceFeeTax
  {
    hide Tax, LineNet, Quantize, ServiceFee, Allocation;
    var p := Price(items, courierFee, d, cfg);
    var nets, fee, alloc := LineNets(items), Quantize(courierFee), Allocs(items, courierFee, d);
    LegalSpread(items, courierFee);
    AllocationSums(Components(nets, fee), d, Absorber(nets, fee));
    LineSums(items, alloc);
    GrossOfLines(items, alloc, fee, cfg);
    AssembledLegs(p.lines, Sum(nets), fee, alloc[|items|], p.serviceFee, d, cfg.vatRate);
  }

  lemma AssembledLegs(
      lines: seq<Line>, itemsNet: int, fee: int, courierAlloc: int, service: int, discount: int, vat: real)
    requires var discounts := Sum(LineDiscounts(lines));
             && discounts + courierAlloc == discount
             && Sum(LineTotals(lines)) == itemsNet - discounts + Sum(LineTaxes(lines))
    ensures var p := Assemble(lines, itemsNet, fee, courierAlloc, service, discount, vat);
            && Allocated(p) == discount
            && Reconstructed(p) == p.total
            && p.total == Sum(LineTotals(lines)) + Gross(fee, courierAlloc, vat) + p.serviceFee + p.serviceFeeTax
  {
  }

  /** Line totals are nets less discounts plus tax. */
  lemma {:induction false} LineSums(items: seq<Item>, alloc: seq<int>)
    requires |alloc| == |items| + 1
    ensures var lines := PriceLines(items, alloc);
            && Sum(LineDiscounts(lines)) + alloc[|items|] == Sum(alloc)
            && Sum(LineTotals(lines)) == Sum(LineNets(items)) - Sum(LineDiscounts(lines)) + Sum(LineTaxes(lines))
  {
    hide Tax, LineNet, Quantize;
    var lines, last := PriceLines(items, alloc), alloc[|items|];
    assert alloc == LineDiscounts(lines) + [last];
    SumAppend(LineDiscounts(lines), last);
    var taxables := seq(|lines|, i requires 0 <= i < |lines| => lines[i].taxable);
    SumLinear(1, LineNets(items), -1, LineDiscounts(lines), taxables);
    SumLinear(1, taxables, 1, LineTaxes(lines), LineTotals(lines));
  }

  /** With the courier fee, the line totals are the taxed components. */
  lemma {:induction false} GrossOfLines(items: seq<Item>, alloc: seq<int>, fee: int, cfg: Config)
    requires |alloc| == |items| + 1
    ensures Sum(GrossTerms(Components(LineNets(items), fee), alloc, Rates(items, cfg)))
         == Sum(LineTotals(PriceLines(items, alloc))) + Gross(fee, alloc[|items|], cfg.vatRate)
  {
    hide Tax, LineNet, Quantize;
    var totals, last := LineTotals(PriceLines(items, alloc)), Gross(fee, alloc[|items|], cfg.vatRate);
    assert GrossTerms(Components(LineNets(items), fee), alloc, Rates(items, cfg)) == totals + [last];
    SumAppend(totals, last);
  }

  /** The engine's outcome in full: a negative discount is the only way to its allocation error, its
      legs error is unreachable, and otherwise the two bounds on the total decide. */
  lemma {:induction false} InvoiceTotalsOutcome(items: seq<Item>, courierFee: real, promo: Option<Promo>, cfg: Config)
    requires LegalInputs(items, courierFee)
    ensures var r, d := InvoiceTotals(items, courierFee, promo, cfg), Discount(Base(items, courierFee), promo);
            && (d.Err? ==> r == Err(d.error))
            && (d.Ok? ==> (r == Err(PricingAllocation) <==> d.value < 0))
            && r != Err(PricingLegs)
            && (d.Ok? && d.value >= 0 ==>
                 var p := Price(items, courierFee, d.value, cfg);
                 && (r == Err(PricingNotPositive) <==> p.total <= 0)
                 && (r == Err(PricingTooLarge) <==> p.total > 0 && p.total > cfg.maxInvoice)
                 && (r.Ok? ==> r.value == p))
  {
    hide Price, Allocated, Reconstructed, Quantize, LineNets, Sum;
    var d := Discount(Base(items, courierFee), promo);
    if d.Ok? {
      if d.value >= 0 {
        if promo.None? {
          BaseNonNegative(items, courierFee);
        }
        PriceLegs(items, courierFee, d.value, cfg);
      } else {
        NegativeDiscountUnallocated(items, courierFee, d.value, cfg);
      }
    }
  }

  lemma {:induction false} BaseNonNegative(items: seq<Item>, courierFee: real)
    requires LegalInputs(items, courierFee)
    ensures Base(items, courierFee) >= 0
  {
    LegalSpread(items, courierFee);
    SumNonNegative(Components(LineNets(items), Quantize(courierFee)));
  }

  lemma NegativeDiscountUnallocated(items: seq<Item>, courierFee: real, d: int, cfg: Config)
    requires d < 0
    ensures Allocated(Price(items, courierFee, d, cfg)) == 0
  {
    var p := Price(items, courierFee, d, cfg);
    SumZero(LineDiscounts(p.lines));
  }

  lemma ServiceFeeIgnoresDiscount(items: seq<Item>, courierFee: real, d: int, e: int, cfg: Config)
    ensures var p, q := Price(items, courierFee, d, cfg), Price(items, courierFee, e, cfg);
            p.serviceFee == q.serviceFee && p.serviceFeeTax == q.serviceFeeTax
  {
    hide Tax, Share, ServiceFee, LineNet, Quantize, Allocation, Sum;
  }

  /** A promo with a positive discount strictly lowers the price of every invoice. */
  lemma {:induction false} DiscountLowersTotal(items: seq<Item>, courierFee: real, d: int, cfg: Config)
    requires LegalInputs(items, courierFee) && LegalRates(items, cfg)
    requires 0 < d <= Base(items, courierFee)
    ensures Price(items, courierFee, d, cfg).total < Price(items, courierFee, 0, cfg).total
  {
    hide Tax, Share, ServiceFee, LineNet, Quantize, Allocation, Sum, Price, GrossTerms;
    PriceLegs(items, courierFee, d, cfg);
    PriceLegs(items, courierFee, 0, cfg);
    ServiceFeeIgnoresDiscount(items, courierFee, d, 0, cfg);
    LegalSpread(items, courierFee);
    var nets, fee := LineNets(items), Quantize(courierFee);
    DiscountLowersGross(Components(nets, fee), Rates(items, cfg), d, Absorber(nets, fee));
  }

  lemma {:induction false} PromoLowersInvoice(items: seq<Item>, courierFee: real, promo: Promo, cfg: Config)
    requires LegalInputs(items, courierFee) && LegalRates(items, cfg)
    ensures var with, without := InvoiceTotals(items, courierFee, Some(promo), cfg),
                                 InvoiceTotals(items, courierFee, None, cfg);
            with.Ok? && with.value.discount > 0 ==>
              if without.Ok? then with.value.total < without.value.total
              else without == Err(PricingTooLarge)
  {
    InvoiceTotalsOutcome(items, courierFee, Some(promo), cfg);
    InvoiceTotalsOutcome(items, courierFee, None, cfg);
    var d := Discount(Base(items, courierFee), Some(promo));
    if d.Ok? && d.value > 0 {
      DiscountLowersTotal(items, courierFee, d.value, cfg);
    }
  }

  // ------------------------------------------------------------------ settlement

  /** `c` is the rate's part of the base, rounded half up. */
  ghost predicate IsRatedPart(c: int, base: int, rate: real) {
    (2 * c - 1) as real <= 2.0 * (base as real * rate) < (2 * c + 1) as real
  }

  /** The platform's commission is the rounded rate of items and courier fee, the courier is paid the rest of them,
      and the platform keeps what is then left of the total after tax. */
  lemma SettlementIsRated(itemsNet: int, courierFee: int, tax: int, total: int, rate: real)
    requires itemsNet + courierFee >= 0 && IsRate(rate)
    ensures var s, base := ComputeSettlement(itemsNet, courierFee, tax, total, rate), itemsNet + courierFee;
            && IsRatedPart(s.commission, base, rate)
            && 0 <= s.commission <= base && s.payout == base - s.commission
            && s.tax == tax && s.revenue == total - tax - s.payout
  {
    var base := itemsNet + courierFee;
    ScaledByRate(0, base, rate);
    PartOfZero(rate);
    CommissionWithinBase(base, rate);
    hide Quantize;
  }

  /** At most one amount is that part. */
  lemma RatedPartIsUnique(c: int, d: int, base: int, rate: real)
    requires IsRatedPart(c, base, rate) && IsRatedPart(d, base, rate)
    ensures c == d
  {
    var x := 2.0 * (base as real * rate);
    assert (2 * c - 1) as real < (2 * d + 1) as real && (2 * d - 1) as real < (2 * c + 1) as real;
  }

  /** Settling an invoice the engine produced divides it exactly. */
  lemma {:induction false} SettlementSplitsExactly(items: seq<Item>, courierFee: real, promo: Option<Promo>,
      cfg: Config, rate: real)
    requires LegalInputs(items, courierFee) && IsRate(rate)
    requires InvoiceTotals(items, courierFee, promo, cfg).Ok?
    ensures var p := InvoiceTotals(items, courierFee, promo, cfg).value;
            var s := ComputeSettlement(p.itemsNet, p.courierFee, p.tax, p.total, rate);
            && s.payout + s.tax + s.revenue == p.total
            && s.commission + s.payout == p.itemsNet + p.courierFee
            && s.revenue == p.serviceFee + s.commission - p.discount
            && 0 <= s.payout <= p.itemsNet + p.courierFee
            && IsRatedPart(s.commission, p.itemsNet + p.courierFee, rate)
  {
    hide InvoiceTotals, Commission;
    var p := InvoiceTotals(items, courierFee, promo, cfg).value;
    PricedShape(items, courierFee, promo, cfg);
    BaseNonNegative(items, courierFee);
    SettlementIsRated(p.itemsNet, p.courierFee, p.tax, p.total, rate);
  }

  /** Whatever promo is applied, the courier is paid the same. */
  lemma PayoutIgnoresPromo(
      items: seq<Item>, courierFee: real, promo: Option<Promo>, other: Option<Promo>, cfg: Config, rate: real)
    requires InvoiceTotals(items, courierFee, promo, cfg).Ok? && InvoiceTotals(items, courierFee, other, cfg).Ok?
    ensures var p, q := InvoiceTotals(items, courierFee, promo, cfg).value,
        InvoiceTotals(items, courierFee, other, cfg).value;
            ComputeSettlement(p.itemsNet, p.courierFee, p.tax, p.total, rate).payout
            == ComputeSettlement(q.itemsNet, q.courierFee, q.tax, q.total, rate).payout
  {
    hide InvoiceTotals, Commission;
    PricedShape(items, courierFee, promo, cfg);
    PricedShape(items, courierFee, other, cfg);
  }

  lemma {:induction false} PricedShape(items: seq<Item>, courierFee: real, promo: Option<Promo>, cfg: Config)
    requires InvoiceTotals(items, courierFee, promo, cfg).Ok?
    ensures var p := InvoiceTotals(items, courierFee, promo, cfg).value;
            && p.itemsNet + p.courierFee == Base(items, courierFee)
            && p.total == p.netAfterDiscount + p.tax
            && p.netAfterDiscount == p.itemsNet + p.courierFee + p.serviceFee - p.discount
  {
  }

  lemma CommissionWithinBase(base: int, rate: real)
    requires base >= 0 && IsRate(rate)
    ensures 0 <= Commission(base, rate) <= base
  {
    hide Part;
    ScaledByRate(0, base, rate);
    PartOfZero(rate);
    QuantizeMonotone(0.0, Part(base, rate));
    QuantizeMonotone(Part(base, rate), base as real);
    QuantizeOnGrid(base);
  }
}
