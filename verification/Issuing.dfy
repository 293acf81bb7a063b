/** When an invoice can be issued: exact conditions, and what may make a promo's tax negative. */
module Issuing {
  import opened Results
  import opened Sums
  import opened Money
  import opened Tables
  import opened OrderState
  import opened Ledger
  import opened Market
  import opened Laws
  import opened FlowProofs
  import opened StepProofs
  import Pricing
  import PricingTheorems

  // ------------------------------------------------------------------ the tax on a discounted invoice

  lemma {:induction false} SumConstant(n: nat, b: int, s: seq<int>)
    requires |s| == n && forall i :: 0 <= i < n ==> s[i] == b
    ensures Sum(s) == n * b
  {
    if n > 0 {
      SumConstant(n - 1, b, s[..n - 1]);
      assert n * b == (n - 1) * b + b;
    }
  }

  /** The absorber exceeds its net by at most half a halala for each other component. */
  lemma {:induction false} AbsorberExcess(comps: seq<int>, d: int, k: nat)
    requires PricingTheorems.Spread(comps, k) && 0 < d <= Sum(comps)
    ensures 2 * (Pricing.Allocation(comps, d, k)[k] - comps[k]) <= |comps| - 1
  {
    hide Pricing.Allocation, Sum;
    var base, alloc, n := Sum(comps), Pricing.Allocation(comps, d, k)[k], |comps|;
    PricingTheorems.AbsorberError(comps, d, k);
    var full := seq(n, i => base);
    SumConstant(n, base, full);
    SumUpdate(full, k, 0);
    SumMonotone(PricingTheorems.OtherWeights(comps, k), full[k := 0]);
    ExcessArithmetic(base, alloc, d, comps[k], n);
  }

  lemma ExcessArithmetic(base: int, alloc: int, d: int, net: int, n: nat)
    requires 0 < d <= base && net >= 0
    requires PricingTheorems.Gap(base, alloc, d, net) <= n * base - base + 0
    ensures 2 * (alloc - net) <= n - 1
  {
    assert d * net <= base * net;
    assert 2 * (base * (alloc - net)) == 2 * (base * alloc) - 2 * (base * net);
    assert base * (2 * (alloc - net)) <= base * (n - 1);
    assert 2 * (alloc - net) > n - 1 ==> base * (2 * (alloc - net)) >= base * n;
  }

  /** A tax is never below its base, nor below zero for a base that is not. */
  lemma TaxFromBelow(taxable: int, rate: real)
    requires Pricing.IsRate(rate)
    ensures Pricing.Tax(taxable, rate) >= (if taxable < 0 then taxable else 0)
  {
    hide Pricing.Part;
    PricingTheorems.PartOfZero(rate);
    if taxable >= 0 {
      PricingTheorems.ScaledByRate(0, taxable, rate);
    } else {
      PricingTheorems.ScaledByRate(taxable, 0, rate);
      QuantizeMonotone(taxable as real, Pricing.Part(taxable, rate));
      QuantizeOnGrid(taxable);
    }
  }

  ghost function TaxTerms(comps: seq<int>, alloc: seq<int>, rates: seq<real>): (r: seq<int>)
    requires |comps| == |alloc| == |rates|
    ensures |r| == |comps|
  {
    seq(|comps|, i requires 0 <= i < |comps| => Pricing.Tax(comps[i] - alloc[i], rates[i]))
  }

  lemma {:induction false} TermFloor(comps: seq<int>, rate: real, d: int, k: nat, i: nat)
    requires PricingTheorems.Spread(comps, k) && 0 < d <= Sum(comps) && i < |comps| && Pricing.IsRate(rate)
    ensures var tax := Pricing.Tax(comps[i] - Pricing.Allocation(comps, d, k)[i], rate);
            if i == k then 2 * tax >= 1 - |comps| else tax >= 0
  {
    hide Pricing.Allocation, Sum, Pricing.Tax;
    if i == k {
      AbsorberExcess(comps, d, k);
    } else {
      PricingTheorems.AllocationWithinNet(comps, d, k, i);
    }
    TaxFromBelow(comps[i] - Pricing.Allocation(comps, d, k)[i], rate);
  }

  lemma {:induction false} SumAtLeastTerm(s: seq<int>, k: nat)
    requires k < |s| && forall i :: 0 <= i < |s| && i != k ==> s[i] >= 0
    ensures Sum(s) >= s[k]
  {
    hide Sum;
    SumUpdate(s, k, 0);
    SumNonNegative(s[k := 0]);
  }

  /** Together the components are taxed at least minus half a halala for each but one. */
  lemma {:induction false} ComponentTaxFloor(comps: seq<int>, rates: seq<real>, d: int, k: nat)
    requires PricingTheorems.Spread(comps, k) && 0 < d <= Sum(comps)
    requires |rates| == |comps| && forall i :: 0 <= i < |rates| ==> Pricing.IsRate(rates[i])
    ensures 2 * Sum(TaxTerms(comps, Pricing.Allocation(comps, d, k), rates)) >= 1 - |comps|
  {
    hide Pricing.Allocation, Sum, Pricing.Tax, TaxTerms, PricingTheorems.Spread;
    Absorbs(comps, k);
    var alloc := Pricing.Allocation(comps, d, k);
    var terms := TaxTerms(comps, alloc, rates);
    forall i | 0 <= i < |comps| && i != k ensures terms[i] >= 0 {
      TermFloor(comps, rates[i], d, k, i);
      TermAt(comps, alloc, rates, i);
    }
    TermFloor(comps, rates[k], d, k, k);
    TermAt(comps, alloc, rates, k);
    SumAtLeastTerm(terms, k);
  }

  lemma TermAt(comps: seq<int>, alloc: seq<int>, rates: seq<real>, i: nat)
    requires |comps| == |alloc| == |rates| && i < |comps|
    ensures TaxTerms(comps, alloc, rates)[i] == Pricing.Tax(comps[i] - alloc[i], rates[i])
  {
    hide Pricing.Tax;
  }

  lemma Absorbs(comps: seq<int>, k: nat)
    requires PricingTheorems.Spread(comps, k)
    ensures k < |comps|
  {
  }

  lemma {:induction false} TaxOfPrice(items: seq<Pricing.Item>, courierFee: real, d: int, cfg: Pricing.Config)
    ensures var p, nets, fee := Pricing.Price(items, courierFee, d, cfg), Pricing.LineNets(items), Quantize(courierFee);
            p.tax == Sum(TaxTerms(Pricing.Components(nets, fee), PricingTheorems.Allocs(items, courierFee, d),
                                  PricingTheorems.Rates(items, cfg)))
                     + Pricing.Tax(p.serviceFee, cfg.vatRate)
  {
    hide Pricing.Allocation, Sum, Pricing.Tax, Quantize, Pricing.LineNet, Pricing.ServiceFee;
    var p, nets, fee := Pricing.Price(items, courierFee, d, cfg), Pricing.LineNets(items), Quantize(courierFee);
    var taxes := Pricing.LineTaxes(p.lines);
    assert TaxTerms(Pricing.Components(nets, fee), PricingTheorems.Allocs(items, courierFee, d),
        PricingTheorems.Rates(items, cfg))
        == taxes + [p.courierFeeTax];
    SumAppend(taxes, p.courierFeeTax);
  }

  /** With a promo the tax on an invoice is at least the tax on the service fee less half a halala for each line. */
  lemma {:induction false} TaxFloor(items: seq<Pricing.Item>, courierFee: real, d: int, cfg: Pricing.Config)
    requires PricingTheorems.LegalInputs(items, courierFee) && PricingTheorems.LegalRates(items, cfg)
    requires 0 < d <= PricingTheorems.Base(items, courierFee)
    ensures var p := Pricing.Price(items, courierFee, d, cfg);
            2 * p.tax >= 2 * Pricing.Tax(p.serviceFee, cfg.vatRate) - |items|
  {
    hide Pricing.Allocation, Sum, Pricing.Tax, Quantize, Pricing.LineNet, Pricing.ServiceFee, Pricing.Price;
    var nets, fee := Pricing.LineNets(items), Quantize(courierFee);
    PricingTheorems.LegalSpread(items, courierFee);
    TaxOfPrice(items, courierFee, d, cfg);
    ComponentTaxFloor(Pricing.Components(nets, fee), PricingTheorems.Rates(items, cfg), d, Pricing.Absorber(nets, fee));
  }

  // ------------------------------------------------------------------ prices of valid lines

  lemma ValidLineNet(cfg: Settings, lines: seq<LineInput>, i: nat)
    requires LinesValid(cfg, lines) && i < |lines|
    ensures Pricing.LineNets(PricingItems(lines))[i] >= 1
  {
    hide Quantize;
    var u, q := lines[i].unitPrice, lines[i].quantity;
    assert u * q >= 1;
    assert u as real * q as real == (u * q) as real;
    QuantizeOnGrid(u * q);
  }

  /** Valid lines without a promo have a positive price with no negative leg. */
  lemma PlainPriceIsSound(cfg: Settings, lines: seq<LineInput>, fee: nat)
    requires cfg.Valid() && 0 <= cfg.pricing.serviceFeeMin && 0 <= cfg.pricing.serviceFeeMax && LinesValid(cfg, lines)
    ensures var p := Pricing.Price(PricingItems(lines), fee as real, 0, cfg.pricing);
            AmountsNonNegative(p) && p.total > 0
  {
    hide Quantize, Pricing.Tax, Pricing.LineNet, Sum;
    var items := PricingItems(lines);
    var nets, p := Pricing.LineNets(items), Pricing.Price(items, fee as real, 0, cfg.pricing);
    forall i | 0 <= i < |nets| ensures nets[i] >= 1 && p.lines[i].tax >= 0 {
      ValidLineNet(cfg, lines, i);
      TaxFromBelow(nets[i], lines[i].taxRate);
    }
    TermAtMostSum(nets, 0);
    SumNonNegative(Pricing.LineTaxes(p.lines));
    QuantizeOnGrid(fee);
    TaxFromBelow(fee, cfg.pricing.vatRate);
    TaxFromBelow(p.serviceFee, cfg.pricing.vatRate);
  }

  /** The base a promo code is validated against is the base the engine discounts. */
  lemma PreviewAgrees(lines: seq<LineInput>, fee: nat)
    ensures DiscountableBase(lines, fee) == PricingTheorems.Base(PricingItems(lines), fee as real)
  {
    hide Quantize, Sum;
    QuantizeOnGrid(fee);
  }

  lemma ValidLinesAreLegal(cfg: Settings, lines: seq<LineInput>, fee: nat)
    requires LinesValid(cfg, lines)
    ensures PricingTheorems.LegalInputs(PricingItems(lines), fee as real)
    ensures cfg.Valid() ==> PricingTheorems.LegalRates(PricingItems(lines), cfg.pricing)
  {
  }

  /** The pricing promo an invoice is computed with. */
  function PromoUsed(db: Db, promo: Option<nat>): Option<Pricing.Promo> {
    if promo.Some? && promo.value < |db.promos| then Some(db.promos[promo.value].pricing) else None
  }

  function DiscountGiven(db: Db, lines: seq<LineInput>, fee: nat, promo: Option<nat>): Result<int> {
    Pricing.Discount(DiscountableBase(lines, fee), PromoUsed(db, promo))
  }

  /** The price of the invoice, given the discount. */
  function PriceGiven(cfg: Settings, lines: seq<LineInput>, fee: nat, discount: int): Pricing.Priced {
    Pricing.Price(PricingItems(lines), fee as real, discount, cfg.pricing)
  }

  /** What the engine says of valid lines. */
  lemma {:induction false} EngineOutcome(cfg: Settings, db: Db, lines: seq<LineInput>, fee: nat, promo: Option<nat>)
    requires LinesValid(cfg, lines)
    ensures var d := DiscountGiven(db, lines, fee, promo);
            var r := Pricing.InvoiceTotals(PricingItems(lines), fee as real, PromoUsed(db, promo), cfg.pricing);
            if d.Err? || d.value < 0 then r.Err?
            else
              var p := PriceGiven(cfg, lines, fee, d.value);
              && (r.Ok? <==> 0 < p.total <= cfg.pricing.maxInvoice)
              && (r.Ok? ==> r.value == p)
              && p.itemsNet >= 0 && p.courierFee == fee && p.discount == d.value
  {
    hide Pricing.Price, Pricing.Allocated, Pricing.Reconstructed, Quantize, Sum, Pricing.Discount, LinesValid,
         PricingItems, PricingTheorems.LegalInputs;
    var items, d := PricingItems(lines), DiscountGiven(db, lines, fee, promo);
    ValidLinesAreLegal(cfg, lines, fee);
    PreviewAgrees(lines, fee);
    PricingTheorems.InvoiceTotalsOutcome(items, fee as real, PromoUsed(db, promo), cfg.pricing);
    if d.Ok? {
      PricedParts(cfg, lines, fee, d.value);
    }
  }

  lemma {:induction false} PricedParts(cfg: Settings, lines: seq<LineInput>, fee: nat, d: int)
    requires LinesValid(cfg, lines)
    ensures var p := PriceGiven(cfg, lines, fee, d); p.itemsNet >= 0 && p.courierFee == fee && p.discount == d
  {
    hide Quantize, Sum, Pricing.Tax, Pricing.ServiceFee, Pricing.Allocation, LinesValid, Pricing.LineNet;
    var nets := Pricing.LineNets(PricingItems(lines));
    forall i | 0 <= i < |nets| ensures nets[i] >= 0 {
      ValidLineNet(cfg, lines, i);
    }
    SumNonNegative(nets);
    QuantizeOnGrid(fee);
  }

  // ------------------------------------------------------------------ amounts from the request alone

  /** Unit prices times quantities, added up. */
  function LinesTotal(lines: seq<LineInput>): int {
    if |lines| == 0 then 0
    else LinesTotal(lines[..|lines| - 1]) + lines[|lines| - 1].unitPrice * lines[|lines| - 1].quantity
  }

  /** The exact tax on the lines, each after its part of the discount. */
  ghost function LinesTax(lines: seq<LineInput>, discounts: seq<int>): real
    requires |discounts| == |lines|
  {
    if |lines| == 0 then 0.0
    else
      var n := |lines| - 1;
      LinesTax(lines[..n], discounts[..n])
      + (lines[n].unitPrice * lines[n].quantity - discounts[n]) as real * lines[n].taxRate
  }

  lemma LineNetIs(line: LineInput, position: nat)
    ensures Pricing.LineNet(Pricing.Item(line.unitPrice as real, line.quantity, line.taxRate, position))
         == line.unitPrice * line.quantity
  {
    hide Quantize;
    var u, q := line.unitPrice, line.quantity;
    assert u as real * q as real == (u * q) as real;
    QuantizeOnGrid(u * q);
  }

  lemma {:induction false} ItemsNetIs(lines: seq<LineInput>)
    ensures Sum(Pricing.LineNets(PricingItems(lines))) == LinesTotal(lines)
  {
    hide Quantize, Pricing.LineNet;
    if |lines| > 0 {
      var n := |lines| - 1;
      ItemsNetIs(lines[..n]);
      LineNetIs(lines[n], n + 1);
      assert Pricing.LineNets(PricingItems(lines))[..n] == Pricing.LineNets(PricingItems(lines[..n]));
    }
  }

  /** The base a promo is measured against is what the courier asks for. */
  lemma BaseIs(lines: seq<LineInput>, fee: int)
    ensures DiscountableBase(lines, fee) == LinesTotal(lines) + fee
  {
    ItemsNetIs(lines);
  }

  lemma {:induction false} ExactTaxesAre(lines: seq<LineInput>, priced: seq<Pricing.Line>, discounts: seq<int>)
    requires |priced| == |discounts| == |lines|
    requires forall i :: 0 <= i < |lines| ==>
               && priced[i].taxable == lines[i].unitPrice * lines[i].quantity - discounts[i]
               && priced[i].taxRate == lines[i].taxRate
    ensures PricingTheorems.ExactTaxes(priced) == LinesTax(lines, discounts)
  {
    if |lines| > 0 {
      var n := |lines| - 1;
      ExactTaxesAre(lines[..n], priced[..n], discounts[..n]);
    }
  }

  lemma {:induction false} PricedLinesAre(cfg: Settings, lines: seq<LineInput>, fee: nat, d: int)
    ensures var p := PriceGiven(cfg, lines, fee, d);
            && |p.lines| == |lines|
            && forall i :: 0 <= i < |lines| ==>
                 && p.lines[i].taxable == lines[i].unitPrice * lines[i].quantity - p.lines[i].discount
                 && p.lines[i].taxRate == lines[i].taxRate
                 && p.lines[i].position == i + 1
                 && p.lines[i].unitPrice == lines[i].unitPrice && p.lines[i].quantity == lines[i].quantity
                 && p.lines[i].net == lines[i].unitPrice * lines[i].quantity
                 && p.lines[i].total == p.lines[i].taxable + p.lines[i].tax
  {
    hide Quantize, Sum, Pricing.Tax, Pricing.ServiceFee, Pricing.Allocation, Pricing.LineNet;
    var p := PriceGiven(cfg, lines, fee, d);
    forall i | 0 <= i < |lines|
      ensures p.lines[i].taxable == lines[i].unitPrice * lines[i].quantity - p.lines[i].discount
      ensures p.lines[i].taxRate == lines[i].taxRate && p.lines[i].position == i + 1
      ensures p.lines[i].unitPrice == lines[i].unitPrice && p.lines[i].quantity == lines[i].quantity
      ensures p.lines[i].net == lines[i].unitPrice * lines[i].quantity
      ensures p.lines[i].total == p.lines[i].taxable + p.lines[i].tax
    {
      LineNetIs(lines[i], i + 1);
      QuantizeOnGrid(lines[i].unitPrice);
    }
  }

  ghost predicate Within(q: int, x: real, tolerance: real) {
    -tolerance <= q as real - x <= tolerance
  }

  /** The service fee is the rated one, rounded, or the bound that one crosses. */
  ghost predicate FeeFits(fee: int, base: int, cfg: Pricing.Config) {
    var exact := base as real * cfg.serviceFeeRate;
    && cfg.serviceFeeMin <= fee <= cfg.serviceFeeMax
    && (cfg.serviceFeeMin < fee < cfg.serviceFeeMax ==> Within(fee, exact, 0.5))
    && (fee == cfg.serviceFeeMin < cfg.serviceFeeMax ==> exact <= fee as real + 0.5)
    && (fee == cfg.serviceFeeMax > cfg.serviceFeeMin ==> exact >= fee as real - 0.5)
  }

  /** The exact tax on a priced request: the lines at their rates, courier fee and service fee at the general one. */
  ghost function RequestTax(lines: seq<LineInput>, fee: int, vat: real, p: Pricing.Priced): real
    requires |p.lines| == |lines|
  {
    LinesTax(lines, Pricing.LineDiscounts(p.lines))
    + (fee - p.courierFeeDiscount) as real * vat + p.serviceFee as real * vat
  }

  /** What an invoice charges, from the request and the settings alone: the items at price times quantity, the courier's
      fee, a service fee at its rate within its bounds, the discount, handed out in full over lines and courier fee,
      and a tax within half a halala of the exact one for each line and for each fee. The total adds them up. */
  lemma {:induction false} RequestAmounts(cfg: Settings, lines: seq<LineInput>, fee: nat, d: int)
    requires cfg.Valid() && 0 <= cfg.pricing.serviceFeeMin <= cfg.pricing.serviceFeeMax && LinesValid(cfg, lines)
    requires 0 <= d <= LinesTotal(lines) + fee
    ensures var p := PriceGiven(cfg, lines, fee, d);
            && p.itemsNet == LinesTotal(lines) && p.courierFee == fee && p.discount == d
            && FeeFits(p.serviceFee, LinesTotal(lines) + fee, cfg.pricing)
            && |p.lines| == |lines| && Sum(Pricing.LineDiscounts(p.lines)) + p.courierFeeDiscount == d
            && Within(p.tax, RequestTax(lines, fee, cfg.pricing.vatRate, p), 0.5 * (|lines| + 2) as real)
            && p.total == p.itemsNet + p.courierFee + p.serviceFee - p.discount + p.tax
  {
    hide Quantize, Sum, Pricing.ServiceFee, PriceGiven, LinesValid, FeeFits, RequestTax, LinesTotal, Within;
    PricedParts(cfg, lines, fee, d);
    PricedSums(cfg, lines, fee, d);
    RequestFee(cfg, lines, fee);
    PricedLinesAre(cfg, lines, fee, d);
    RequestDiscount(cfg, lines, fee, d);
    RequestTaxed(cfg, lines, fee, d);
  }

  lemma RequestFee(cfg: Settings, lines: seq<LineInput>, fee: nat)
    requires cfg.Valid() && 0 <= cfg.pricing.serviceFeeMin <= cfg.pricing.serviceFeeMax && LinesValid(cfg, lines)
    ensures var base := LinesTotal(lines) + fee; FeeFits(Pricing.ServiceFee(base, cfg.pricing), base, cfg.pricing)
  {
    hide Pricing.ServiceFee, LinesTotal, LinesValid;
    BaseIsPositive(cfg, lines, fee);
    PricingTheorems.ServiceFeeIsClamped(LinesTotal(lines) + fee, LinesTotal(lines) + fee, cfg.pricing);
  }

  lemma RequestDiscount(cfg: Settings, lines: seq<LineInput>, fee: nat, d: int)
    requires LinesValid(cfg, lines) && 0 <= d <= LinesTotal(lines) + fee
    ensures var p := PriceGiven(cfg, lines, fee, d); Sum(Pricing.LineDiscounts(p.lines)) + p.courierFeeDiscount == d
  {
    hide Quantize, Sum, Pricing.Price, LinesValid, PricingTheorems.LegalInputs, LinesTotal, PricingItems;
    ValidLinesAreLegal(cfg, lines, fee);
    BaseIs(lines, fee);
    PreviewAgrees(lines, fee);
    PricingTheorems.PriceLegs(PricingItems(lines), fee as real, d, cfg.pricing);
  }

  lemma {:induction false} RequestTaxed(cfg: Settings, lines: seq<LineInput>, fee: nat, d: int)
    requires LinesValid(cfg, lines)
    ensures var p := PriceGiven(cfg, lines, fee, d);
            && |p.lines| == |lines|
            && Within(p.tax, RequestTax(lines, fee, cfg.pricing.vatRate, p), 0.5 * (|lines| + 2) as real)
  {
    hide Quantize, Sum, Pricing.Price, LinesValid, PricingTheorems.ExactTaxes, LinesTax, Pricing.Part;
    var p, vat := PriceGiven(cfg, lines, fee, d), cfg.pricing.vatRate;
    PricedParts(cfg, lines, fee, d);
    PricedLinesAre(cfg, lines, fee, d);
    ExactTaxesAre(lines, p.lines, Pricing.LineDiscounts(p.lines));
    PartIs(fee - p.courierFeeDiscount, vat);
    PartIs(p.serviceFee, vat);
    PricingTheorems.TaxErrorBound(PricingItems(lines), fee as real, d, cfg.pricing);
  }

  lemma PartIs(n: int, rate: real)
    ensures Pricing.Part(n, rate) == n as real * rate
  {
  }

  lemma {:induction false} PricedSums(cfg: Settings, lines: seq<LineInput>, fee: nat, d: int)
    ensures var p := PriceGiven(cfg, lines, fee, d);
            && p.itemsNet == LinesTotal(lines)
            && p.serviceFee == Pricing.ServiceFee(LinesTotal(lines) + fee, cfg.pricing)
            && p.total == p.itemsNet + p.courierFee + p.serviceFee - p.discount + p.tax
  {
    hide Quantize, Sum, Pricing.Tax, Pricing.ServiceFee, Pricing.Allocation, Pricing.LineNet;
    ItemsNetIs(lines);
    QuantizeOnGrid(fee);
  }

  lemma {:induction false} BaseIsPositive(cfg: Settings, lines: seq<LineInput>, fee: nat)
    requires LinesValid(cfg, lines)
    ensures LinesTotal(lines) + fee > 0
  {
    hide Quantize, Pricing.LineNet, Sum;
    var nets := Pricing.LineNets(PricingItems(lines));
    forall i | 0 <= i < |nets| ensures nets[i] >= 1 {
      ValidLineNet(cfg, lines, i);
    }
    TermAtMostSum(nets, 0);
    ItemsNetIs(lines);
  }

  // ------------------------------------------------------------------ promos

  /** A redemption of the promo, by the user if one is named, that has not been released. */
  ghost predicate Counts(r: Option<Redemption>, promo: nat, user: Option<nat>) {
    && r.Some? && r.value.promo == promo && (r.value.status.Reserved? || r.value.status.Consumed?)
    && (user.Some? ==> r.value.user == user.value)
  }

  /** The invoices with such a redemption. */
  ghost function Holders(redemptions: seq<Option<Redemption>>, promo: nat, user: Option<nat>): set<nat> {
    set i: nat | i < |redemptions| && Counts(redemptions[i], promo, user)
  }

  lemma HoldersStep(redemptions: seq<Option<Redemption>>, promo: nat, user: Option<nat>)
    requires |redemptions| > 0
    ensures var n := |redemptions| - 1;
            var before := Holders(redemptions[..n], promo, user);
            && n !in before
            && Holders(redemptions, promo, user)
               == if Counts(redemptions[n], promo, user) then before + {n} else before
  {
    hide Counts;
  }

  lemma CountsIs(r: Option<Redemption>, promo: nat, user: Option<nat>)
    ensures Counts(r, promo, user) <==> Occupies(r, promo, user)
  {
  }

  /** A promo's uses are the number of those invoices. */
  lemma {:induction false} UsesAreCounted(redemptions: seq<Option<Redemption>>, promo: nat, user: Option<nat>)
    ensures Uses(redemptions, promo, user) == |Holders(redemptions, promo, user)|
  {
    hide Holders, Occupies, Counts;
    if |redemptions| > 0 {
      var n := |redemptions| - 1;
      UsesAreCounted(redemptions[..n], promo, user);
      HoldersStep(redemptions, promo, user);
      CountsIs(redemptions[n], promo, user);
      assert UseTerms(redemptions, promo, user)[..n] == UseTerms(redemptions[..n], promo, user);
    } else {
      NoHolders(promo, user);
    }
  }

  lemma NoHolders(promo: nat, user: Option<nat>)
    ensures Holders([], promo, user) == {}
  {
  }

  /** A promo is valid for a base and a user exactly when it is active, has started and not ended, the base reaches its
      minimum, a slot is left, and the user has used it less often than each user may. */
  lemma ValidatePromoOutcome(db: Db, promo: nat, base: int, user: nat, now: int)
    ensures ValidatePromo(db, promo, base, user, now).Ok? <==> PromoUsable(db, promo, base, user, now)
    ensures promo >= |db.promos| ==> ValidatePromo(db, promo, base, user, now) == Err(NotFound)
  {
    hide Uses, Holders;
    UsesAreCounted(db.redemptions, promo, Some(user));
  }

  ghost predicate PromoUsable(db: Db, promo: nat, base: int, user: nat, now: int) {
    && promo < |db.promos|
    && var p := db.promos[promo];
       && p.active && base >= p.minOrder
       && (p.startsAt.Some? ==> now >= p.startsAt.value)
       && (p.endsAt.Some? ==> now < p.endsAt.value)
       && (p.maxTotal.Some? ==> p.maxTotal.value > p.used)
       && p.maxPerUser > |Holders(db.redemptions, promo, Some(user))|
  }

  /** A slot is reserved on the same terms, the minimum base apart, whatever was validated before. */
  lemma ReservePromoOutcome(db: Db, promo: nat, user: nat, now: int)
    ensures ReservePromo(db, promo, user, now).Ok?
       <==> promo < |db.promos| && PromoUsable(db, promo, db.promos[promo].minOrder, user, now)
  {
    hide Uses, Holders;
    UsesAreCounted(db.redemptions, promo, Some(user));
  }

  lemma ValidatedIsReservable(db: Db, promo: nat, base: int, user: nat, now: int)
    requires ValidatePromo(db, promo, base, user, now).Ok?
    ensures promo < |db.promos| && ReservePromo(db, promo, user, now).Ok?
  {
    hide Uses;
  }

  // ------------------------------------------------------------------ issuing

  lemma NoActiveInvoice(db: Db, o: nat)
    requires Inv(db) && o < |db.orders| && db.orders[o].status.Assigned?
    ensures ActiveInvoice(db.invoices, o).None?
  {
    hide LedgerLaw, PromoLaw, EscrowDue, EscrowOnce, TopupOnce, PayoutOnce, KeyLaw, IntentLaw, HoldLaw,
         ActiveInvoice, Overdrawn;
    ActiveStatus(|db.wallets|, db.orders, db.invoices, o);
  }

  /** Everything issuing asks of the order, the promo and the price. */
  ghost predicate Issuable(cfg: Settings, db: Db, o: nat, actor: nat, lines: seq<LineInput>, fee: nat,
      promo: Option<nat>, now: int) {
    && o < |db.orders| && IsParticipant(db.orders[o], actor) && db.orders[o].status.Assigned?
    && InWindow(db.orders[o].deliveryDate, now)
    && 1 <= |lines| <= cfg.maxInvoiceItems
    && (forall line :: line in lines ==>
          && 1 <= line.unitPrice <= cfg.maxUnitPrice && 1 <= line.quantity <= 999
          && 0.0 <= line.taxRate <= 1.0)
    && (promo.Some? ==> PromoUsable(db, promo.value, LinesTotal(lines) + fee, db.orders[o].customer, now))
    && var d := DiscountGiven(db, lines, fee, promo);
       && d.Ok? && (promo.Some? ==> d.value > 0)
       && var p := PriceGiven(cfg, lines, fee, d.value);
          0 < p.total <= cfg.pricing.maxInvoice && p.serviceFee >= 0 && p.tax >= 0
  }

  /** The invoice row: who issued it for which order, every amount of its price, nothing paid yet, and its deadline. */
  ghost function IssuedRow(
      cfg: Settings, o: nat, actor: nat, promo: Option<nat>, now: int, p: Pricing.Priced): Invoice
  {
    Invoice(order := o, issuer := actor, status := Issued, promo := promo, expiresAt := now + cfg.expirySeconds,
            itemsNet := p.itemsNet, courierFee := p.courierFee, serviceFee := p.serviceFee,
            discount := p.discount, tax := p.tax, total := p.total,
            fromWallet := 0, fromGateway := 0, paymentMethod := None)
  }

  ghost function OneMoreUse(promos: seq<Promo>, promo: nat): seq<Promo> {
    if promo < |promos| then promos[promo := promos[promo].(used := promos[promo].used + 1)] else promos
  }

  lemma ReservedOnce(db: Db, promo: nat, user: nat, now: int)
    requires ReservePromo(db, promo, user, now).Ok?
    ensures ReservePromo(db, promo, user, now).value == db.(promos := OneMoreUse(db.promos, promo))
  {
    hide Uses;
  }

  lemma LinesValidIs(cfg: Settings, lines: seq<LineInput>)
    ensures LinesValid(cfg, lines)
       <==> && 1 <= |lines| <= cfg.maxInvoiceItems
            && forall line :: line in lines ==>
                 && 1 <= line.unitPrice <= cfg.maxUnitPrice && 1 <= line.quantity <= 999
                 && 0.0 <= line.taxRate <= 1.0
  {
  }

  /** Issuing an invoice, with or without a promo, never fails for a reason of its own: it commits exactly when the
      actor takes part in the order, the order is ASSIGNED and not past its date, the lines are valid, the promo is
      valid and discounts something, the total is positive and within the maximum, and neither service fee nor tax
      is negative. The order then waits for exactly that total, the new invoice holds every amount of that price, and
      a promo has one more use, reserved for the customer. */
  lemma {:induction false} IssueOutcome(
      cfg: Settings, db: Db, o: nat, actor: nat, lines: seq<LineInput>, fee: nat, promo: Option<nat>, now: int)
    requires Inv(db)
    ensures var r := CreateInvoice(cfg, db, o, actor, lines, fee, promo, now);
            && (r.Ok? <==> Issuable(cfg, db, o, actor, lines, fee, promo, now))
            && (r.Ok? ==>
                  var p := PriceGiven(cfg, lines, fee, DiscountGiven(db, lines, fee, promo).value);
                  r.value == db.(
                    orders := db.orders[o := db.orders[o].(status := WaitingPayment, total := p.total)],
                    invoices := db.invoices + [IssuedRow(cfg, o, actor, promo, now, p)],
                    redemptions := db.redemptions
                      + [if promo.None? then None
                         else Some(Redemption(promo.value, db.orders[o].customer, Reserved))],
                    promos := if promo.None? then db.promos else OneMoreUse(db.promos, promo.value)))
  {
    hide Inv, LinesValid, PriceGiven, ActiveInvoice, Quantize, ValidatePromo, ReservePromo, Pricing.InvoiceTotals,
         DiscountGiven, PricingItems, PromoUsable, DiscountableBase, LinesTotal;
    LinesValidIs(cfg, lines);
    BaseIs(lines, fee);
    if o < |db.orders| && promo.Some? {
      ValidatePromoOutcome(db, promo.value, DiscountableBase(lines, fee), db.orders[o].customer, now);
    }
    if o < |db.orders| && db.orders[o].status.Assigned? {
      NoActiveInvoice(db, o);
      OrdersWellFormed(db, o);
    }
    if LinesValid(cfg, lines) {
      EngineOutcome(cfg, db, lines, fee, promo);
    }
    if o < |db.orders| && promo.Some?
        && ValidatePromo(db, promo.value, DiscountableBase(lines, fee), db.orders[o].customer, now).Ok? {
      ValidatedIsReservable(db, promo.value, DiscountableBase(lines, fee), db.orders[o].customer, now);
      ReservedOnce(db, promo.value, db.orders[o].customer, now);
    }
    PlainDiscount(db, lines, fee);
  }

  lemma PlainDiscount(db: Db, lines: seq<LineInput>, fee: nat)
    ensures DiscountGiven(db, lines, fee, None) == Ok(0)
  {
  }

  /** A condition a deployment can check once: if the tax on the service-fee floor covers half a halala for each line
      an invoice may have, no promo is ever refused for a negative tax. The default settings meet it. */
  lemma {:induction false} FloorProtectsPromos(cfg: Settings, db: Db, lines: seq<LineInput>, fee: nat,
      promo: Option<nat>)
    requires cfg.Valid() && LinesValid(cfg, lines)
    requires 0 <= cfg.pricing.serviceFeeMin <= cfg.pricing.serviceFeeMax
    requires 2 * Pricing.Tax(cfg.pricing.serviceFeeMin, cfg.pricing.vatRate) >= cfg.maxInvoiceItems
    requires DiscountGiven(db, lines, fee, promo).Ok? && DiscountGiven(db, lines, fee, promo).value >= 0
    ensures var p := PriceGiven(cfg, lines, fee, DiscountGiven(db, lines, fee, promo).value);
            p.serviceFee >= 0 && p.tax >= 0
  {
    hide Pricing.Price, Quantize, Sum, Pricing.Discount, PricingItems, PricingTheorems.LegalInputs,
         PricingTheorems.LegalRates, Pricing.ServiceFee, Pricing.Tax;
    var d := DiscountGiven(db, lines, fee, promo).value;
    FeeAboveFloor(cfg, lines, fee, d);
    if d > 0 {
      ValidLinesAreLegal(cfg, lines, fee);
      PreviewAgrees(lines, fee);
      DiscountWithinBase(db, lines, fee, promo);
      LinesWithinMaximum(cfg, lines);
      TaxFloor(PricingItems(lines), fee as real, d, cfg.pricing);
      TaxRises(cfg.pricing.serviceFeeMin, PriceGiven(cfg, lines, fee, d).serviceFee, cfg.pricing.vatRate);
    } else {
      PlainPriceIsSound(cfg, lines, fee);
    }
  }

  lemma DiscountWithinBase(db: Db, lines: seq<LineInput>, fee: nat, promo: Option<nat>)
    requires DiscountGiven(db, lines, fee, promo).Ok? && DiscountGiven(db, lines, fee, promo).value > 0
    ensures DiscountGiven(db, lines, fee, promo).value <= DiscountableBase(lines, fee)
  {
  }

  lemma LinesWithinMaximum(cfg: Settings, lines: seq<LineInput>)
    requires LinesValid(cfg, lines)
    ensures |PricingItems(lines)| <= cfg.maxInvoiceItems
  {
  }

  lemma TaxRises(a: int, b: int, rate: real)
    requires a <= b && Pricing.IsRate(rate)
    ensures Pricing.Tax(a, rate) <= Pricing.Tax(b, rate)
  {
    hide Pricing.Part;
    PricingTheorems.ScaledByRate(a, b, rate);
    QuantizeMonotone(Pricing.Part(a, rate), Pricing.Part(b, rate));
  }

  lemma {:induction false} FeeAboveFloor(cfg: Settings, lines: seq<LineInput>, fee: nat, d: int)
    requires cfg.Valid() && LinesValid(cfg, lines) && 0 <= cfg.pricing.serviceFeeMin <= cfg.pricing.serviceFeeMax
    ensures PriceGiven(cfg, lines, fee, d).serviceFee >= cfg.pricing.serviceFeeMin
  {
    hide Quantize, Sum, Pricing.Tax, Pricing.ServiceFee, Pricing.Allocation, LinesValid, Pricing.LineNet;
    var nets := Pricing.LineNets(PricingItems(lines));
    forall i | 0 <= i < |nets| ensures nets[i] >= 1 {
      ValidLineNet(cfg, lines, i);
    }
    SomeLine(cfg, lines);
    TermAtMostSum(nets, 0);
    QuantizeOnGrid(fee);
    PricingTheorems.ServiceFeeIsClamped(Sum(nets) + fee, Sum(nets) + fee, cfg.pricing);
  }

  lemma SomeLine(cfg: Settings, lines: seq<LineInput>)
    requires LinesValid(cfg, lines)
    ensures |lines| >= 1
  {
  }

  /** The default settings: a fee floor of 5.00 SAR at 15% VAT, and at most 20 lines. */
  lemma DefaultFloorSuffices()
    ensures 2 * Pricing.Tax(500, 0.15) >= 20
  {
  }
}
