/** app/core/pricing.py: the pricing engine. */
module Pricing {
  import opened Results
  import opened Sums
  import opened Money

  datatype Item = Item(unitPrice: real, quantity: int, taxRate: real, position: nat)

  datatype DiscountKind = Percent | Fixed

  datatype Promo = Promo(
    kind: DiscountKind, percentValue: Option<real>, fixedAmount: Option<int>, maxDiscount: Option<int>)

  datatype Config = Config(
    serviceFeeRate: real, serviceFeeMin: int, serviceFeeMax: int, vatRate: real, maxInvoice: int)

  datatype Line = Line(
    position: nat, unitPrice: int, quantity: int, taxRate: real,
    net: int, discount: int, taxable: int, tax: int, total: int)

  datatype Priced = Priced(
    lines: seq<Line>, itemsNet: int, courierFee: int, courierFeeDiscount: int, courierFeeTax: int,
    serviceFee: int, serviceFeeTax: int, discount: int, netAfterDiscount: int, tax: int, total: int)

  datatype Settlement = Settlement(commission: int, payout: int, tax: int, revenue: int)

  predicate IsRate(r: real) {
    0.0 <= r <= 1.0
  }

  function Min(a: int, b: int): int {
    if a <= b then a else b
  }

  function Max(a: int, b: int): int {
    if a <= b then b else a
  }

  // ------------------------------------------------------------------ the value-only steps

  function LineNet(item: Item): int {
    Quantize(item.unitPrice * item.quantity as real)
  }

  function LineNets(items: seq<Item>): (nets: seq<int>)
    ensures |nets| == |items|
  {
    seq(|items|, i requires 0 <= i < |items| => LineNet(items[i]))
  }

  /** The part of an amount that a rate takes, before rounding. */
  function Part(amount: int, rate: real): real {
    amount as real * rate
  }

  /** The service fee before rounding and clamping. */
  function RatedFee(base: int, cfg: Config): real {
    Part(base, cfg.serviceFeeRate)
  }

  function ServiceFee(base: int, cfg: Config): int {
    if base <= 0 then 0
    else Min(Max(Quantize(RatedFee(base, cfg)), cfg.serviceFeeMin), cfg.serviceFeeMax)
  }

  /** The discount on a base, never more than the base. */
  function Discount(discountable: int, promo: Option<Promo>): (r: Result<int>)
    ensures r.Ok? && promo.Some? ==> r.value <= discountable
  {
    match promo
    case None => Ok(0)
    case Some(p) =>
      if p.kind.Percent? then
        if p.percentValue.None? then Err(PricingPromoValue) else
        var d := Quantize(discountable as real * p.percentValue.value / 100.0);
        var capped := if p.maxDiscount.Some? then Min(d, p.maxDiscount.value) else d;
        Ok(Min(capped, discountable))
      else
        if p.fixedAmount.None? then Err(PricingPromoValue)
        else Ok(Min(p.fixedAmount.value, discountable))
  }

  // ------------------------------------------------------------------ allocating the discount

  /** The rounded pro-rata share of a component. */
  function Share(discount: int, net: int, discountable: int): int
    requires discountable != 0
  {
    Quantize(discount as real * net as real / discountable as real)
  }

  /** The components a discount is spread over: every line, then the courier fee. */
  function Components(nets: seq<int>, courierFee: int): seq<int> {
    nets + [courierFee]
  }

  /** The last line with a positive net, or 0 when no line has one. */
  function LastPositive(nets: seq<int>): (k: nat)
    ensures k < |nets| || (k == 0 && nets == [])
    ensures (exists i :: 0 <= i < |nets| && nets[i] > 0) ==> nets[k] > 0
    ensures forall i :: k < i < |nets| ==> nets[i] <= 0
  {
    if |nets| == 0 then 0
    else if nets[|nets| - 1] > 0 then |nets| - 1
    else LastPositive(nets[..|nets| - 1])
  }

  /** The component that takes the rounding residue. */
  function Absorber(nets: seq<int>, courierFee: int): (k: nat)
    ensures k <= |nets|
  {
    if courierFee > 0 then |nets| else LastPositive(nets)
  }

  /** Shares with the absorber's own share left out. The courier fee, which comes last, has none unless it is
      positive. */
  function OtherShares(comps: seq<int>, discount: int, k: nat): (r: seq<int>)
    requires Sum(comps) != 0
    ensures |r| == |comps|
  {
    seq(|comps|, i requires 0 <= i < |comps| =>
      if i == k || (i == |comps| - 1 && comps[i] <= 0) then 0 else Share(discount, comps[i], Sum(comps)))
  }

  /** What every component but the absorber is given is its rounded share; the absorber is given
      whatever then remains of the discount. */
  function Allocation(comps: seq<int>, discount: int, k: nat): (r: seq<int>)
    requires k < |comps|
    ensures |r| == |comps|
  {
    if discount <= 0 || Sum(comps) <= 0 then seq(|comps|, i => 0)
    else
      var others := OtherShares(comps, discount, k);
      others[k := discount - Sum(others)]
  }

  // ------------------------------------------------------------------ the totals

  function Tax(taxable: int, rate: real): int {
    Quantize(Part(taxable, rate))
  }

  function PriceLine(item: Item, index: nat, alloc: int): Line {
    var taxable := LineNet(item) - alloc;
    var tax := Tax(taxable, item.taxRate);
    Line(if item.position != 0 then item.position else index + 1, Quantize(item.unitPrice), item.quantity,
         item.taxRate, LineNet(item), alloc, taxable, tax, taxable + tax)
  }

  function PriceLines(items: seq<Item>, alloc: seq<int>): (lines: seq<Line>)
    requires |items| <= |alloc|
    ensures |lines| == |items|
  {
    seq(|items|, i requires 0 <= i < |items| => PriceLine(items[i], i, alloc[i]))
  }

  function LineTaxes(lines: seq<Line>): (r: seq<int>)
    ensures |r| == |lines|
  {
    seq(|lines|, i requires 0 <= i < |lines| => lines[i].tax)
  }

  function LineDiscounts(lines: seq<Line>): (r: seq<int>)
    ensures |r| == |lines|
  {
    seq(|lines|, i requires 0 <= i < |lines| => lines[i].discount)
  }

  function LineTotals(lines: seq<Line>): (r: seq<int>)
    ensures |r| == |lines|
  {
    seq(|lines|, i requires 0 <= i < |lines| => lines[i].total)
  }

  /** The legs of an invoice, given its priced lines. */
  function Assemble(
      lines: seq<Line>, itemsNet: int, fee: int, courierAlloc: int, service: int, discount: int, vat: real): Priced
  {
    var courierTax := Tax(fee - courierAlloc, vat);
    var serviceTax := Tax(service, vat);
    var tax := Sum(LineTaxes(lines)) + courierTax + serviceTax;
    var net := itemsNet + fee + service - discount;
    Priced(lines, itemsNet, fee, courierAlloc, courierTax, service, serviceTax, discount, net, tax, net + tax)
  }

  /** Every leg of the invoice before the integrity checks. */
  function Price(items: seq<Item>, courierFee: real, discount: int, cfg: Config): Priced {
    var nets := LineNets(items);
    var fee := Quantize(courierFee);
    var alloc := Allocation(Components(nets, fee), discount, Absorber(nets, fee));
    Assemble(PriceLines(items, alloc), Sum(nets), fee, alloc[|items|],
             ServiceFee(Sum(nets) + fee, cfg), discount, cfg.vatRate)
  }

  /** The discounts handed out, as the engine re-adds them before it trusts a price. */
  function Allocated(p: Priced): int {
    Sum(LineDiscounts(p.lines)) + p.courierFeeDiscount
  }

  /** The legs, as the engine re-adds them before it trusts a price. */
  function Reconstructed(p: Priced): int {
    Sum(LineTotals(p.lines))
    + (p.courierFee - p.courierFeeDiscount + p.courierFeeTax)
    + (p.serviceFee + p.serviceFeeTax)
  }

  /** The price of an invoice, or the integrity error that is raised instead. */
  function InvoiceTotals(items: seq<Item>, courierFee: real, promo: Option<Promo>, cfg: Config): Result<Priced> {
    var discount :- Discount(Sum(LineNets(items)) + Quantize(courierFee), promo);
    var p := Price(items, courierFee, discount, cfg);
    if Allocated(p) != discount then Err(PricingAllocation)
    else if Reconstructed(p) != p.total then Err(PricingLegs)
    else if p.total <= 0 then Err(PricingNotPositive)
    else if p.total > cfg.maxInvoice then Err(PricingTooLarge)
    else Ok(p)
  }

  function Commission(base: int, rate: real): int {
    Quantize(Part(base, rate))
  }

  /** How a paid total is divided on completion. */
  function ComputeSettlement(itemsNet: int, courierFee: int, tax: int, total: int, commissionRate: real): Settlement {
    var base := itemsNet + courierFee;
    var commission := Commission(base, commissionRate);
    var payout := base - commission;
    Settlement(commission, payout, tax, total - tax - payout)
  }
}
