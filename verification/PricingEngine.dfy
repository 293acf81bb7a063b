/** The engine's loops (app/core/pricing.py:209-242 and 245-373), proved against the value-only
    description in `Pricing`. */
module PricingEngine {
  import opened Results
  import opened Sums
  import opened Money
  import opened Pricing

  /** A rounded share for every line. */
  function LineShares(nets: seq<int>, discount: int, discountable: int): (r: seq<int>)
    requires discountable != 0
    ensures |r| == |nets|
  {
    seq(|nets|, i requires 0 <= i < |nets| => Share(discount, nets[i], discountable))
  }

  /** Spread the discount pro rata, then patch the residue onto the absorbing component. */
  method AllocateDiscount(nets: seq<int>, courierFee: int, discount: int, discountable: int)
    returns (lineAlloc: seq<int>, courierAlloc: int)
    requires discountable == Sum(nets) + courierFee
    ensures lineAlloc + [courierAlloc]
         == Allocation(Components(nets, courierFee), discount, Absorber(nets, courierFee))
  {
    hide Share, LastPositive, Allocation, Sum, LineShares;
    if discount <= 0 || discountable <= 0 {
      lineAlloc, courierAlloc := seq(|nets|, i => 0), 0;
      Unallocated(nets, courierFee, discount);
      return;
    }
    Patched(nets, courierFee, discount);
    lineAlloc := LineShares(nets, discount, discountable);
    courierAlloc := if courierFee > 0 then Share(discount, courierFee, discountable) else 0;
    ghost var shares, k := lineAlloc + [courierAlloc], Absorber(nets, courierFee);
    SumAppend(lineAlloc, courierAlloc);
    var residue := discount - (Sum(lineAlloc) + courierAlloc);
    if residue != 0 {
      if courierFee > 0 {
        courierAlloc := courierAlloc + residue;
      } else {
        var last := LastPositive(nets);
        lineAlloc := lineAlloc[last := lineAlloc[last] + residue];
      }
    }
    assert lineAlloc + [courierAlloc] == shares[k := shares[k] + residue];
  }

  /** The allocation is every component's own share, with the residue added to the absorber's. */
  lemma {:induction false} Patched(nets: seq<int>, courierFee: int, discount: int)
    requires Sum(nets) + courierFee > 0 && discount > 0
    ensures courierFee <= 0 ==> |nets| > 0
    ensures var base, k := Sum(nets) + courierFee, Absorber(nets, courierFee);
            var courierShare := if courierFee > 0 then Share(discount, courierFee, base) else 0;
            var shares := LineShares(nets, discount, base) + [courierShare];
            && k < |shares|
            && Allocation(Components(nets, courierFee), discount, k)
                == shares[k := shares[k] + (discount - Sum(shares))]
  {
    hide Share, LastPositive;
    var comps, base, k := Components(nets, courierFee), Sum(nets) + courierFee, Absorber(nets, courierFee);
    SumAppend(nets, courierFee);
    if courierFee <= 0 {
      PositiveLineExists(nets);
    }
    var shares := LineShares(nets, discount, base) + [if courierFee > 0 then Share(discount, courierFee, base) else 0];
    assert OtherShares(comps, discount, k) == shares[k := 0];
    SumUpdate(shares, k, 0);
  }

  lemma {:induction false} Unallocated(nets: seq<int>, courierFee: int, discount: int)
    requires discount <= 0 || Sum(nets) + courierFee <= 0
    ensures Allocation(Components(nets, courierFee), discount, Absorber(nets, courierFee)) == seq(|nets|, i => 0) + [0]
  {
    hide Share, LastPositive, Sum;
    SumAppend(nets, courierFee);
  }

  lemma {:induction false} PositiveLineExists(nets: seq<int>)
    requires Sum(nets) > 0
    ensures exists i :: 0 <= i < |nets| && nets[i] > 0
  {
    if forall i :: 0 <= i < |nets| ==> nets[i] <= 0 {
      SumMonotone(nets, seq(|nets|, i => 0));
      SumZero(seq(|nets|, i => 0));
    }
  }

  /** Tax every line on its discounted base, accumulating the lines and their tax. */
  method TaxLines(items: seq<Item>, nets: seq<int>, lineAlloc: seq<int>, ghost alloc: seq<int>)
    returns (lines: seq<Line>, tax: int)
    requires nets == LineNets(items) && |lineAlloc| == |items| <= |alloc| && lineAlloc == alloc[..|items|]
    ensures lines == PriceLines(items, alloc)
    ensures tax == Sum(LineTaxes(lines))
  {
    lines, tax := [], 0;
    for idx := 0 to |items|
      invariant |lines| == idx && forall i :: 0 <= i < idx ==> lines[i] == PriceLine(items[i], i, alloc[i])
      invariant tax == Sum(LineTaxes(lines))
    {
      var item := items[idx];
      var taxable := nets[idx] - lineAlloc[idx];
      var lineTax := Tax(taxable, item.taxRate);
      tax := tax + lineTax;
      var line := Line(if item.position != 0 then item.position else idx + 1, Quantize(item.unitPrice),
                       item.quantity, item.taxRate, nets[idx], lineAlloc[idx], taxable, lineTax, taxable + lineTax);
      assert LineTaxes(lines + [line]) == LineTaxes(lines) + [lineTax];
      SumAppend(LineTaxes(lines), lineTax);
      lines := lines + [line];
    }
  }

  /** Price every leg and re-check the result before returning it. */
  method CalculateInvoiceTotals(items: seq<Item>, courierFee: real, promo: Option<Promo>, cfg: Config)
    returns (r: Result<Priced>)
    ensures r == InvoiceTotals(items, courierFee, promo, cfg)
  {
    hide Allocation, Tax, Quantize, ServiceFee, Discount, Allocated, Reconstructed, Absorber, Sum, LineNet, PriceLines;
    var nets := LineNets(items);
    var itemsNet := Sum(nets);
    var fee := Quantize(courierFee);
    var service := ServiceFee(itemsNet + fee, cfg);
    var discountable := itemsNet + fee;
    var d := Discount(discountable, promo);
    if d.Err? {
      return d.PropagateFailure();
    }
    var discount := d.value;
    var lineAlloc, courierAlloc := AllocateDiscount(nets, fee, discount, discountable);
    ghost var alloc := lineAlloc + [courierAlloc];
    var lines, tax := TaxLines(items, nets, lineAlloc, alloc);
    var courierTax := Tax(fee - courierAlloc, cfg.vatRate);
    var serviceTax := Tax(service, cfg.vatRate);
    tax := tax + (courierTax + serviceTax);
    var net := itemsNet + fee + service - discount;
    var p := Priced(lines, itemsNet, fee, courierAlloc, courierTax, service, serviceTax, discount, net, tax, net + tax);
    assert p == Price(items, courierFee, discount, cfg);
    if Allocated(p) != discount {
      return Err(PricingAllocation);
    }
    if Reconstructed(p) != p.total {
      return Err(PricingLegs);
    }
    if p.total <= 0 {
      return Err(PricingNotPositive);
    }
    if p.total > cfg.maxInvoice {
      return Err(PricingTooLarge);
    }
    return Ok(p);
  }

  lemma NetNonNegative(item: Item)
    requires item.unitPrice >= 0.0 && item.quantity >= 0
    ensures LineNet(item) >= 0
  {
    assert item.unitPrice * item.quantity as real >= 0.0;
  }
}
