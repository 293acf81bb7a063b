/** How promo slots move with the invoices that use them. */
module PromoProofs {
  import opened Results
  import opened Sums
  import opened Tables
  import opened Market
  import opened Laws

  lemma UsesAppend(redemptions: seq<Option<Redemption>>, r: Option<Redemption>, p: nat, user: Option<nat>)
    ensures Uses(redemptions + [r], p, user) == Uses(redemptions, p, user) + (if Occupies(r, p, user) then 1 else 0)
  {
    hide Sum;
    var x := if Occupies(r, p, user) then 1 else 0;
    assert UseTerms(redemptions + [r], p, user) == UseTerms(redemptions, p, user) + [x];
    SumAppend(UseTerms(redemptions, p, user), x);
  }

  lemma UsesUpdate(redemptions: seq<Option<Redemption>>, i: nat, r: Option<Redemption>, p: nat, user: Option<nat>)
    requires i < |redemptions|
    ensures Uses(redemptions[i := r], p, user)
         == Uses(redemptions, p, user) - (if Occupies(redemptions[i], p, user) then 1 else 0)
            + (if Occupies(r, p, user) then 1 else 0)
  {
    hide Sum;
    var before, x := UseTerms(redemptions, p, user), if Occupies(r, p, user) then 1 else 0;
    assert UseTerms(redemptions[i := r], p, user) == before[i := x];
    SumUpdate(before, i, x);
  }

  lemma OccupiedIsUsed(redemptions: seq<Option<Redemption>>, i: nat, p: nat, user: Option<nat>)
    requires i < |redemptions| && Occupies(redemptions[i], p, user)
    ensures Uses(redemptions, p, user) >= 1
  {
    hide Sum;
    TermAtMostSum(UseTerms(redemptions, p, user), i);
  }

  /** A new promo has no uses; more promos change nothing else. */
  lemma NewPromoKeeps(promos: seq<Promo>, invoices: seq<Invoice>, redemptions: seq<Option<Redemption>>, p: Promo)
    requires PromoLaw(promos, invoices, redemptions) && p.used == 0
    ensures PromoLaw(promos + [p], invoices, redemptions)
  {
    hide Sum;
    var promos', q := promos + [p], |promos|;
    forall i | 0 <= i < |invoices| ensures RedemptionFits(invoices[i], redemptions[i], |promos'|) {
      assert RedemptionFits(invoices[i], redemptions[i], |promos|);
    }
    forall user: Option<nat> ensures Uses(redemptions, q, user) == 0 {
      forall i | 0 <= i < |redemptions| ensures !Occupies(redemptions[i], q, user) {
        assert RedemptionFits(invoices[i], redemptions[i], |promos|);
      }
      SumZero(UseTerms(redemptions, q, user));
    }
    forall k | 0 <= k < |promos'| ensures PromoWithinCaps(promos'[k], Uses(redemptions, k, None)) {
      if k < |promos| {
        assert PromoWithinCaps(promos[k], Uses(redemptions, k, None));
      }
    }
  }

  lemma ToggleKeeps(promos: seq<Promo>, invoices: seq<Invoice>, redemptions: seq<Option<Redemption>>, p: nat,
      active: bool)
    requires PromoLaw(promos, invoices, redemptions) && p < |promos|
    ensures PromoLaw(promos[p := promos[p].(active := active)], invoices, redemptions)
  {
    hide Uses;
    var promos' := promos[p := promos[p].(active := active)];
    forall k | 0 <= k < |promos'| ensures PromoWithinCaps(promos'[k], Uses(redemptions, k, None)) {
      assert PromoWithinCaps(promos[k], Uses(redemptions, k, None));
    }
  }

  /** Issuing without a promo. */
  lemma IssuePlainKeeps(promos: seq<Promo>, invoices: seq<Invoice>, redemptions: seq<Option<Redemption>>, inv: Invoice)
    requires PromoLaw(promos, invoices, redemptions) && inv.promo.None?
    ensures PromoLaw(promos, invoices + [inv], redemptions + [None])
  {
    hide Uses;
    forall p: nat, user: Option<nat> ensures Uses(redemptions + [None], p, user) == Uses(redemptions, p, user) {
      UsesAppend(redemptions, None, p, user);
    }
    FitsAppend(promos, invoices, redemptions, inv, None);
  }

  lemma FitsAppend(promos: seq<Promo>, invoices: seq<Invoice>, redemptions: seq<Option<Redemption>>, inv: Invoice,
      r: Option<Redemption>)
    requires |redemptions| == |invoices| && RedemptionFits(inv, r, |promos|)
    requires forall i :: 0 <= i < |invoices| ==> RedemptionFits(invoices[i], redemptions[i], |promos|)
    ensures forall i :: 0 <= i < |invoices + [inv]| ==>
              RedemptionFits((invoices + [inv])[i], (redemptions + [r])[i], |promos|)
  {
  }

  /** Issuing with a promo takes one slot, if both caps leave one. */
  lemma IssueReservedKeeps(promos: seq<Promo>, invoices: seq<Invoice>, redemptions: seq<Option<Redemption>>,
      inv: Invoice,
                           p: nat, user: nat)
    requires PromoLaw(promos, invoices, redemptions) && p < |promos| && inv.promo == Some(p) && inv.status.Issued?
    requires promos[p].maxTotal.None? || promos[p].used < promos[p].maxTotal.value
    requires Uses(redemptions, p, Some(user)) < promos[p].maxPerUser
    ensures PromoLaw(promos[p := promos[p].(used := promos[p].used + 1)], invoices + [inv],
                     redemptions + [Some(Redemption(p, user, Reserved))])
  {
    hide Uses;
    var promos', r := promos[p := promos[p].(used := promos[p].used + 1)], Some(Redemption(p, user, Reserved));
    var redemptions' := redemptions + [r];
    FitsAppend(promos, invoices, redemptions, inv, r);
    forall k | 0 <= k < |promos'| ensures PromoWithinCaps(promos'[k], Uses(redemptions', k, None)) {
      assert PromoWithinCaps(promos[k], Uses(redemptions, k, None));
      UsesAppend(redemptions, r, k, None);
    }
    forall k: nat, u: nat | k < |promos'| ensures Uses(redemptions', k, Some(u)) <= promos'[k].maxPerUser {
      UsesAppend(redemptions, r, k, Some(u));
    }
  }

  /** Paying an invoice consumes its redemption, without freeing its slot. */
  lemma PayKeeps(promos: seq<Promo>, invoices: seq<Invoice>, redemptions: seq<Option<Redemption>>, i: nat,
      inv': Invoice)
    requires PromoLaw(promos, invoices, redemptions) && i < |invoices| && invoices[i].status.Issued?
    requires inv'.status.InvoicePaid? && inv'.promo == invoices[i].promo
    ensures var r := redemptions[i];
            var r' := if r.Some? then Some(r.value.(status := Consumed)) else None;
            PromoLaw(promos, invoices[i := inv'], redemptions[i := r'])
    ensures redemptions[i].Some? ==> redemptions[i].value.status.Reserved?
  {
    hide Uses;
    assert RedemptionFits(invoices[i], redemptions[i], |promos|);
    var r' := if redemptions[i].Some? then Some(redemptions[i].value.(status := Consumed)) else None;
    forall p: nat, user: Option<nat> ensures Uses(redemptions[i := r'], p, user) == Uses(redemptions, p, user) {
      UsesUpdate(redemptions, i, r', p, user);
    }
  }

  /** Retiring an invoice returns its slot. */
  lemma RetireKeeps(promos: seq<Promo>, invoices: seq<Invoice>, redemptions: seq<Option<Redemption>>, i: nat,
      inv': Invoice)
    requires PromoLaw(promos, invoices, redemptions) && i < |invoices| && invoices[i].status.Issued?
    requires (inv'.status.InvoiceCancelled? || inv'.status.InvoiceExpired?) && inv'.promo == invoices[i].promo
    ensures if redemptions[i].None? then PromoLaw(promos, invoices[i := inv'], redemptions)
            else
              var r := redemptions[i].value;
              && r.promo < |promos| && promos[r.promo].used > 0 && r.status.Reserved?
              && PromoLaw(promos[r.promo := promos[r.promo].(used := promos[r.promo].used - 1)],
                          invoices[i := inv'], redemptions[i := Some(r.(status := Released))])
  {
    hide Uses;
    assert RedemptionFits(invoices[i], redemptions[i], |promos|);
    if redemptions[i].Some? {
      var r := redemptions[i].value;
      var p, freed := r.promo, Some(r.(status := Released));
      assert PromoWithinCaps(promos[p], Uses(redemptions, p, None));
      OccupiedIsUsed(redemptions, i, p, None);
      var promos', redemptions' := promos[p := promos[p].(used := promos[p].used - 1)], redemptions[i := freed];
      forall k | 0 <= k < |promos'| ensures PromoWithinCaps(promos'[k], Uses(redemptions', k, None)) {
        assert PromoWithinCaps(promos[k], Uses(redemptions, k, None));
        UsesUpdate(redemptions, i, freed, k, None);
      }
      forall k: nat, u: nat | k < |promos'| ensures Uses(redemptions', k, Some(u)) <= promos'[k].maxPerUser {
        UsesUpdate(redemptions, i, freed, k, Some(u));
      }
    }
  }

  /** Steps that touch neither promo nor status of an invoice. */
  lemma RepriceKeeps(promos: seq<Promo>, invoices: seq<Invoice>, redemptions: seq<Option<Redemption>>, i: nat,
      inv': Invoice)
    requires PromoLaw(promos, invoices, redemptions) && i < |invoices|
    requires inv'.promo == invoices[i].promo && inv'.status == invoices[i].status
    ensures PromoLaw(promos, invoices[i := inv'], redemptions)
  {
    hide Uses;
    assert RedemptionFits(invoices[i], redemptions[i], |promos|);
  }
}
