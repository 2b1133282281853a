/** Money: tax and shipping arithmetic in integer paise, offers, and the invoice built from them. */
module Billing {
  import opened Sums
  import opened Picking

  // ---------- shared/invoice_calc.py ----------

  datatype Totals = Totals(subtotal: int, discount: int, taxable: int, cgst: int, sgst: int, tax: int, shipping: int, total: int)

  datatype Settings = Settings(gstRateBps: int, shipping: int, freeShippingMin: int)

  function ComputeInvoiceTotals(subtotalPaise: int, discountPaise: int, settings: Settings): Totals
  {
    var subtotal, discount := Max(subtotalPaise, 0), Max(discountPaise, 0);
    var taxable := Max(subtotal - discount, 0);
    var halfRate := Max(settings.gstRateBps, 0) / 2;
    var cgst, sgst := taxable * halfRate / 10000, taxable * halfRate / 10000;
    var tax := cgst + sgst;
    var shipping := if taxable >= Max(settings.freeShippingMin, 0) then 0 else Max(settings.shipping, 0);
    Totals(subtotal, discount, taxable, cgst, sgst, tax, shipping, taxable + tax + shipping)
  }

  function Tax(taxable: nat, rateBps: nat): int
  {
    ComputeInvoiceTotals(taxable, 0, Settings(rateBps, 0, 0)).tax
  }

  /** Splitting the rate loses its odd basis point and each half is rounded down: how far that can go. */
  lemma TaxRounding(t: nat, r: nat)
    ensures 0 <= r * t - 10000 * Tax(t, r) < 20000 + t * (r % 2)
  {
    var h := r / 2;
    var product := t * h;
    calc {
      r * t;
      (2 * h + r % 2) * t;
      2 * product + t * (r % 2);
    }
    assert product == 10000 * (product / 10000) + product % 10000;
    assert t * (r % 2) >= 0;
  }

  /** Taxing two carts apart costs the same as together, or two paise less: one lost carry in each half. */
  lemma TaxOfTwoCarts(a: nat, b: nat, r: nat)
    ensures Tax(a + b, r) - Tax(a, r) - Tax(b, r) in {0, 2}
  {
    var h := r / 2;
    var x, y := a * h, b * h;
    assert (a + b) * h == x + y;
    assert (x + y) / 10000 - x / 10000 - y / 10000 in {0, 1};
  }

  lemma HalfTaxMonotone(t: nat, u: nat, h: nat)
    requires t <= u
    ensures t * h / 10000 <= u * h / 10000
  {
    assert t * h <= u * h by {
      assert (u - t) * h >= 0;
    }
  }

  /** A larger discount lowers taxable amount and tax; all it can cost is the free shipping. */
  lemma LargerDiscount(subtotal: int, d1: int, d2: int, settings: Settings)
    requires d1 <= d2
    ensures var less, more := ComputeInvoiceTotals(subtotal, d1, settings), ComputeInvoiceTotals(subtotal, d2, settings);
            && more.taxable <= less.taxable && more.tax <= less.tax
            && more.total <= less.total + Max(settings.shipping, 0)
            && (more.taxable < Max(settings.freeShippingMin, 0) <= less.taxable || more.total <= less.total)
  {
    var less, more := ComputeInvoiceTotals(subtotal, d1, settings), ComputeInvoiceTotals(subtotal, d2, settings);
    HalfTaxMonotone(more.taxable, less.taxable, Max(settings.gstRateBps, 0) / 2);
  }

  /** An invoice is free exactly when nothing is taxable and shipping is not charged. */
  lemma FreeExactlyWhen(subtotal: int, discount: int, settings: Settings)
    ensures var totals := ComputeInvoiceTotals(subtotal, discount, settings);
            && totals.total >= 0
            && (totals.total == 0 <==> subtotal <= Max(discount, 0) && (settings.shipping <= 0 || settings.freeShippingMin <= 0))
  {
    var totals := ComputeInvoiceTotals(subtotal, discount, settings);
    HalfTaxMonotone(0, totals.taxable, Max(settings.gstRateBps, 0) / 2);
  }

  /**
   What the customer is charged: the taxable amount, tax in two equal halves that together fall short
   of the exact tax by less than two paise plus the odd basis point, and shipping below the minimum.
   */
  ghost predicate Charges(totals: Totals, subtotal: int, discount: int, settings: Settings)
  {
    var t, r := totals.taxable, settings.gstRateBps;
    && totals.subtotal == Max(subtotal, 0) && totals.discount == Max(discount, 0)
    && t == Max(Max(subtotal, 0) - Max(discount, 0), 0)
    && totals.cgst == totals.sgst && totals.tax == totals.cgst + totals.sgst
    && totals.shipping == (if t < Max(settings.freeShippingMin, 0) then Max(settings.shipping, 0) else 0)
    && (if r < 0 then totals.total == t + totals.shipping
        else 0 <= r * t - 10000 * (totals.total - t - totals.shipping) < 20000 + t * (r % 2))
    && totals.total == t + totals.tax + totals.shipping
  }

  lemma TotalsCharge(subtotal: int, discount: int, settings: Settings)
    ensures Charges(ComputeInvoiceTotals(subtotal, discount, settings), subtotal, discount, settings)
  {
    var totals := ComputeInvoiceTotals(subtotal, discount, settings);
    if settings.gstRateBps >= 0 {
      TaxRounding(totals.taxable, settings.gstRateBps);
      assert totals.tax == Tax(totals.taxable, settings.gstRateBps);
    }
  }

  // ---------- offers ----------

  datatype CartLine = CartLine(itemId: string, qty: int, unitPrice: int)

  datatype Kind = Percent | Cashback | Flat

  /** `itemIds` empty means the whole cart; offers without an id are not applied. */
  datatype Offer = Offer(id: string, description: string, kind: Kind, value: int, itemIds: set<string>)

  datatype AcceptedOffer = AcceptedOffer(id: string, description: string, saved: int)

  function LineTotal(line: CartLine): int
  {
    line.qty * line.unitPrice
  }

  ghost function Amount(): CartLine -> int
  {
    (line: CartLine) => line.qty * line.unitPrice
  }

  ghost function TargetAmount(offer: Offer): CartLine -> int
  {
    (line: CartLine) => if offer.itemIds == {} || line.itemId in offer.itemIds then line.qty * line.unitPrice else 0
  }

  /** What the cart lines the offer applies to cost. */
  ghost function TargetSubtotal(offer: Offer, lines: seq<CartLine>): int
  {
    Sum(lines, TargetAmount(offer))
  }

  /** The lines of the offer's items, or all lines if it names none. */
  ghost function Targeted(offer: Offer, lines: seq<CartLine>): set<nat>
  {
    set k | 0 <= k < |lines| && (offer.itemIds == {} || lines[k].itemId in offer.itemIds)
  }

  /** The loop has come to line `n`, with the targeted lines before it in `hit`. */
  ghost predicate TargetSoFar(offer: Offer, lines: seq<CartLine>, n: nat, at: seq<nat>, hit: seq<CartLine>, subtotal: int)
    requires n <= |lines|
  {
    && Filtered(lines, Targeted(offer, lines), n, at, hit)
    && subtotal == TargetSubtotal(offer, lines[..n]) == Sum(hit, Amount())
  }

  lemma TargetNext(offer: Offer, lines: seq<CartLine>, n: nat, at: seq<nat>, hit: seq<CartLine>, subtotal: int)
    requires n < |lines| && TargetSoFar(offer, lines, n, at, hit, subtotal)
    ensures if offer.itemIds == {} || lines[n].itemId in offer.itemIds
            then TargetSoFar(offer, lines, n + 1, at + [n], hit + [lines[n]], subtotal + lines[n].qty * lines[n].unitPrice)
            else TargetSoFar(offer, lines, n + 1, at, hit, subtotal)
  {
    assert lines[..n + 1] == lines[..n] + [lines[n]];
    SumSnoc(lines[..n], lines[n], TargetAmount(offer));
    SumSnoc(hit, lines[n], Amount());
    FilterNext(lines, Targeted(offer, lines), n, at, hit);
  }

  /** The sum over exactly the targeted lines, once each. */
  method OfferTargetSubtotal(offer: Offer, lines: seq<CartLine>)
    returns (subtotal: int, ghost at: seq<nat>, ghost hit: seq<CartLine>)
    ensures Picks(at, Targeted(offer, lines)) && Keeps(lines, at, hit) && subtotal == Sum(hit, Amount())
    ensures subtotal == TargetSubtotal(offer, lines)
  {
    subtotal, at, hit := 0, [], [];
    FilterBounds(lines, Targeted(offer, lines), at, hit);
    for k := 0 to |lines|
      invariant TargetSoFar(offer, lines, k, at, hit, subtotal)
    {
      TargetNext(offer, lines, k, at, hit, subtotal);
      if offer.itemIds == {} || lines[k].itemId in offer.itemIds {
        subtotal, at, hit := subtotal + LineTotal(lines[k]), at + [k], hit + [lines[k]];
      }
    }
    FilterBounds(lines, Targeted(offer, lines), at, hit);
    assert lines[..|lines|] == lines;
  }

  function Saving(offer: Offer, subtotal: int): int
  {
    if offer.kind.Flat? then Max(offer.value, 0) else Max(subtotal * offer.value / 100, 0)
  }

  /** Offers with an id whose target is in the cart at a positive price. */
  ghost predicate Applies(offer: Offer, lines: seq<CartLine>)
  {
    offer.id != "" && TargetSubtotal(offer, lines) > 0
  }

  ghost function Accepted(offers: seq<Offer>, lines: seq<CartLine>): seq<AcceptedOffer>
  {
    if offers == [] then []
    else
      var last := offers[|offers| - 1];
      Accepted(offers[..|offers| - 1], lines)
      + if Applies(last, lines)
        then [Grant(last, TargetSubtotal(last, lines))] else []
  }

  ghost function Applicable(offers: seq<Offer>, lines: seq<CartLine>): set<nat>
  {
    set k | 0 <= k < |offers| && Applies(offers[k], lines)
  }

  /** The offers at `from`, each with what it saves on its own target. */
  ghost predicate Grants(offers: seq<Offer>, lines: seq<CartLine>, from: seq<nat>, accepted: seq<AcceptedOffer>)
  {
    && |accepted| == |from|
    && forall j :: 0 <= j < |from| ==>
         && from[j] < |offers|
         && accepted[j].id == offers[from[j]].id && accepted[j].description == offers[from[j]].description
         && Saves(offers[from[j]], TargetSubtotal(offers[from[j]], lines), accepted[j].saved)
  }

  /** A flat offer saves its value, the others that percentage of their target in whole paise, rounded down; never less than nothing. */
  predicate Saves(offer: Offer, target: int, saved: int)
  {
    if offer.value < 0 then saved == 0
    else if offer.kind == Flat then saved == offer.value
    else 100 * saved <= target * offer.value < 100 * saved + 100
  }

  lemma SavingSaves(offer: Offer, target: int)
    requires target > 0
    ensures Saves(offer, target, Saving(offer, target))
  {
    var product := target * offer.value;
    assert product == 100 * (product / 100) + product % 100;
    if offer.value < 0 {
      assert target * (-offer.value) >= 0;
    } else {
      assert product >= 0;
    }
  }

  function Grant(offer: Offer, subtotal: int): AcceptedOffer
  {
    AcceptedOffer(offer.id, offer.description, Saving(offer, subtotal))
  }

  lemma GrantNext(offers: seq<Offer>, lines: seq<CartLine>, from: seq<nat>, accepted: seq<AcceptedOffer>, k: nat)
    requires k < |offers| && Grants(offers, lines, from, accepted) && TargetSubtotal(offers[k], lines) > 0
    ensures Grants(offers, lines, from + [k], accepted + [Grant(offers[k], TargetSubtotal(offers[k], lines))])
  {
    SavingSaves(offers[k], TargetSubtotal(offers[k], lines));
  }

  lemma AcceptedNext(offers: seq<Offer>, lines: seq<CartLine>, k: nat)
    requires k < |offers|
    ensures Accepted(offers[..k + 1], lines)
         == Accepted(offers[..k], lines)
            + if k in Applicable(offers, lines) then [Grant(offers[k], TargetSubtotal(offers[k], lines))] else []
  {
    assert offers[..k + 1][..k] == offers[..k];
  }

  /** What the first `n` offers have come to. */
  ghost predicate AcceptedSoFar(offers: seq<Offer>, lines: seq<CartLine>, n: nat, from: seq<nat>, accepted: seq<AcceptedOffer>)
    requires n <= |offers|
  {
    && accepted == Accepted(offers[..n], lines)
    && Picks(from, Below(Applicable(offers, lines), n)) && Grants(offers, lines, from, accepted)
  }

  lemma OfferTaken(offers: seq<Offer>, lines: seq<CartLine>, n: nat, from: seq<nat>, accepted: seq<AcceptedOffer>)
    requires n < |offers| && AcceptedSoFar(offers, lines, n, from, accepted) && Applies(offers[n], lines)
    ensures AcceptedSoFar(offers, lines, n + 1, from + [n], accepted + [Grant(offers[n], TargetSubtotal(offers[n], lines))])
  {
    AcceptedNext(offers, lines, n);
    PickNext(from, Applicable(offers, lines), n);
    GrantNext(offers, lines, from, accepted, n);
  }

  lemma OfferPassed(offers: seq<Offer>, lines: seq<CartLine>, n: nat, from: seq<nat>, accepted: seq<AcceptedOffer>)
    requires n < |offers| && AcceptedSoFar(offers, lines, n, from, accepted) && !Applies(offers[n], lines)
    ensures AcceptedSoFar(offers, lines, n + 1, from, accepted)
  {
    AcceptedNext(offers, lines, n);
    PickNext(from, Applicable(offers, lines), n);
  }

  lemma AcceptedBounds(offers: seq<Offer>, lines: seq<CartLine>, from: seq<nat>, accepted: seq<AcceptedOffer>)
    ensures AcceptedSoFar(offers, lines, 0, [], [])
    ensures AcceptedSoFar(offers, lines, |offers|, from, accepted) ==>
              Picks(from, Applicable(offers, lines)) && Grants(offers, lines, from, accepted) && accepted == Accepted(offers, lines)
  {
    PickBounds(Applicable(offers, lines), |offers|);
    assert offers[..|offers|] == offers;
  }

  /** Exactly the applicable offers, once each and in order. */
  method BuildAcceptedOffers(offers: seq<Offer>, lines: seq<CartLine>)
    returns (accepted: seq<AcceptedOffer>, ghost from: seq<nat>)
    ensures Picks(from, Applicable(offers, lines)) && Grants(offers, lines, from, accepted)
    ensures accepted == Accepted(offers, lines)
  {
    accepted, from := [], [];
    AcceptedBounds(offers, lines, from, accepted);
    for k := 0 to |offers|
      invariant AcceptedSoFar(offers, lines, k, from, accepted)
    {
      var offer := offers[k];
      if offer.id == "" {
        OfferPassed(offers, lines, k, from, accepted);
        continue;
      }
      var subtotal, at, hit := OfferTargetSubtotal(offer, lines);
      if subtotal <= 0 {
        OfferPassed(offers, lines, k, from, accepted);
        continue;
      }
      OfferTaken(offers, lines, k, from, accepted);
      accepted := accepted + [Grant(offer, subtotal)];
      from := from + [k];
    }
    AcceptedBounds(offers, lines, from, accepted);
  }

  /** A percentage of at most a hundred never saves more than its target costs, and nothing saves a negative amount. */
  lemma SavingBounded(offer: Offer, subtotal: int)
    requires subtotal > 0
    ensures Saving(offer, subtotal) >= 0
    ensures !offer.kind.Flat? && offer.value <= 100 ==> Saving(offer, subtotal) <= subtotal
  {
    if !offer.kind.Flat? && offer.value <= 100 {
      assert subtotal * offer.value <= subtotal * 100 by {
        assert subtotal * (100 - offer.value) >= 0;
      }
    }
  }

  // ---------- services/merchant_agent/invoice_service.py ----------

  datatype InvoiceLine = InvoiceLine(itemId: string, qty: int, unitPrice: int, lineTotal: int)

  datatype Invoice = Invoice(orderId: string, lines: seq<InvoiceLine>, totals: Totals, accepted: seq<AcceptedOffer>)

  ghost function InvoicedAmount(): InvoiceLine -> int
  {
    (line: InvoiceLine) => line.lineTotal
  }

  ghost function SavedBy(): AcceptedOffer -> int
  {
    (offer: AcceptedOffer) => offer.saved
  }

  ghost function SavedIfListed(): AcceptedOffer -> int
  {
    (offer: AcceptedOffer) => if offer.id != "" then offer.saved else 0
  }

  method GenerateInvoice(orderId: string, lines: seq<CartLine>, accepted: seq<AcceptedOffer>, settings: Settings)
    returns (invoice: Invoice)
    ensures invoice.orderId == orderId && |invoice.lines| == |lines|
    ensures forall k :: 0 <= k < |lines| ==>
              invoice.lines[k] == InvoiceLine(lines[k].itemId, lines[k].qty, lines[k].unitPrice, lines[k].qty * lines[k].unitPrice)
    ensures Charges(invoice.totals, Sum(lines, Amount()), Sum(accepted, SavedBy()), settings)
    ensures invoice.totals == ComputeInvoiceTotals(Sum(invoice.lines, InvoicedAmount()), Sum(accepted, SavedBy()), settings)
    ensures Sum(invoice.accepted, SavedBy()) == Sum(accepted, SavedIfListed())
    ensures (forall k :: 0 <= k < |accepted| ==> accepted[k].id != "") ==> invoice.accepted == accepted
  {
    var items: seq<InvoiceLine> := [];
    var subtotal := 0;
    for k := 0 to |lines|
      invariant |items| == k && subtotal == Sum(items, InvoicedAmount())
      invariant forall j :: 0 <= j < k ==>
                  items[j] == InvoiceLine(lines[j].itemId, lines[j].qty, lines[j].unitPrice, LineTotal(lines[j]))
    {
      var item := InvoiceLine(lines[k].itemId, lines[k].qty, lines[k].unitPrice, LineTotal(lines[k]));
      SumSnoc(items, item, InvoicedAmount());
      subtotal := subtotal + item.lineTotal;
      items := items + [item];
    }
    var discount, listed := ListOffers(accepted);
    SumEqual(items, InvoicedAmount(), lines, Amount());
    TotalsCharge(subtotal, discount, settings);
    invoice := Invoice(orderId, items, ComputeInvoiceTotals(subtotal, discount, settings), listed);
  }

  /** The discount counts every accepted offer, the printed list only those with an id. */
  method ListOffers(accepted: seq<AcceptedOffer>) returns (discount: int, listed: seq<AcceptedOffer>)
    ensures discount == Sum(accepted, SavedBy())
    ensures Sum(listed, SavedBy()) == Sum(accepted, SavedIfListed())
    ensures (forall k :: 0 <= k < |accepted| ==> accepted[k].id != "") ==> listed == accepted
  {
    discount, listed := 0, [];
    for k := 0 to |accepted|
      invariant discount == Sum(accepted[..k], SavedBy())
      invariant Sum(listed, SavedBy()) == Sum(accepted[..k], SavedIfListed())
      invariant (forall j :: 0 <= j < k ==> accepted[j].id != "") ==> listed == accepted[..k]
    {
      assert accepted[..k + 1] == accepted[..k] + [accepted[k]];
      SumSnoc(accepted[..k], accepted[k], SavedBy());
      SumSnoc(accepted[..k], accepted[k], SavedIfListed());
      discount := discount + accepted[k].saved;
      if accepted[k].id != "" {
        SumSnoc(listed, accepted[k], SavedBy());
        listed := listed + [accepted[k]];
      }
    }
    assert accepted[..|accepted|] == accepted;
  }

  lemma {:induction false} AcceptedAreListed(offers: seq<Offer>, lines: seq<CartLine>)
    ensures forall k :: 0 <= k < |Accepted(offers, lines)| ==>
              Accepted(offers, lines)[k].id != "" && Accepted(offers, lines)[k].saved >= 0
  {
    if offers != [] {
      var last := offers[|offers| - 1];
      AcceptedAreListed(offers[..|offers| - 1], lines);
      if Applies(last, lines) {
        SavingBounded(last, TargetSubtotal(last, lines));
      }
    }
  }

  /**
   From cart and offers to the printed invoice: every line at its price, every applicable offer once,
   and the customer is charged for exactly that.
   */
  method InvoiceForCart(orderId: string, lines: seq<CartLine>, offers: seq<Offer>, settings: Settings)
    returns (invoice: Invoice, ghost from: seq<nat>)
    ensures |invoice.lines| == |lines|
    ensures forall k :: 0 <= k < |lines| ==>
              invoice.lines[k] == InvoiceLine(lines[k].itemId, lines[k].qty, lines[k].unitPrice, lines[k].qty * lines[k].unitPrice)
    ensures Picks(from, Applicable(offers, lines)) && Grants(offers, lines, from, invoice.accepted)
    ensures Charges(invoice.totals, Sum(lines, Amount()), Sum(invoice.accepted, SavedBy()), settings)
    ensures invoice.totals.discount == Sum(invoice.accepted, SavedBy()) >= 0
    ensures invoice.accepted == Accepted(offers, lines)
    ensures invoice.totals == ComputeInvoiceTotals(Sum(lines, Amount()), Sum(invoice.accepted, SavedBy()), settings)
  {
    var accepted;
    accepted, from := BuildAcceptedOffers(offers, lines);
    AcceptedAreListed(offers, lines);
    invoice := GenerateInvoice(orderId, lines, accepted, settings);
    SumEqual(invoice.lines, InvoicedAmount(), lines, Amount());
    SumNonNegative(accepted, SavedBy());
  }

  /** One more offer on the same cart never raises the taxable amount. */
  lemma OneMoreOffer(offers: seq<Offer>, offer: Offer, lines: seq<CartLine>, settings: Settings)
    ensures var subtotal := Sum(lines, Amount());
            var without := ComputeInvoiceTotals(subtotal, Sum(Accepted(offers, lines), SavedBy()), settings);
            var with := ComputeInvoiceTotals(subtotal, Sum(Accepted(offers + [offer], lines), SavedBy()), settings);
            with.taxable <= without.taxable && with.tax <= without.tax
  {
    assert (offers + [offer])[..|offers|] == offers;
    assert !Applies(offer, lines) ==> Accepted(offers + [offer], lines) == Accepted(offers, lines);
    if Applies(offer, lines) {
      var accepted := AcceptedOffer(offer.id, offer.description, Saving(offer, TargetSubtotal(offer, lines)));
      SumSnoc(Accepted(offers, lines), accepted, SavedBy());
      SavingBounded(offer, TargetSubtotal(offer, lines));
    }
    LargerDiscount(Sum(lines, Amount()), Sum(Accepted(offers, lines), SavedBy()),
                   Sum(Accepted(offers + [offer], lines), SavedBy()), settings);
  }
}
