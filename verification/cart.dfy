/** The cart side panel: the price-details computation, the coupon engine, and
    the quantity, removal and suggestion updates of the cart's line items. */
module Cart {
  import opened Common

  /** An insurance plan attached to a cart line by the insurance page. */
  datatype CartInsurance = CartInsurance(
    policyId: string, name: string, price: real, coverage: real,
    planType: string, cartItemId: string)

  /** One cart line as kept in the browser. Numeric fields are `None` when
      absent or not a number; string fields are "" when absent. `kind` is the
      line's `type` ("rent", "buy", "product" or anything else). */
  datatype CartItem = CartItem(
    cartItemId: string, name: string, kind: string, category: string,
    rentPrice: Option<real>, buyPrice: Option<real>, deposit: Option<real>,
    days: Option<real>, quantity: Option<real>,
    petId: string, productId: string, docId: string, id: string,
    fromDate: Option<int>, toDate: Option<int>,
    insurance: Option<CartInsurance>)

  /** The cart state the component keeps: lines, typed coupon text, active discount percent. */
  datatype CartState = CartState(items: seq<CartItem>, coupon: string, discount: real)

  datatype PriceDetails = PriceDetails(
    subtotal: real, discount: real, discountAmount: real, gst: real, total: real)

  const GstRate: real := 0.18

  // ---------------------------------------------------------------------------
  // Displayed price details

  /** `(parseInt(rentPrice) || 0) * (parseInt(days) || 1)` for a rent line. */
  function RentCharge(item: CartItem): real {
    (IntOr(ParseIntNum(item.rentPrice), 0) * IntOr(ParseIntNum(item.days), 1)) as real
  }

  /** `parseInt(buyPrice) || 0` for a buy line. */
  function BuyCharge(item: CartItem): real {
    IntOr(ParseIntNum(item.buyPrice), 0) as real
  }

  function RentTerm(item: CartItem): real {
    if item.kind == "rent" then RentCharge(item) else 0.0
  }

  function BuyTerm(item: CartItem): real {
    if item.kind == "buy" then BuyCharge(item) else 0.0
  }

  /** The subtotal the panel displays: rent total plus buy total. */
  function DisplayedSubtotal(items: seq<CartItem>): real {
    Sum(items, RentTerm) + Sum(items, BuyTerm)
  }

  /** The displayed subtotal is additive over concatenation of carts. */
  lemma DisplayedSubtotalAppend(a: seq<CartItem>, b: seq<CartItem>)
    ensures DisplayedSubtotal(a + b) == DisplayedSubtotal(a) + DisplayedSubtotal(b)
  {
    SumAppend(a, b, RentTerm);
    SumAppend(a, b, BuyTerm);
  }

  /** What one more line adds to the displayed subtotal: rent price times days
      for "rent", buy price for "buy", and nothing for any other type. */
  lemma DisplayedSubtotalSnoc(a: seq<CartItem>, x: CartItem)
    ensures x.kind == "rent" ==> DisplayedSubtotal(a + [x]) == DisplayedSubtotal(a) + RentCharge(x)
    ensures x.kind == "buy" ==> DisplayedSubtotal(a + [x]) == DisplayedSubtotal(a) + BuyCharge(x)
    ensures x.kind != "rent" && x.kind != "buy" ==> DisplayedSubtotal(a + [x]) == DisplayedSubtotal(a)
  {
    DisplayedSubtotalAppend(a, [x]);
    assert Sum([x], RentTerm) == RentTerm(x) + Sum([x][1..], RentTerm);
    assert Sum([x], BuyTerm) == BuyTerm(x) + Sum([x][1..], BuyTerm);
  }

  /** The price-details effect, accumulating left to right as `reduce` does. */
  method AccumulateSubtotal(items: seq<CartItem>) returns (subtotal: real)
    ensures subtotal == DisplayedSubtotal(items)
  {
    var totalRent := 0.0;
    var totalBuy := 0.0;
    var i := 0;
    while i < |items|
      invariant 0 <= i <= |items|
      invariant totalRent + totalBuy == DisplayedSubtotal(items[..i])
    {
      DisplayedSubtotalSnoc(items[..i], items[i]);
      assert items[..i + 1] == items[..i] + [items[i]];
      if items[i].kind == "rent" {
        totalRent := totalRent + RentCharge(items[i]);
      } else if items[i].kind == "buy" {
        totalBuy := totalBuy + BuyCharge(items[i]);
      }
      i := i + 1;
    }
    assert items[..i] == items;
    subtotal := totalRent + totalBuy;
  }

  /** `discount > 0 ? subtotal * discount / 100 : 0`. */
  function DiscountAmount(subtotal: real, discount: real): real {
    if discount > 0.0 then subtotal * discount / 100.0 else 0.0
  }

  /** The price details shown for a cart and an active discount percent. */
  function ComputePriceDetails(items: seq<CartItem>, discount: real): (p: PriceDetails)
    ensures |items| == 0 ==> p == PriceDetails(0.0, 0.0, 0.0, 0.0, 0.0)
    ensures |items| > 0 ==> p.subtotal == DisplayedSubtotal(items) && p.discount == discount
  {
    if |items| == 0 then PriceDetails(0.0, 0.0, 0.0, 0.0, 0.0)
    else
      var subtotal := DisplayedSubtotal(items);
      var discountAmount := DiscountAmount(subtotal, discount);
      var afterDiscount := subtotal - discountAmount;
      var gst := afterDiscount * GstRate;
      PriceDetails(subtotal, discount, discountAmount, Round2(gst), Round2(afterDiscount + gst))
  }

  /** The breakdown identities: the discount is the percentage of the
      subtotal (none without an active discount), GST is 18% of the discounted
      subtotal, and the total is the discounted subtotal with GST; the two
      rounded figures are each within half a cent of the exact ones, so the
      total is within a cent of subtotal - discount + GST. */
  lemma PriceDetailsIdentities(items: seq<CartItem>, discount: real)
    requires |items| > 0
    ensures var p := ComputePriceDetails(items, discount);
      && (discount > 0.0 ==> p.discountAmount == p.subtotal * discount / 100.0)
      && (discount <= 0.0 ==> p.discountAmount == 0.0)
      && -0.005 <= p.gst - (p.subtotal - p.discountAmount) * 18.0 / 100.0 <= 0.005
      && -0.005 <= p.total - (p.subtotal - p.discountAmount) * 118.0 / 100.0 <= 0.005
      && -0.01 <= p.total - (p.subtotal - p.discountAmount + p.gst) <= 0.01
  {
    var p := ComputePriceDetails(items, discount);
    var base := p.subtotal - p.discountAmount;
    Round2Close(base * GstRate);
    Round2Close(base + base * GstRate);
  }

  /** With a non-negative subtotal and a discount of at most 100%, no figure is
      negative and the discount never exceeds the subtotal. */
  lemma PriceDetailsNonNegative(items: seq<CartItem>, discount: real)
    requires DisplayedSubtotal(items) >= 0.0 && discount <= 100.0
    ensures var p := ComputePriceDetails(items, discount);
      0.0 <= p.discountAmount <= p.subtotal && 0.0 <= p.gst <= p.total
  {
    if |items| > 0 {
      var subtotal := DisplayedSubtotal(items);
      var amount := DiscountAmount(subtotal, discount);
      DiscountWithin(subtotal, discount);
      var base := subtotal - amount;
      assert base >= 0.0;
      var gst := base * GstRate;
      assert 0.0 <= gst <= base + gst;
      Round2Monotone(0.0, gst);
      Round2Monotone(gst, base + gst);
      assert Round2(0.0) == 0.0;
    }
  }

  lemma DiscountWithin(subtotal: real, discount: real)
    requires subtotal >= 0.0 && discount <= 100.0
    ensures 0.0 <= DiscountAmount(subtotal, discount) <= subtotal
  {
    if discount > 0.0 {
      PercentOf(subtotal, discount);
      assert DiscountAmount(subtotal, discount) == subtotal * discount / 100.0;
    } else {
      assert DiscountAmount(subtotal, discount) == 0.0;
    }
  }

  lemma PercentOf(x: real, pct: real)
    requires x >= 0.0 && 0.0 <= pct <= 100.0
    ensures 0.0 <= x * pct / 100.0 <= x
  {
    assert x * pct <= x * 100.0;
  }

  /** Removing the discount can only raise the GST and the total: the tax
      reduction the discount gave is taken back. */
  lemma DiscountLowersTax(items: seq<CartItem>, discount: real)
    requires |items| > 0 && DisplayedSubtotal(items) >= 0.0 && 0.0 <= discount <= 100.0
    ensures var p := ComputePriceDetails(items, discount);
            var q := ComputePriceDetails(items, 0.0);
      q.discountAmount == 0.0 && q.gst == Round2(q.subtotal * GstRate) && p.gst <= q.gst && p.total <= q.total
  {
    var p := ComputePriceDetails(items, discount);
    var base := p.subtotal - p.discountAmount;
    if discount > 0.0 {
      PercentOf(p.subtotal, discount);
    }
    assert base <= p.subtotal;
    Round2Monotone(base * GstRate, p.subtotal * GstRate);
    Round2Monotone(base + base * GstRate, p.subtotal + p.subtotal * GstRate);
  }

  // ---------------------------------------------------------------------------
  // Coupons

  datatype Offer = Offer(code: string, threshold: real, percent: real)

  /** The offers table of the component. */
  const Offers: seq<Offer> := [
    Offer("SAVE10", 3000.0, 10.0),
    Offer("SAVE15", 5000.0, 15.0),
    Offer("SAVE20", 10000.0, 20.0)
  ]

  datatype CouponError = AlreadyApplied | InvalidCode | BelowThreshold(threshold: real)

  /** The line value `calculateSubtotal` adds: buy price times quantity (default
      1) for "buy", rent price times days (default 1) for "rent", on the raw
      values without `parseInt`. */
  function CouponTerm(item: CartItem): real {
    if item.kind == "buy" then NumOr(item.buyPrice, 0.0) * NumOr(item.quantity, 1.0)
    else if item.kind == "rent" then NumOr(item.rentPrice, 0.0) * NumOr(item.days, 1.0)
    else 0.0
  }

  /** `calculateSubtotal`, the value coupon thresholds are tested against. */
  function CouponSubtotal(items: seq<CartItem>): real {
    Sum(items, CouponTerm)
  }

  /** The offer whose code equals the upper-cased coupon text. */
  function FindOffer(coupon: string): (r: Option<Offer>)
    ensures r.Some? ==> r.value in Offers && r.value.code == Upper(coupon)
    ensures r.None? ==> forall o :: o in Offers ==> o.code != Upper(coupon)
  {
    match FindIndex(Offers, (o: Offer) => o.code == Upper(coupon))
    case None => None
    case Some(i) => Some(Offers[i])
  }

  /** `handleCouponSubmit`. */
  function ApplyCoupon(s: CartState): (r: Result<CartState, CouponError>)
    ensures s.discount > 0.0 ==> r == Err(AlreadyApplied)
    ensures s.discount <= 0.0 && FindOffer(s.coupon).None? ==> r == Err(InvalidCode)
    ensures r.Ok? <==> s.discount <= 0.0 && FindOffer(s.coupon).Some?
                       && CouponSubtotal(s.items) >= FindOffer(s.coupon).value.threshold
    ensures r.Ok? ==> r.value == s.(discount := FindOffer(s.coupon).value.percent)
    ensures r.Err? && r.error.BelowThreshold? ==> CouponSubtotal(s.items) < r.error.threshold
  {
    if s.discount > 0.0 then Err(AlreadyApplied)
    else match FindOffer(s.coupon)
      case None => Err(InvalidCode)
      case Some(offer) =>
        if CouponSubtotal(s.items) < offer.threshold then Err(BelowThreshold(offer.threshold))
        else Ok(s.(discount := offer.percent))
  }

  /** `handleRemoveCoupon`. */
  function RemoveCoupon(s: CartState): (r: CartState)
    ensures r.items == s.items && r.discount == 0.0 && r.coupon == ""
  {
    CartState(s.items, "", 0.0)
  }

  /** An applied coupon blocks a second one until it is removed, and removing
      it clears the discount and allows applying again. */
  lemma CouponAppliedOnce(s: CartState)
    requires ApplyCoupon(s).Ok?
    ensures var t := ApplyCoupon(s).value;
      t.discount > 0.0 && ApplyCoupon(t) == Err(AlreadyApplied)
      && RemoveCoupon(t).discount == 0.0 && RemoveCoupon(t).items == s.items
  {
    var o := FindOffer(s.coupon).value;
    assert o == Offers[0] || o == Offers[1] || o == Offers[2];
  }

  /** Every accepted code is one of the three offers, case-insensitively, and
      grants its percent. */
  lemma AcceptedCoupons(s: CartState)
    requires ApplyCoupon(s).Ok?
    ensures var d := ApplyCoupon(s).value.discount;
      (Upper(s.coupon) == "SAVE10" && d == 10.0 && CouponSubtotal(s.items) >= 3000.0)
      || (Upper(s.coupon) == "SAVE15" && d == 15.0 && CouponSubtotal(s.items) >= 5000.0)
      || (Upper(s.coupon) == "SAVE20" && d == 20.0 && CouponSubtotal(s.items) >= 10000.0)
  {
    var o := FindOffer(s.coupon).value;
    assert o == Offers[0] || o == Offers[1] || o == Offers[2];
  }

  // ---------------------------------------------------------------------------
  // Line edits

  /** One quantity step on a line: rent days or buy quantity moves by `change`
      from its parsed value (default 1) and never drops below 1. */
  function StepLine(item: CartItem, change: int): (r: CartItem)
    ensures item.kind == "rent" ==> r == item.(days := r.days) && r.days.Some?
                                    && r.days.value >= 1.0 && r.days.value == r.days.value.Floor as real
    ensures item.kind != "rent" ==> r == item.(quantity := r.quantity) && r.quantity.Some?
                                    && r.quantity.value >= 1.0 && r.quantity.value == r.quantity.value.Floor as real
    ensures var n := IntOr(ParseIntNum(if item.kind == "rent" then item.days else item.quantity), 1) + change;
            var count := if item.kind == "rent" then r.days else r.quantity;
            && (n >= 1 ==> count == Some(n as real))
            && (n < 1 ==> count == Some(1.0))
  {
    if item.kind == "rent" then
      var n := IntOr(ParseIntNum(item.days), 1) + change;
      item.(days := Some((if n < 1 then 1 else n) as real))
    else
      var n := IntOr(ParseIntNum(item.quantity), 1) + change;
      item.(quantity := Some((if n < 1 then 1 else n) as real))
  }

  /** On a line whose count is the whole number `n >= 1`, a step moves the
      count to `n + change`, or to 1 when that would be lower. */
  lemma StepFromWholeCount(item: CartItem, n: int, change: int)
    requires n >= 1
    requires (if item.kind == "rent" then item.days else item.quantity) == Some(n as real)
    ensures var r := StepLine(item, change);
            (if item.kind == "rent" then r.days else r.quantity) == Some((if n + change < 1 then 1 else n + change) as real)
  {
    assert Trunc(n as real) == n;
  }

  /** Stepping up and back down restores a line whose count is already a whole number >= 1. */
  lemma StepUpDown(item: CartItem)
    requires item.kind == "rent" ==> item.days.Some? && item.days.value >= 1.0 && item.days.value == item.days.value.Floor as real
    requires item.kind != "rent" ==> item.quantity.Some? && item.quantity.value >= 1.0 && item.quantity.value == item.quantity.value.Floor as real
    ensures StepLine(StepLine(item, 1), -1) == item
  {
  }

  /** `handleQuantityChange`: steps every line with that id, leaves the others
      alone, and clears the discount and the coupon. */
  function ChangeQuantity(s: CartState, cartItemId: string, change: int): (r: CartState)
    ensures |r.items| == |s.items|
    ensures forall i :: 0 <= i < |s.items| && s.items[i].cartItemId != cartItemId ==> r.items[i] == s.items[i]
    ensures forall i :: 0 <= i < |s.items| && s.items[i].cartItemId == cartItemId ==> r.items[i] == StepLine(s.items[i], change)
    ensures r.discount == 0.0 && r.coupon == ""
  {
    var items := seq(|s.items|, i requires 0 <= i < |s.items| =>
      if s.items[i].cartItemId == cartItemId then StepLine(s.items[i], change) else s.items[i]);
    CartState(items, "", 0.0)
  }

  /** `removeFromCart`: drops exactly the lines with that id, keeps the rest in
      order, and clears the discount and the coupon. */
  function RemoveFromCart(s: CartState, cartItemId: string): (r: CartState)
    ensures forall i :: 0 <= i < |r.items| ==> r.items[i] in s.items && r.items[i].cartItemId != cartItemId
    ensures forall i :: 0 <= i < |s.items| && s.items[i].cartItemId != cartItemId ==> s.items[i] in r.items
    ensures IsSubsequence(r.items, s.items)
    ensures forall x :: multiset(r.items)[x] == if x.cartItemId != cartItemId then multiset(s.items)[x] else 0
    ensures r.discount == 0.0 && r.coupon == ""
  {
    FilterIsSubsequence(s.items, (x: CartItem) => x.cartItemId != cartItemId);
    FilterCount(s.items, (x: CartItem) => x.cartItemId != cartItemId);
    CartState(Filter(s.items, (x: CartItem) => x.cartItemId != cartItemId), "", 0.0)
  }

  // ---------------------------------------------------------------------------
  // Suggestions

  datatype Suggestion = Suggestion(id: string, name: string, price: real, petType: string)

  const SuggestedProducts: seq<Suggestion> := [
    Suggestion("sugg1", "Dog Adult", 499.0, "dog"),
    Suggestion("sugg2", "Dog Toy", 799.0, "dog"),
    Suggestion("sugg3", "Cat Whiskas", 399.0, "cat"),
    Suggestion("sugg4", "Birdseed", 299.0, "bird"),
    Suggestion("sugg5", "Bird Perch", 599.0, "bird")
  ]

  /** `(item.category || item.type || "").toLowerCase()`. */
  function PetTypeOf(item: CartItem): string {
    Lower(OrElse(item.category, item.kind))
  }

  /** Some cart line's pet type equals the suggestion's lower-cased type. */
  predicate SuggestionMatches(items: seq<CartItem>, sg: Suggestion) {
    exists i :: 0 <= i < |items| && PetTypeOf(items[i]) == Lower(sg.petType)
  }

  function MatchingSuggestions(items: seq<CartItem>): seq<Suggestion> {
    Filter(SuggestedProducts, (sg: Suggestion) => SuggestionMatches(items, sg))
  }

  /** `updateSuggestions`. */
  function Suggestions(items: seq<CartItem>): seq<Suggestion> {
    if |items| == 0 then SuggestedProducts
    else
      var matching := MatchingSuggestions(items);
      if |matching| > 0 then matching else SuggestedProducts
  }

  /** The suggestions keep the table order and are never empty; an empty cart gets them all. */
  lemma SuggestionsOrdered(items: seq<CartItem>)
    ensures |items| == 0 ==> Suggestions(items) == SuggestedProducts
    ensures IsSubsequence(Suggestions(items), SuggestedProducts) && |Suggestions(items)| > 0
  {
    FilterIsSubsequence(SuggestedProducts, (sg: Suggestion) => SuggestionMatches(items, sg));
    SubsequenceRefl(SuggestedProducts);
  }

  /** When some suggestion's type names a line's category (or type), exactly
      the matching suggestions are offered. */
  lemma SuggestionsMatching(items: seq<CartItem>, i: nat)
    requires |items| > 0 && i < |SuggestedProducts| && SuggestionMatches(items, SuggestedProducts[i])
    ensures forall sg :: sg in Suggestions(items) <==> sg in SuggestedProducts && SuggestionMatches(items, sg)
  {
    var matching := MatchingSuggestions(items);
    assert SuggestedProducts[i] in matching;
  }

  /** When no suggestion matches any line, the full list is offered. */
  lemma SuggestionsFallback(items: seq<CartItem>)
    requires forall i :: 0 <= i < |SuggestedProducts| ==> !SuggestionMatches(items, SuggestedProducts[i])
    ensures Suggestions(items) == SuggestedProducts
  {
  }
}
