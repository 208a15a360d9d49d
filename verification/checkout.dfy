/** The checkout page's "place order" step: the login and contact checks, the
    10-digit phone check, the conversion of cart lines into order items, the
    rent/buy/deposit totals, and the order payload sent to the order route. */
module Checkout {
  import opened Common
  import opened Cart
  import opened Orders

  /** The logged-in user as the auth context holds it (`_id`, `id`, `email`). */
  datatype User = User(docId: string, id: string, email: string)

  /** The contact form. */
  datatype Contact = Contact(name: string, phone: string, address: string)

  datatype CheckoutError = LoginRequired | MissingContact | InvalidPhone | MissingUserId

  const DayMs: int := 24 * 60 * 60 * 1000

  /** `/^\d{10}$/`: exactly ten ASCII digits, nothing else. */
  predicate ValidPhone(phone: string) {
    var p := Trim(phone);
    |p| == 10 && forall i :: 0 <= i < |p| ==> IsDigit(p[i])
  }

  // ---------------------------------------------------------------------------
  // Line items

  /** A line becomes a product line when it has a product id, has type
      "product", or is the "Dog Toy" suggestion. */
  predicate IsProductLine(item: CartItem) {
    item.productId != "" || item.kind == "product" || item.name == "Dog Toy"
  }

  /** `date || new Date(ms).toISOString()`: a truthy stored date is sent as it
      is, otherwise the ISO text of the clock reading `ms`. */
  function DateOr(d: Option<int>, ms: int): DateValue {
    if d.Some? && d.value != 0 then Millis(d.value) else IsoText(ms)
  }

  /** The conversion of one cart line into the backend's item shape, with
      missing dates defaulting to now and to now plus the line's days. */
  function ToOrderItem(item: CartItem, now: int): (r: ItemBody)
    ensures r.name == item.name && r.fromDate.Some? && r.toDate.Some?
    ensures !DateMissing(r.fromDate) && !DateMissing(r.toDate)
    ensures item.fromDate.Some? && item.fromDate.value != 0 ==> r.fromDate.value == Millis(item.fromDate.value)
    ensures item.toDate.Some? && item.toDate.value != 0 ==> r.toDate.value == Millis(item.toDate.value)
    ensures item.fromDate.None? ==> r.fromDate.value == IsoText(now)
    ensures IsProductLine(item) ==>
      && r.kind == "product" && r.petId.None?
      && r.productId == Some(OrElse(item.productId, OrElse(item.docId, item.id)))
      && r.rentPrice == Some(0.0) && r.deposit == Some(0.0) && r.days == Some(0.0)
      && r.buyPrice == Some(NumOr(item.buyPrice, 0.0))
    ensures !IsProductLine(item) ==>
      && r.kind == OrElse(item.kind, "buy") && r.productId.None?
      && r.petId == Some(OrElse(item.petId, OrElse(item.docId, item.id)))
      && r.rentPrice == Some(NumOr(item.rentPrice, 0.0)) && r.buyPrice == Some(NumOr(item.buyPrice, 0.0))
      && r.deposit == Some(NumOr(item.deposit, 0.0))
      && r.days.Some? && r.days.value != 0.0
      && (item.days.None? ==> r.days.value == 1.0)
      && (item.days.Some? && Trunc(item.days.value) != 0 ==> r.days.value == Trunc(item.days.value) as real)
  {
    var fromDate := Some(DateOr(item.fromDate, now));
    var toDate := Some(DateOr(item.toDate, now + Trunc(NumOr(item.days, 1.0) * DayMs as real)));
    if IsProductLine(item) then
      ItemBody(item.name, "product", None, Some(OrElse(item.productId, OrElse(item.docId, item.id))),
               Some(0.0), Some(NumOr(item.buyPrice, 0.0)), Some(0.0), Some(0.0), fromDate, toDate)
    else
      ItemBody(item.name, OrElse(item.kind, "buy"), Some(OrElse(item.petId, OrElse(item.docId, item.id))), None,
               Some(NumOr(item.rentPrice, 0.0)), Some(NumOr(item.buyPrice, 0.0)),
               Some(IntOr(ParseIntNum(item.days), 1) as real), Some(NumOr(item.deposit, 0.0)),
               fromDate, toDate)
  }

  /** With both dates defaulted and at least one day, the rental ends after it starts. */
  lemma DefaultDatesOrdered(item: CartItem, now: int)
    requires item.fromDate.None? && item.toDate.None?
    requires NumOr(item.days, 1.0) >= 1.0
    ensures ToOrderItem(item, now).toDate.value.ms >= ToOrderItem(item, now).fromDate.value.ms + DayMs
  {
    var d := NumOr(item.days, 1.0);
    assert d * DayMs as real >= DayMs as real;
  }

  /** Some identifier survives into the order item built from the line. */
  predicate HasReference(item: CartItem) {
    item.productId != "" || item.docId != "" || item.id != "" || (!IsProductLine(item) && item.petId != "")
  }

  /** The order item built from a cart line passes the order route's item
      checks exactly when the cart line has a name and some identifier. */
  lemma ToOrderItemPassesRoute(item: CartItem, now: int)
    ensures ItemError(ToOrderItem(item, now)).None? <==> item.name != "" && HasReference(item)
  {
  }

  function ToOrderItems(cart: seq<CartItem>, now: int): (r: seq<ItemBody>)
    ensures |r| == |cart| && forall i :: 0 <= i < |cart| ==> r[i] == ToOrderItem(cart[i], now)
  {
    seq(|cart|, i requires 0 <= i < |cart| => ToOrderItem(cart[i], now))
  }

  // ---------------------------------------------------------------------------
  // Totals

  /** A rent line adds price times parsed days (default 1) to the rent total. */
  function RentShare(item: CartItem): real {
    if item.kind == "rent" then NumOr(item.rentPrice, 0.0) * IntOr(ParseIntNum(item.days), 1) as real else 0.0
  }

  /** Only rent lines carry a deposit. */
  function DepositShare(item: CartItem): real {
    if item.kind == "rent" then NumOr(item.deposit, 0.0) else 0.0
  }

  /** Every line that is not "rent" (buy, product or any other type) adds its buy price. */
  function BuyShare(item: CartItem): real {
    if item.kind == "rent" then 0.0 else NumOr(item.buyPrice, 0.0)
  }

  datatype Totals = Totals(totalRent: real, totalBuy: real, totalDeposit: real)

  /** The `reduce` over the cart, accumulating the three totals left to right. */
  method ReduceTotals(cart: seq<CartItem>) returns (t: Totals)
    ensures t.totalRent == Sum(cart, RentShare)
    ensures t.totalBuy == Sum(cart, BuyShare)
    ensures t.totalDeposit == Sum(cart, DepositShare)
  {
    t := Totals(0.0, 0.0, 0.0);
    var i := 0;
    while i < |cart|
      invariant 0 <= i <= |cart|
      invariant t.totalRent == Sum(cart[..i], RentShare)
      invariant t.totalBuy == Sum(cart[..i], BuyShare)
      invariant t.totalDeposit == Sum(cart[..i], DepositShare)
    {
      var item := cart[i];
      assert cart[..i + 1] == cart[..i] + [item];
      SumAppend(cart[..i], [item], RentShare);
      SumAppend(cart[..i], [item], BuyShare);
      SumAppend(cart[..i], [item], DepositShare);
      if item.kind == "rent" {
        t := t.(totalRent := t.totalRent + NumOr(item.rentPrice, 0.0) * IntOr(ParseIntNum(item.days), 1) as real,
                totalDeposit := t.totalDeposit + NumOr(item.deposit, 0.0));
      } else {
        t := t.(totalBuy := t.totalBuy + NumOr(item.buyPrice, 0.0));
      }
      i := i + 1;
    }
    assert cart[..i] == cart;
  }

  predicate IsWhole(x: real) {
    x == x.Floor as real
  }

  /** A line whose prices are whole numbers (or absent). */
  predicate WholePrices(item: CartItem) {
    (item.rentPrice.Some? ==> IsWhole(item.rentPrice.value))
    && (item.buyPrice.Some? ==> IsWhole(item.buyPrice.value))
  }

  lemma TruncWhole(x: real)
    requires IsWhole(x)
    ensures Trunc(x) as real == x
  {
    if x < 0.0 {
      assert (-x).Floor == -(x.Floor);
    }
  }

  /** One line's share agrees with its share of the cart panel's subtotal. */
  lemma ShareMatchesPanel(item: CartItem)
    requires item.kind == "rent" || item.kind == "buy"
    requires WholePrices(item)
    ensures RentShare(item) + BuyShare(item) == RentTerm(item) + BuyTerm(item)
  {
    if item.rentPrice.Some? { TruncWhole(item.rentPrice.value); }
    if item.buyPrice.Some? { TruncWhole(item.buyPrice.value); }
  }

  /** For a cart of rent and buy lines with whole prices, the checkout's rent
      plus buy totals equal the subtotal the cart panel displayed. (The panel
      truncates prices and ignores lines of any other type; the checkout does
      neither.) */
  lemma {:induction false} TotalsMatchPanel(cart: seq<CartItem>)
    requires forall i :: 0 <= i < |cart| ==> (cart[i].kind == "rent" || cart[i].kind == "buy") && WholePrices(cart[i])
    ensures Sum(cart, RentShare) + Sum(cart, BuyShare) == DisplayedSubtotal(cart)
    decreases |cart|
  {
    if |cart| > 0 {
      ShareMatchesPanel(cart[0]);
      TotalsMatchPanel(cart[1..]);
    }
  }

  /** A product line counts in the checkout's buy total but not in the panel's subtotal. */
  lemma ProductLineOnlyInCheckout()
    ensures var toy := CartItem("c1", "Dog Toy", "product", "", None, Some(799.0), None, None, None,
                                "", "sugg2", "", "", None, None, None);
            Sum([toy], BuyShare) == 799.0 && DisplayedSubtotal([toy]) == 0.0
  {
    var toy := CartItem("c1", "Dog Toy", "product", "", None, Some(799.0), None, None, None,
                        "", "sugg2", "", "", None, None, None);
    assert Sum([toy], BuyShare) == BuyShare(toy) + Sum([toy][1..], BuyShare);
  }

  // ---------------------------------------------------------------------------
  // Placing the order

  /** `handlePlaceOrder` up to the request: the checks in source order, then
      the payload. `gst` and `total` are the stored price details. */
  function PlaceOrder(hasToken: bool, user: Option<User>, contact: Contact, cart: seq<CartItem>,
                      paymentMethod: string, gst: Option<real>, total: Option<real>, now: int)
    : (r: Result<OrderBody, CheckoutError>)
    ensures r == Err(LoginRequired) <==> !hasToken || user.None?
    ensures hasToken && user.Some? && (contact.name == "" || contact.phone == "" || contact.address == "") ==>
              r == Err(MissingContact)
    ensures hasToken && user.Some? && contact.name != "" && contact.phone != "" && contact.address != "" ==>
              (r == Err(InvalidPhone) <==> !ValidPhone(contact.phone))
    ensures r.Ok? <==> (hasToken && user.Some? && contact.name != "" && contact.phone != "" && contact.address != ""
                        && ValidPhone(contact.phone) && OrElse(user.value.docId, user.value.id) != "")
    ensures r.Ok? ==> var b := r.value;
      && b.userId != ""
      && (user.value.docId != "" ==> b.userId == user.value.docId)
      && (user.value.docId == "" ==> b.userId == user.value.id)
      && b.items == Some(ToOrderItems(cart, now))
      && b.userInfo == Some(UserInfoBody(Trim(contact.name), Trim(contact.phone), Some(user.value.email), Trim(contact.address)))
      && b.paymentMethod == paymentMethod
      && b.gst == Some(NumOr(gst, 0.0)) && b.amount == Some(NumOr(total, 0.0))
      && b.currency == Some("INR") && b.status == Some("pending")
  {
    if !hasToken || user.None? then Err(LoginRequired)
    else if contact.name == "" || contact.phone == "" || contact.address == "" then Err(MissingContact)
    else if !ValidPhone(contact.phone) then Err(InvalidPhone)
    else
      var u := user.value;
      var userId := OrElse(u.docId, u.id);
      if userId == "" then Err(MissingUserId)
      else
        Ok(OrderBody(
          userId, Some(ToOrderItems(cart, now)),
          Some(UserInfoBody(Trim(contact.name), Trim(contact.phone), Some(u.email), Trim(contact.address))),
          paymentMethod,
          Some(Sum(cart, RentShare)), Some(Sum(cart, BuyShare)), Some(Sum(cart, DepositShare)),
          Some(NumOr(gst, 0.0)), Some(NumOr(total, 0.0)), Some("INR"), Some("pending"), None,
          None, None, None))
  }

  /** The payload's totals are the cart reductions, and its GST and amount are
      the stored price details, whatever the items say. */
  lemma PayloadTotals(hasToken: bool, user: Option<User>, contact: Contact, cart: seq<CartItem>,
                      paymentMethod: string, gst: Option<real>, total: Option<real>, now: int)
    requires PlaceOrder(hasToken, user, contact, cart, paymentMethod, gst, total, now).Ok?
    ensures var b := PlaceOrder(hasToken, user, contact, cart, paymentMethod, gst, total, now).value;
      b.totalRent == Some(Sum(cart, RentShare)) && b.totalBuy == Some(Sum(cart, BuyShare))
      && b.totalDeposit == Some(Sum(cart, DepositShare))
  {
  }

  /** A payload built from a non-empty cart whose lines all have a name and an
      identifier passes the order route's validator, given a payment method. */
  lemma {:induction false} PayloadPassesRoute(hasToken: bool, user: Option<User>, contact: Contact, cart: seq<CartItem>,
                                              paymentMethod: string, gst: Option<real>, total: Option<real>, now: int)
    requires PlaceOrder(hasToken, user, contact, cart, paymentMethod, gst, total, now).Ok?
    requires |cart| > 0 && paymentMethod != ""
    requires forall i :: 0 <= i < |cart| ==> cart[i].name != "" && HasReference(cart[i])
    ensures RequestError(PlaceOrder(hasToken, user, contact, cart, paymentMethod, gst, total, now).value).None?
  {
    var b := PlaceOrder(hasToken, user, contact, cart, paymentMethod, gst, total, now).value;
    forall i | 0 <= i < |cart|
      ensures ItemError(b.items.value[i]).None?
    {
      ToOrderItemPassesRoute(cart[i], now);
    }
    RequestErrorSpec(b);
  }
}
