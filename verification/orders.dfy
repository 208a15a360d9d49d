/** The order record (the Mongoose order schema with its enums, conditional
    requireds and defaults) and the order routes: the create handler's
    first-error validator and the owner-scoped single-order fetch. */
module Orders {
  import opened Common

  // ---------------------------------------------------------------------------
  // Request bodies, as JSON sends them (None when a field is absent, "" when
  // an empty text is sent and the difference does not matter)

  /** A date as a request carries it: a number of milliseconds, or the ISO
      text of a date (a non-empty string, so never falsy). */
  datatype DateValue = Millis(ms: int) | IsoText(ms: int)

  datatype ItemBody = ItemBody(
    name: string, kind: string, petId: Option<string>, productId: Option<string>,
    rentPrice: Option<real>, buyPrice: Option<real>, days: Option<real>, deposit: Option<real>,
    fromDate: Option<DateValue>, toDate: Option<DateValue>)

  datatype UserInfoBody = UserInfoBody(name: string, phone: string, email: Option<string>, address: string)

  /** The object handed to `new Order(...)`: the request body of the create
      route, or the record the payment controller assembles. */
  datatype OrderBody = OrderBody(
    userId: string, items: Option<seq<ItemBody>>, userInfo: Option<UserInfoBody>,
    paymentMethod: string,
    totalRent: Option<real>, totalBuy: Option<real>, totalDeposit: Option<real>,
    gst: Option<real>, amount: Option<real>, currency: Option<string>,
    status: Option<string>, paymentStatus: Option<string>,
    razorpayOrderId: Option<string>, razorpayPaymentId: Option<string>, razorpaySignature: Option<string>)

  // ---------------------------------------------------------------------------
  // The stored order

  datatype ItemType = Rent | Buy | Product

  datatype PaymentMethod = COD | Online

  datatype OrderStatus = Pending | Processing | Shipped | Delivered | Cancelled

  datatype PaymentStatus = PaymentPending | Completed | Failed

  datatype OrderItem = OrderItem(
    name: string, kind: ItemType, petId: Option<string>, productId: Option<string>,
    rentPrice: real, buyPrice: real, days: real, deposit: real, fromDate: int, toDate: int)

  datatype UserInfo = UserInfo(name: string, phone: string, email: string, address: string)

  datatype Order = Order(
    id: string, userId: string, items: seq<OrderItem>, userInfo: UserInfo,
    paymentMethod: PaymentMethod, totalRent: real, totalBuy: real, totalDeposit: real,
    gst: real, amount: real, currency: string,
    status: OrderStatus, paymentStatus: PaymentStatus,
    razorpayOrderId: Option<string>, razorpayPaymentId: Option<string>, razorpaySignature: Option<string>)

  function ParseItemType(s: string): Option<ItemType> {
    if s == "rent" then Some(Rent) else if s == "buy" then Some(Buy)
    else if s == "product" then Some(Product) else None
  }

  function ParsePaymentMethod(s: string): Option<PaymentMethod> {
    if s == "COD" then Some(COD) else if s == "Online" then Some(Online) else None
  }

  function ParseOrderStatus(s: string): Option<OrderStatus> {
    if s == "pending" then Some(Pending) else if s == "processing" then Some(Processing)
    else if s == "shipped" then Some(Shipped) else if s == "delivered" then Some(Delivered)
    else if s == "cancelled" then Some(Cancelled) else None
  }

  function ParsePaymentStatus(s: string): Option<PaymentStatus> {
    if s == "pending" then Some(PaymentPending) else if s == "completed" then Some(Completed)
    else if s == "failed" then Some(Failed) else None
  }

  /** The enumerations accept exactly their listed spellings. */
  lemma EnumSpellings(s: string)
    ensures ParseItemType(s).Some? <==> s in ["rent", "buy", "product"]
    ensures ParsePaymentMethod(s).Some? <==> s in ["COD", "Online"]
    ensures ParseOrderStatus(s).Some? <==> s in ["pending", "processing", "shipped", "delivered", "cancelled"]
    ensures ParsePaymentStatus(s).Some? <==> s in ["pending", "completed", "failed"]
  {
  }

  /** An enum path with a default: absent takes the default, present must be listed. */
  function EnumOr<E>(v: Option<string>, parse: string -> Option<E>, d: E): Option<E> {
    if v.None? then Some(d) else parse(v.value)
  }

  function RealOr0(v: Option<real>): real {
    if v.Some? then v.value else 0.0
  }

  /** `!v` for an optional text field: absent, or the empty string. */
  predicate Falsy(v: Option<string>) {
    v.None? || v.value == ""
  }

  /** Casting and validating one item against the item schema: name and type
      are required and the type is an enum; `petId` (an ObjectId) is required
      when `productId` is falsy and `productId` when `petId` is absent; a sent
      `petId` of "" fails the ObjectId cast like any other non-ObjectId text,
      while a sent `productId` of "" is kept; both dates are required; the
      prices, days and deposit default to 0. */
  function CastItem(b: ItemBody): (r: Option<OrderItem>)
    ensures r.Some? <==> b.name != "" && ParseItemType(b.kind).Some?
                         && (b.petId.Some? || !Falsy(b.productId))
                         && (b.petId.Some? ==> IsObjectIdText(b.petId.value))
                         && b.fromDate.Some? && b.toDate.Some?
    ensures r.Some? ==> var it := r.value;
      && it.name == b.name && Some(it.kind) == ParseItemType(b.kind)
      && (it.petId.Some? || !Falsy(it.productId))
      && it.petId == b.petId && it.productId == b.productId
      && it.rentPrice == RealOr0(b.rentPrice) && it.buyPrice == RealOr0(b.buyPrice)
      && it.days == RealOr0(b.days) && it.deposit == RealOr0(b.deposit)
      && it.fromDate == b.fromDate.value.ms && it.toDate == b.toDate.value.ms
  {
    var kind := ParseItemType(b.kind);
    if b.name == "" || kind.None? then None
    else if b.petId.Some? && !IsObjectIdText(b.petId.value) then None
    else if b.petId.None? && Falsy(b.productId) then None
    else if b.fromDate.None? || b.toDate.None? then None
    else Some(OrderItem(b.name, kind.value, b.petId, b.productId,
                        RealOr0(b.rentPrice), RealOr0(b.buyPrice), RealOr0(b.days), RealOr0(b.deposit),
                        b.fromDate.value.ms, b.toDate.value.ms))
  }

  function CastItems(bs: seq<ItemBody>): (r: Option<seq<OrderItem>>)
    ensures r.Some? <==> forall i :: 0 <= i < |bs| ==> CastItem(bs[i]).Some?
    ensures r.Some? ==> |r.value| == |bs| && forall i :: 0 <= i < |bs| ==> Some(r.value[i]) == CastItem(bs[i])
  {
    if |bs| == 0 then Some([])
    else match (CastItem(bs[0]), CastItems(bs[1..]))
      case (Some(x), Some(xs)) => Some([x] + xs)
      case _ => None
  }

  /** Casting and validating a whole order: an ObjectId owner, valid items
      (a missing list is an empty one), a user info with name, phone and address
      (email defaults to ""), a listed payment method, `gst` and `amount` present,
      totals defaulting to 0, currency to "INR", and both statuses listed or
      defaulting to pending. */
  function CastOrder(id: string, b: OrderBody): (r: Option<Order>)
    ensures r.Some? <==>
      && IsObjectIdText(b.userId)
      && (b.items.Some? ==> CastItems(b.items.value).Some?)
      && b.userInfo.Some? && b.userInfo.value.name != "" && b.userInfo.value.phone != "" && b.userInfo.value.address != ""
      && ParsePaymentMethod(b.paymentMethod).Some?
      && b.gst.Some? && b.amount.Some?
      && EnumOr(b.status, ParseOrderStatus, Pending).Some?
      && EnumOr(b.paymentStatus, ParsePaymentStatus, PaymentPending).Some?
    ensures r.Some? ==> var o := r.value;
      && o.id == id && o.userId == b.userId
      && o.userInfo.email == (if b.userInfo.value.email.Some? then b.userInfo.value.email.value else "")
      && o.totalRent == RealOr0(b.totalRent) && o.totalBuy == RealOr0(b.totalBuy) && o.totalDeposit == RealOr0(b.totalDeposit)
      && o.gst == b.gst.value && o.amount == b.amount.value
      && o.currency == (if b.currency.Some? then b.currency.value else "INR")
      && (b.status.None? ==> o.status == Pending)
      && (b.paymentStatus.None? ==> o.paymentStatus == PaymentPending)
      && o.razorpayOrderId == b.razorpayOrderId
  {
    var items := if b.items.Some? then CastItems(b.items.value) else Some([]);
    var pay := ParsePaymentMethod(b.paymentMethod);
    var status := EnumOr(b.status, ParseOrderStatus, Pending);
    var paymentStatus := EnumOr(b.paymentStatus, ParsePaymentStatus, PaymentPending);
    if !IsObjectIdText(b.userId) || items.None? || b.userInfo.None? then None
    else
      var u := b.userInfo.value;
      if u.name == "" || u.phone == "" || u.address == "" then None
      else if pay.None? || b.gst.None? || b.amount.None? || status.None? || paymentStatus.None? then None
      else Some(Order(
        id, b.userId, items.value,
        UserInfo(u.name, u.phone, if u.email.Some? then u.email.value else "", u.address),
        pay.value, RealOr0(b.totalRent), RealOr0(b.totalBuy), RealOr0(b.totalDeposit),
        b.gst.value, b.amount.value, if b.currency.Some? then b.currency.value else "INR",
        status.value, paymentStatus.value,
        b.razorpayOrderId, b.razorpayPaymentId, b.razorpaySignature))
  }

  /** An item names a pet by ObjectId, or a product by a non-empty id. */
  predicate NamesPetOrProduct(it: OrderItem) {
    (it.petId.Some? && IsObjectIdText(it.petId.value)) || !Falsy(it.productId)
  }

  /** Every item of a stored order names a pet or a product. */
  predicate WellFormed(o: Order) {
    forall i :: 0 <= i < |o.items| ==> NamesPetOrProduct(o.items[i])
  }

  /** Every order the schema admits is well formed. */
  lemma CastOrderWellFormed(id: string, b: OrderBody)
    requires CastOrder(id, b).Some?
    ensures WellFormed(CastOrder(id, b).value)
  {
    var o := CastOrder(id, b).value;
    if b.items.Some? {
      forall i | 0 <= i < |o.items|
        ensures NamesPetOrProduct(o.items[i])
      {
        assert Some(o.items[i]) == CastItem(b.items.value[i]);
      }
    }
  }

  // ---------------------------------------------------------------------------
  // POST /api/orders

  const NoItemsMessage := "Order must contain at least one item"
  const MissingFieldsMessage := "Missing required fields: userInfo or paymentMethod"
  const NameTypeMessage := "Each item must have a name and type"
  const ReferenceMessage := "Each item must have either a petId or productId"
  const DatesMessage := "Each item must have fromDate and toDate"

  /** `!date`: an absent date and the number 0 are falsy, date text never is. */
  predicate DateMissing(d: Option<DateValue>) {
    d.None? || d.value == Millis(0)
  }

  /** The checks the route makes on one item, in order. */
  function ItemError(it: ItemBody): Option<string> {
    if it.name == "" || it.kind == "" then Some(NameTypeMessage)
    else if Falsy(it.petId) && Falsy(it.productId) then Some(ReferenceMessage)
    else if DateMissing(it.fromDate) || DateMissing(it.toDate) then Some(DatesMessage)
    else None
  }

  /** The route's validator: the first failing check, items before anything else. */
  function RequestError(b: OrderBody): Option<string> {
    if b.items.None? || |b.items.value| == 0 then Some(NoItemsMessage)
    else if b.userInfo.None? || b.paymentMethod == "" then Some(MissingFieldsMessage)
    else match FindIndex(b.items.value, (it: ItemBody) => ItemError(it).Some?)
      case None => None
      case Some(i) => ItemError(b.items.value[i])
  }

  /** The shape checks the route makes, stated without their order. */
  predicate RequestShapeOk(b: OrderBody) {
    && b.items.Some? && |b.items.value| > 0 && b.userInfo.Some? && b.paymentMethod != ""
    && forall i :: 0 <= i < |b.items.value| ==>
         var it := b.items.value[i];
         it.name != "" && it.kind != "" && !(Falsy(it.petId) && Falsy(it.productId))
         && !DateMissing(it.fromDate) && !DateMissing(it.toDate)
  }

  /** The validator passes exactly the bodies of the right shape: nothing else
      is checked (no date order, no totals), and a date of 0 counts as
      missing; a missing or empty item list is
      reported before anything else, and otherwise a failure reports the
      message of the first failing item, all earlier items passing. */
  lemma RequestErrorSpec(b: OrderBody)
    ensures RequestError(b).None? <==> RequestShapeOk(b)
    ensures (b.items.None? || |b.items.value| == 0) ==> RequestError(b) == Some(NoItemsMessage)
    ensures b.items.Some? && |b.items.value| > 0 && (b.userInfo.None? || b.paymentMethod == "") ==>
              RequestError(b) == Some(MissingFieldsMessage)
    ensures b.items.Some? && |b.items.value| > 0 && b.userInfo.Some? && b.paymentMethod != "" && RequestError(b).Some? ==>
      exists i :: 0 <= i < |b.items.value| && RequestError(b) == ItemError(b.items.value[i])
                  && forall j :: 0 <= j < i ==> ItemError(b.items.value[j]).None?
  {
    if b.items.Some? && |b.items.value| > 0 && b.userInfo.Some? && b.paymentMethod != "" {
      var items := b.items.value;
      match FindIndex(items, (it: ItemBody) => ItemError(it).Some?)
      case None =>
        assert forall i :: 0 <= i < |items| ==> ItemError(items[i]).None?;
      case Some(i) =>
        assert ItemError(items[i]).Some?;
    }
  }

  /** `POST /`: validate, cast with the owner forced to the authenticated id,
      and append; a schema failure is a 400 "Validation error". */
  function CreateOrder(store: seq<Order>, b: OrderBody, authId: string, newId: string): (r: (Response<Order>, seq<Order>))
    ensures RequestError(b).Some? ==> r == (Failure(400, RequestError(b).value), store)
    ensures RequestError(b).None? && CastOrder(newId, b.(userId := authId)).None? ==>
              r == (Failure(400, "Validation error"), store)
    ensures r.0.Success? <==> RequestError(b).None? && CastOrder(newId, b.(userId := authId)).Some?
    ensures r.0.Success? ==> r.0.status == 201 && r.0.body == CastOrder(newId, b.(userId := authId)).value
                             && r.1 == store + [r.0.body]
                             && r.0.body.userId == authId && r.0.body.id == newId && WellFormed(r.0.body)
    ensures r.0.Failure? ==> r.1 == store && r.0.status == 400
  {
    match RequestError(b)
    case Some(msg) => (Failure(400, msg), store)
    case None =>
      match CastOrder(newId, b.(userId := authId))
      case None => (Failure(400, "Validation error"), store)
      case Some(o) =>
        CastOrderWellFormed(newId, b.(userId := authId));
        (Success(201, o), store + [o])
  }

  /** A body of the right shape whose items the schema admits, with a user info
      carrying name, phone and address and a listed payment method, GST and
      amount present and the status fields absent, is created: the stored
      order carries the authenticated owner, the items as cast, the contact
      fields and the pending defaults, whatever `userId` the client sent. */
  lemma CreateOrderAccepts(store: seq<Order>, b: OrderBody, authId: string, newId: string)
    requires RequestShapeOk(b) && IsObjectIdText(authId)
    requires CastItems(b.items.value).Some?
    requires b.userInfo.value.name != "" && b.userInfo.value.phone != "" && b.userInfo.value.address != ""
    requires ParsePaymentMethod(b.paymentMethod).Some? && b.gst.Some? && b.amount.Some?
    requires b.status.None? && b.paymentStatus.None?
    ensures var r := CreateOrder(store, b, authId, newId);
      && r.0.Success? && r.0.status == 201 && r.1 == store + [r.0.body]
      && var o := r.0.body;
         o.id == newId && o.userId == authId && Some(o.items) == CastItems(b.items.value)
         && o.userInfo.name == b.userInfo.value.name && o.userInfo.phone == b.userInfo.value.phone
         && o.userInfo.address == b.userInfo.value.address
         && Some(o.paymentMethod) == ParsePaymentMethod(b.paymentMethod)
         && o.gst == b.gst.value && o.amount == b.amount.value
         && o.status == Pending && o.paymentStatus == PaymentPending
  {
    RequestErrorSpec(b);
    var o := CastOrder(newId, b.(userId := authId));
    assert o.Some?;
  }

  /** An item that sends `petId` as "" passes the route's checks when it has
      a product id, and is then refused by the ObjectId cast: the route
      answers 400 "Validation error" and stores nothing. */
  lemma EmptyPetIdRefused(store: seq<Order>, b: OrderBody, authId: string, newId: string, k: nat)
    requires RequestShapeOk(b) && k < |b.items.value| && b.items.value[k].petId == Some("")
    ensures CreateOrder(store, b, authId, newId) == (Failure(400, "Validation error"), store)
  {
    RequestErrorSpec(b);
    assert CastItem(b.items.value[k]).None?;
    assert CastItems(b.items.value).None?;
  }

  // ---------------------------------------------------------------------------
  // GET /api/orders/:id

  /** `findOne({_id: id, userId})`: a malformed id fails the cast (500), no
      order with both the id and the owner is a 404. */
  function GetOrder(store: seq<Order>, id: string, authId: string): (r: Response<Order>)
    ensures r.Success? <==> IsObjectIdText(id) && exists i :: 0 <= i < |store| && store[i].id == id && store[i].userId == authId
    ensures r.Success? ==> r.status == 200 && r.body in store && r.body.id == id && r.body.userId == authId
    ensures r.Failure? ==> r.status == (if IsObjectIdText(id) then 404 else 500)
  {
    if !IsObjectIdText(id) then Failure(500, "Failed to fetch order")
    else match FindIndex(store, (o: Order) => o.id == id && o.userId == authId)
      case None => Failure(404, "Order not found")
      case Some(i) => Success(200, store[i])
  }
}
