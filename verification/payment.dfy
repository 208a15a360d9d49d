/** Payments: the payment controller's order creation (validation, conversion
    to paise, the pending order record) and signature verification (the
    pending -> processing/completed transition), the Next.js create-order
    route's amount bounds, and the Express create-order route's receipt. The
    gateway's reply and the HMAC are parameters. */
module Payment {
  import opened Common
  import opened Orders

  /** What the gateway reports back for a created order. */
  datatype GatewayOrder = GatewayOrder(id: string, amount: int, currency: string)

  /** The options handed to the gateway by the create-order routes. */
  datatype GatewayRequest = GatewayRequest(amount: real, currency: string, receipt: string)

  /** Rupees to paise. An amount with at most two decimals converts exactly. */
  function ToPaise(amount: real): (r: int)
    ensures amount * 100.0 - 0.5 < r as real <= amount * 100.0 + 0.5
  {
    JsRound(amount * 100.0)
  }

  lemma ToPaiseExact(paise: int)
    ensures ToPaise(paise as real / 100.0) == paise
  {
    assert (paise as real / 100.0) * 100.0 == paise as real;
  }

  // ---------------------------------------------------------------------------
  // createOrder

  /** `!userId || !items || items.length === 0 || !amount || !gst`; a zero
      amount or a zero GST is as missing as an absent one. */
  predicate MissingPaymentFields(b: OrderBody) {
    b.userId == "" || b.items.None? || |b.items.value| == 0 || NumOr(b.amount, 0.0) == 0.0 || NumOr(b.gst, 0.0) == 0.0
  }

  /** The record the controller hands to `new Order(...)`: status fields forced
      to pending, the gateway id recorded, payment method defaulting to
      "Online", currency to "INR" and the totals to 0; a missing user info
      becomes `{}`. */
  function PendingDraft(b: OrderBody, gatewayId: string): OrderBody {
    OrderBody(
      b.userId, b.items,
      if b.userInfo.Some? then b.userInfo else Some(UserInfoBody("", "", None, "")),
      OrElse(b.paymentMethod, "Online"),
      Some(NumOr(b.totalRent, 0.0)), Some(NumOr(b.totalBuy, 0.0)), Some(NumOr(b.totalDeposit, 0.0)),
      b.gst, b.amount, Some(OrElse(if b.currency.Some? then b.currency.value else "", "INR")),
      Some("pending"), Some("pending"), Some(gatewayId), None, None)
  }

  /** `createOrder`: validate, create the gateway order (`gateway` is its id,
      `None` when the call fails), then store the pending order. A failed
      gateway call or a schema failure after it is a 500. */
  function CreatePaymentOrder(store: seq<Order>, b: OrderBody, gateway: Option<string>, newId: string)
    : (r: (Response<GatewayOrder>, seq<Order>))
    ensures r.0 == Failure(400, "Missing required fields") <==> MissingPaymentFields(b)
    ensures !MissingPaymentFields(b) && gateway.None? ==> r.0 == Failure(500, "Failed to create order")
    ensures !MissingPaymentFields(b) && gateway.Some? && CastOrder(newId, PendingDraft(b, gateway.value)).None? ==>
              r.0 == Failure(500, "Failed to create order")
    ensures r.0.Success? <==>
              !MissingPaymentFields(b) && gateway.Some? && CastOrder(newId, PendingDraft(b, gateway.value)).Some?
    ensures r.0.Failure? ==> r.1 == store && (r.0.status == 400 || r.0.status == 500)
    ensures r.0.Success? ==>
      && r.0.status == 201 && gateway.Some?
      && r.0.body == GatewayOrder(gateway.value, ToPaise(b.amount.value), OrElse(if b.currency.Some? then b.currency.value else "", "INR"))
      && r.1 == store + [CastOrder(newId, PendingDraft(b, gateway.value)).value]
      && var o := r.1[|store|];
         o.id == newId && o.userId == b.userId
         && o.status == Pending && o.paymentStatus == PaymentPending
         && o.razorpayOrderId == Some(gateway.value) && o.razorpayPaymentId.None?
         && (b.paymentMethod == "" ==> o.paymentMethod == Online)
         && o.amount == b.amount.value && o.gst == b.gst.value
  {
    if MissingPaymentFields(b) then (Failure(400, "Missing required fields"), store)
    else if gateway.None? then (Failure(500, "Failed to create order"), store)
    else
      var reply := GatewayOrder(gateway.value, ToPaise(b.amount.value), OrElse(if b.currency.Some? then b.currency.value else "", "INR"));
      match CastOrder(newId, PendingDraft(b, gateway.value))
      case None => (Failure(500, "Failed to create order"), store)
      case Some(o) =>
        assert (store + [o])[|store|] == o;
        (Success(201, reply), store + [o])
  }

  /** A complete body is stored once the gateway answers: an ObjectId user,
      items the schema admits, a user info with name, phone and address, a
      listed or absent payment method, and a non-zero amount and GST. The
      reply carries the amount in paise and the stored order is pending with
      the gateway id. */
  lemma CreatePaymentOrderAccepts(store: seq<Order>, b: OrderBody, gatewayId: string, newId: string)
    requires IsObjectIdText(b.userId)
    requires b.items.Some? && |b.items.value| > 0 && CastItems(b.items.value).Some?
    requires b.userInfo.Some? && b.userInfo.value.name != "" && b.userInfo.value.phone != "" && b.userInfo.value.address != ""
    requires b.paymentMethod == "" || ParsePaymentMethod(b.paymentMethod).Some?
    requires b.amount.Some? && b.amount.value != 0.0 && b.gst.Some? && b.gst.value != 0.0
    ensures var r := CreatePaymentOrder(store, b, Some(gatewayId), newId);
      && r.0.Success? && r.0.status == 201
      && r.0.body.id == gatewayId && r.0.body.amount == ToPaise(b.amount.value)
      && |r.1| == |store| + 1 && r.1[..|store|] == store
      && r.1[|store|].razorpayOrderId == Some(gatewayId)
      && r.1[|store|].status == Pending && r.1[|store|].paymentStatus == PaymentPending
      && Some(r.1[|store|].items) == CastItems(b.items.value)
  {
    var d := PendingDraft(b, gatewayId);
    assert ParsePaymentMethod(d.paymentMethod).Some?;
    assert CastOrder(newId, d).Some?;
    var r := CreatePaymentOrder(store, b, Some(gatewayId), newId);
    assert r.1 == store + [CastOrder(newId, d).value];
    assert r.1[..|store|] == store;
  }

  // ---------------------------------------------------------------------------
  // verifyPayment

  /** The paid state: the gateway ids recorded, status processing, payment completed. */
  function MarkPaid(o: Order, paymentId: string, signature: string): (r: Order)
    ensures r.status == Processing && r.paymentStatus == Completed
    ensures r.razorpayPaymentId == Some(paymentId) && r.razorpaySignature == Some(signature)
    ensures r.(status := o.status, paymentStatus := o.paymentStatus,
               razorpayPaymentId := o.razorpayPaymentId, razorpaySignature := o.razorpaySignature) == o
  {
    o.(razorpayPaymentId := Some(paymentId), razorpaySignature := Some(signature),
       status := Processing, paymentStatus := Completed)
  }

  /** The message the gateway signs: `order_id|payment_id`. */
  function SignedText(orderId: string, paymentId: string): string {
    orderId + "|" + paymentId
  }

  function HasGatewayId(orderId: string): Order -> bool {
    (o: Order) => o.razorpayOrderId == Some(orderId)
  }

  /** `verifyPayment`; `sign` is the hex HMAC-SHA256 under the key secret. */
  function VerifyPayment(store: seq<Order>, orderId: string, paymentId: string, signature: string,
                         sign: string -> string): (r: (Response<string>, seq<Order>))
    ensures orderId == "" || paymentId == "" || signature == "" ==> r == (Failure(400, "Missing payment details"), store)
    ensures orderId != "" && paymentId != "" && signature != ""
            && (forall i :: 0 <= i < |store| ==> store[i].razorpayOrderId != Some(orderId)) ==>
              r == (Failure(404, "Order not found"), store)
    ensures orderId != "" && paymentId != "" && signature != ""
            && (exists i :: 0 <= i < |store| && store[i].razorpayOrderId == Some(orderId))
            && sign(SignedText(orderId, paymentId)) != signature ==>
              r == (Failure(400, "Invalid payment signature"), store)
    ensures r.0.Failure? ==> r.1 == store
    ensures r.0.Success? <==>
      && orderId != "" && paymentId != "" && signature != ""
      && sign(SignedText(orderId, paymentId)) == signature
      && exists i :: 0 <= i < |store| && store[i].razorpayOrderId == Some(orderId)
    ensures r.0.Success? ==>
      && r.0 == Success(200, "Payment verified successfully") && |r.1| == |store|
      && exists i :: 0 <= i < |store| && store[i].razorpayOrderId == Some(orderId)
                     && (forall j :: 0 <= j < i ==> store[j].razorpayOrderId != Some(orderId))
                     && r.1 == store[i := MarkPaid(store[i], paymentId, signature)]
  {
    if orderId == "" || paymentId == "" || signature == "" then (Failure(400, "Missing payment details"), store)
    else match FindIndex(store, HasGatewayId(orderId))
      case None => (Failure(404, "Order not found"), store)
      case Some(i) =>
        if sign(SignedText(orderId, paymentId)) == signature then
          (Success(200, "Payment verified successfully"), store[i := MarkPaid(store[i], paymentId, signature)])
        else (Failure(400, "Invalid payment signature"), store)
  }

  /** A wrong signature leaves every order untouched: for a known gateway
      order it is a 400 "Invalid payment signature", and otherwise the
      missing-details 400 or the unknown-order 404 comes first. */
  lemma BadSignatureNoChange(store: seq<Order>, orderId: string, paymentId: string, signature: string,
                             sign: string -> string)
    requires sign(SignedText(orderId, paymentId)) != signature
    ensures var r := VerifyPayment(store, orderId, paymentId, signature, sign);
      && r.1 == store
      && (r.0 == Failure(400, "Invalid payment signature") || r.0 == Failure(400, "Missing payment details")
          || r.0 == Failure(404, "Order not found"))
      && (orderId != "" && paymentId != "" && signature != ""
          && (exists i :: 0 <= i < |store| && store[i].razorpayOrderId == Some(orderId)) ==>
            r.0 == Failure(400, "Invalid payment signature"))
  {
    if orderId != "" && paymentId != "" && signature != "" {
      match FindIndex(store, HasGatewayId(orderId))
      case None =>
      case Some(i) =>
    }
  }

  /** Repeating a successful verification with the same inputs changes
      nothing more: the same order is found again and is already paid. */
  lemma {:induction false} VerifyPaymentIdempotent(store: seq<Order>, orderId: string, paymentId: string, signature: string,
                                                   sign: string -> string)
    requires VerifyPayment(store, orderId, paymentId, signature, sign).0.Success?
    ensures var once := VerifyPayment(store, orderId, paymentId, signature, sign).1;
            VerifyPayment(once, orderId, paymentId, signature, sign) == (Success(200, "Payment verified successfully"), once)
  {
    var p := HasGatewayId(orderId);
    var i := FindIndex(store, p).value;
    var once := store[i := MarkPaid(store[i], paymentId, signature)];
    assert VerifyPayment(store, orderId, paymentId, signature, sign).1 == once;
    assert p(once[i]);
    assert forall j :: 0 <= j < i ==> once[j] == store[j];
    assert forall j :: 0 <= j < i ==> !p(once[j]);
    var k := FindIndex(once, p).value;
    assert k == i;
    assert MarkPaid(once[i], paymentId, signature) == once[i];
    assert once[i := MarkPaid(once[i], paymentId, signature)] == once;
  }

  // ---------------------------------------------------------------------------
  // The create-order routes

  const MaxPaise: real := 50000000.0

  /** The Next.js `/api/create-order` handler: only POST, an amount in paise in
      (0, 50,000,000], then the gateway options with a time-stamped receipt.
      `gatewayOk` is whether the gateway call succeeds. */
  function NextCreateOrder(httpMethod: string, amount: Option<real>, now: nat, gatewayOk: bool)
    : (r: Response<GatewayRequest>)
    ensures httpMethod != "POST" ==> r == Failure(405, "Method not allowed")
    ensures httpMethod == "POST" ==>
      (r.Failure? && r.status == 400 <==> amount.None? || amount.value <= 0.0 || amount.value > MaxPaise)
    ensures httpMethod == "POST" && amount.Some? && 0.0 < amount.value <= MaxPaise && !gatewayOk ==>
              r == Failure(500, "Razorpay order creation failed.")
    ensures r.Success? <==> httpMethod == "POST" && amount.Some? && 0.0 < amount.value <= MaxPaise && gatewayOk
    ensures r.Success? ==> r.status == 200 && r.body.amount == amount.value && r.body.currency == "INR"
                           && r.body.receipt == "order_rcptid_" + DecimalText(now)
                           && 0.0 < r.body.amount <= MaxPaise
  {
    if httpMethod != "POST" then Failure(405, "Method not allowed")
    else if NumOr(amount, 0.0) == 0.0 || amount.value <= 0.0 || amount.value > MaxPaise then
      Failure(400, "Invalid amount. Please enter a valid amount within allowed limits.")
    else if !gatewayOk then Failure(500, "Razorpay order creation failed.")
    else Success(200, GatewayRequest(amount.value, "INR", "order_rcptid_" + DecimalText(now)))
  }

  /** Decimal text is injective: distinct timestamps print differently. */
  lemma {:induction false} DecimalTextInjective(a: nat, b: nat)
    requires DecimalText(a) == DecimalText(b)
    ensures a == b
    decreases a
  {
    LastDigit(a);
    LastDigit(b);
    if a >= 10 && b >= 10 {
      var ta := DecimalText(a);
      assert ta[..|ta| - 1] == DecimalText(a / 10);
      assert ta[..|ta| - 1] == DecimalText(b / 10);
      DecimalTextInjective(a / 10, b / 10);
    }
  }

  /** Requests made at different milliseconds carry different receipts. */
  lemma NextReceiptsDistinct(amount: Option<real>, now: nat, later: nat)
    requires now != later
    requires NextCreateOrder("POST", amount, now, true).Success?
    ensures NextCreateOrder("POST", amount, now, true).body.receipt != NextCreateOrder("POST", amount, later, true).body.receipt
  {
    var p := "order_rcptid_";
    if p + DecimalText(now) == p + DecimalText(later) {
      assert DecimalText(now) == (p + DecimalText(now))[|p|..];
      assert DecimalText(later) == (p + DecimalText(later))[|p|..];
      DecimalTextInjective(now, later);
    }
  }

  /** How the receipt's three parts sit in it. */
  lemma ReceiptParts(p: string, id: string, tail: string)
    ensures var r := p + id + "_" + tail;
            |r| == |p| + |id| + 1 + |tail| && r[..|p|] == p && r[|p|..] == id + "_" + tail
            && r[|r| - |tail|..] == tail
  {
    var r := p + id + "_" + tail;
    assert r == p + (id + "_" + tail);
    assert r == (p + id + "_") + tail;
  }

  /** `rcpt_` + the first ten characters of the user id + `_` + the last six
      digits of the timestamp. */
  function Receipt(userId: string, now: nat): (r: string)
    ensures |r| <= 22
    ensures StartsWith(r, "rcpt_")
    ensures Take(userId, 10) + "_" <= r[5..]
    ensures EndsWith(r, TakeLast(DecimalText(now), 6))
    ensures |r| == 6 + |Take(userId, 10)| + |TakeLast(DecimalText(now), 6)|
  {
    var id := Take(userId, 10);
    var tail := TakeLast(DecimalText(now), 6);
    ReceiptParts("rcpt_", id, tail);
    "rcpt_" + id + "_" + tail
  }

  /** The Express `/api/create-order` route: a falsy amount is a 400,
      otherwise the gateway gets the amount unchanged in INR with the short receipt. */
  function ServerCreateOrder(amount: Option<real>, userId: string, now: nat, gatewayOk: bool)
    : (r: Response<GatewayRequest>)
    ensures r == Failure(400, "Missing required field: amount") <==> NumOr(amount, 0.0) == 0.0
    ensures NumOr(amount, 0.0) != 0.0 && !gatewayOk ==> r == Failure(500, "Failed to create Razorpay order")
    ensures r.Success? <==> NumOr(amount, 0.0) != 0.0 && gatewayOk
    ensures r.Success? ==> r.status == 200 && r.body.amount == amount.value && r.body.currency == "INR"
                           && r.body.receipt == Receipt(userId, now) && |r.body.receipt| <= 22
  {
    if NumOr(amount, 0.0) == 0.0 then Failure(400, "Missing required field: amount")
    else if !gatewayOk then Failure(500, "Failed to create Razorpay order")
    else Success(200, GatewayRequest(amount.value, "INR", Receipt(userId, now)))
  }

  /** The last decimal character of `n` is its units digit. */
  lemma LastDigit(n: nat)
    ensures var t := DecimalText(n); t[|t| - 1] == '0' + (n % 10) as char
    ensures n < 10 ==> |DecimalText(n)| == 1
    ensures n >= 10 ==> DecimalText(n) == DecimalText(n / 10) + ['0' + (n % 10) as char]
  {
  }

  /** `n` and `x` agree in their last `k` decimal digits. */
  predicate SameLowDigits(n: nat, x: nat, k: nat) {
    k == 0 || (n % 10 == x % 10 && SameLowDigits(n / 10, x / 10, k - 1))
  }

  /** Numbers agreeing in their last `k` digits, each printed with at least
      `k` digits, print the same last `k` characters. */
  lemma {:induction false} LastDigitsAgree(n: nat, x: nat, k: nat)
    requires SameLowDigits(n, x, k) && |DecimalText(n)| >= k && |DecimalText(x)| >= k
    ensures var s, t := DecimalText(n), DecimalText(x); s[|s| - k..] == t[|t| - k..]
    decreases k
  {
    if k > 0 {
      LastDigit(n);
      LastDigit(x);
      var s, t := DecimalText(n), DecimalText(x);
      assert s[|s| - 1] == t[|t| - 1];
      if k == 1 {
        assert s[|s| - 1..] == [s[|s| - 1]] && t[|t| - 1..] == [t[|t| - 1]];
      } else {
        LastDigitsAgree(n / 10, x / 10, k - 1);
        var s', t' := DecimalText(n / 10), DecimalText(x / 10);
        assert s == s' + [s[|s| - 1]] && t == t' + [t[|t| - 1]];
        assert s[|s| - k..] == s'[|s'| - (k - 1)..] + [s[|s| - 1]];
        assert t[|t| - k..] == t'[|t'| - (k - 1)..] + [t[|t| - 1]];
      }
    }
  }

  /** A timestamp of at least 100000 prints with at least six digits. */
  lemma SixDigitsAtLeast(n: nat)
    requires n >= 100000
    ensures |DecimalText(n)| >= 6
  {
    var m := n;
    LastDigit(m);
    LastDigit(m / 10);
    LastDigit(m / 100);
    LastDigit(m / 1000);
    LastDigit(m / 10000);
    assert m / 10 / 10 == m / 100 && m / 100 / 10 == m / 1000;
    assert m / 1000 / 10 == m / 10000 && m / 10000 / 10 == m / 100000;
    assert |DecimalText(m / 100000)| >= 1;
  }

  /** Adding a million changes none of the last six digits. */
  lemma MillionKeepsLowDigits(n: nat)
    ensures SameLowDigits(n, n + 1000000, 6)
  {
    var n1, x1 := n / 10, (n + 1000000) / 10;
    var n2, x2 := n1 / 10, x1 / 10;
    var n3, x3 := n2 / 10, x2 / 10;
    var n4, x4 := n3 / 10, x3 / 10;
    var n5, x5 := n4 / 10, x4 / 10;
    assert x1 == n1 + 100000 && x2 == n2 + 10000 && x3 == n3 + 1000;
    assert x4 == n4 + 100 && x5 == n5 + 10;
    assert SameLowDigits(n5, x5, 1);
    assert SameLowDigits(n4, x4, 2);
    assert SameLowDigits(n3, x3, 3);
    assert SameLowDigits(n2, x2, 4);
    assert SameLowDigits(n1, x1, 5);
  }

  /** The short receipt keeps only six digits of the timestamp: two requests
      by one user a million milliseconds apart get the same receipt. */
  lemma ServerReceiptRepeats(amount: Option<real>, userId: string, now: nat)
    requires now >= 100000
    requires ServerCreateOrder(amount, userId, now, true).Success?
    ensures ServerCreateOrder(amount, userId, now + 1000000, true).body.receipt
            == ServerCreateOrder(amount, userId, now, true).body.receipt
  {
    SixDigitsAtLeast(now);
    SixDigitsAtLeast(now + 1000000);
    MillionKeepsLowDigits(now);
    LastDigitsAgree(now, now + 1000000, 6);
  }
}
