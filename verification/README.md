# petOnRent core, modelled in Dafny

petOnRent is a pet rental and pet supplies shop. It has a Next.js front end and an Express/Mongoose back end. This project models the rules the shop enforces:

- The cart panel computes price details: subtotal, coupon discount, 18% GST and total.
- The coupon engine accepts SAVE10/15/20 against spend thresholds.
- Cart lines can be re-quantified or removed, and suggestions are offered from the cart's contents.
- The checkout page validates the contact form, converts cart lines into order items and reduces the totals.
- The order route has a first-error validator, the order schema its enums and defaults, and a single order is fetched only by its owner.
- The payment controller creates orders in paise and performs the pending-to-paid transition once the signature matches.
- Both create-order routes build the gateway request: one checks the amount bounds, the other builds the receipt.
- Two review paths exist: the server route allows one review per user, and the review controller is meant to allow one per user and interaction type, although the review schema stores no type. Both recompute the average rating. Only the server route is live: server.js mounts neither reviewRoutes.js nor issueRoutes.js, so the review and issue controllers are modelled as written.
- Insurance covers policy creation, cancellation, claims and the upload whitelist, plus the "my insurance" page: plan table, plan-type derivation, form validation and cart attachment.
- Support issues cover submission, status update and client-side default filling.
- Appointments cover the owner-scoped listing in date-then-time order, booking, an unguarded cancel, and the booking form's validator and pickers.
- The chat assistant classifies a message into an answer and keeps the last five conversations.
- `getApiUrl` joins the API base and an endpoint.
- The pet listing has a star row, a category taken from the address bar, and the category-and-search filter.

Each module follows one source component. `Common` holds the shared JavaScript vocabulary:

- `||` defaults and truthiness;
- `parseInt` applied to a number (truncation) and `Math.round`;
- `toFixed(2)`;
- ASCII case mapping, `includes`, `trim` and `slice(-n)`;
- filter, first-match lookup and sums.

`Calendar` models the one-calendar-year step of `setFullYear`, and `Forms` the React form and error maps.

Conventions of the model:

- Database collections are sequences searched first-match, as `findOne` does.
- A handler returns its response together with the collection after the call.
- Clocks, gateway replies and the HMAC are parameters.
- A Mongoose cast to ObjectId is modelled as "24 hexadecimal characters", and ids are compared as exact strings.

## Model

| member | source | states |
|---|---|---|
| Common.OrElse | frontend/src/pages/checkout.js:204-207 | `a \|\| b` on strings: an empty string takes the default, any other is kept |
| Common.JsRound | frontend/src/pages/pets/index.js:16 | `Math.round` lies within half a unit of its argument |
| Common.Round2Close | frontend/src/components/Cart.js:167-168 | `toFixed(2)` lies within half a cent of the exact value |
| Common.Round2Monotone | frontend/src/components/Cart.js:167-168 | `toFixed(2)` never reverses the order of two amounts |
| Common.Trim | frontend/src/pages/checkout.js:142-146 | `trim` removes exactly the leading and trailing JavaScript white space |
| Common.TakeLast | backend/server.js:60 | `slice(-n)` keeps the last n characters, or all of a shorter string |
| Common.FilterIsSubsequence | frontend/src/pages/pets/index.js:60-65 | `Array.filter` keeps the matching elements in their original order |
| Common.FilterCount | frontend/src/components/Cart.js:235 | `Array.filter` keeps every matching element exactly as often as it occurs, and no other element |
| Common.FindIndex | backend/routes/orderRoutes.js:96-99 | a first-match lookup returns the first matching position, and none only when nothing matches |
| Cart.DisplayedSubtotalSnoc | frontend/src/components/Cart.js:146-156 | a rent line adds rent price times days, a buy line its buy price, and a line of any other type adds nothing |
| Cart.AccumulateSubtotal | frontend/src/components/Cart.js:143-156 | the left-to-right accumulation of the two reductions is the displayed subtotal |
| Cart.ComputePriceDetails | frontend/src/components/Cart.js:143-182 | an empty cart shows all zeros; otherwise the subtotal is the displayed one and the active discount is carried |
| Cart.PriceDetailsIdentities | frontend/src/components/Cart.js:157-169 | the discount is the percentage of the subtotal; GST is 18% of the discounted subtotal; the total is the discounted subtotal plus GST, within a cent, rounded only at the end |
| Cart.PriceDetailsNonNegative | frontend/src/components/Cart.js:157-169 | for a non-negative subtotal and a discount of at most 100%, no figure is negative and the discount never exceeds the subtotal |
| Cart.DiscountWithin | frontend/src/components/Cart.js:157-160 | for a non-negative subtotal and a percent of at most 100, the discount lies between 0 and the subtotal |
| Cart.DiscountLowersTax | frontend/src/components/Cart.js:157-169 | without a discount, GST is 18% of the subtotal, and a discount can only lower GST and total |
| Cart.FindOffer | frontend/src/components/Cart.js:83-87 | the offer found is the one whose code equals the upper-cased coupon; none means no offer has that code |
| Cart.ApplyCoupon | frontend/src/components/Cart.js:294-332 | an active discount blocks the coupon; an unknown code is rejected; the coupon is accepted iff the code is known and `calculateSubtotal` reaches its threshold, and then only the discount changes |
| Cart.CouponAppliedOnce | frontend/src/components/Cart.js:298-304 | after a coupon is applied, a second one is refused; removing it clears the discount and keeps the lines |
| Cart.AcceptedCoupons | frontend/src/components/Cart.js:83-87 | every accepted code is SAVE10, SAVE15 or SAVE20 (any case), granting 10, 15 or 20% at 3000, 5000 or 10000 |
| Cart.RemoveCoupon | frontend/src/components/Cart.js:371-377 | removing the coupon keeps the lines and resets the discount to 0 and the coupon text to "" |
| Cart.StepLine | frontend/src/components/Cart.js:381-397 | a step changes only rent days (rent lines) or quantity (other lines); the new count is the parsed count (1 when it is falsy) plus the change, or 1 when that would be lower |
| Cart.StepFromWholeCount | frontend/src/components/Cart.js:381-397 | on a line whose count is a whole number n of at least 1, a step gives max(1, n + change) |
| Cart.StepUpDown | frontend/src/components/Cart.js:381-397 | stepping up and then down restores a line whose count is already a whole number of at least 1 |
| Cart.ChangeQuantity | frontend/src/components/Cart.js:379-410 | only lines with the chosen id are stepped, the others are unchanged, and the discount and coupon are cleared |
| Cart.RemoveFromCart | frontend/src/components/Cart.js:233-245 | the lines with the chosen id are removed; every other line stays, as often as it occurred and in its order; the discount and the coupon are cleared |
| Cart.SuggestionsOrdered | frontend/src/components/Cart.js:197-211 | suggestions keep the table's order and are never empty; an empty cart gets the whole table |
| Cart.SuggestionsMatching | frontend/src/components/Cart.js:202-209 | when some suggestion matches a line's lower-cased category (or type), exactly the matching suggestions are offered |
| Cart.SuggestionsFallback | frontend/src/components/Cart.js:205-210 | when no suggestion matches, the whole table is offered |
| Checkout.ToOrderItem | frontend/src/pages/checkout.js:149-186 | product-like lines become product lines with zero rent, deposit and days and no pet id; others become pet lines with the parsed days or 1 and no product id; a given non-zero date is passed through, a missing one becomes date text, so no date is falsy |
| Checkout.DefaultDatesOrdered | frontend/src/pages/checkout.js:153-158 | with both dates defaulted and at least one day, the end is at least a day after the start |
| Checkout.ToOrderItemPassesRoute | frontend/src/pages/checkout.js:149-186 | the order item built from a cart line passes the order route's item checks iff the cart line has a name and some identifier |
| Checkout.ReduceTotals | frontend/src/pages/checkout.js:189-201 | rent total = rent price times parsed days over rent lines; deposit total over rent lines only; buy total over every non-rent line |
| Checkout.TotalsMatchPanel | frontend/src/pages/checkout.js:189-201 | for rent and buy lines with whole prices, the checkout's rent plus buy totals equal the cart panel's subtotal |
| Checkout.ProductLineOnlyInCheckout | frontend/src/pages/checkout.js:195-199 | a product line counts in the checkout's buy total but not in the cart panel's subtotal |
| Checkout.PlaceOrder | frontend/src/pages/checkout.js:128-227 | login first, then the contact fields, then the 10-digit phone, then a user id; the payload's user id is `_id` when set, else `id`; it has the trimmed contact, "INR", "pending" and the stored GST and amount |
| Checkout.PayloadTotals | frontend/src/pages/checkout.js:210-227 | the payload's totals are the cart reductions, whatever the items say |
| Checkout.PayloadPassesRoute | frontend/src/pages/checkout.js:210-227 | a payload from a non-empty cart of named, identified lines passes the order route's validator |
| Orders.EnumSpellings | backend/models/Order.js:8-116 | the item type, payment method, order status and payment status enums accept exactly their listed spellings |
| Orders.CastItem | backend/models/Order.js:3-50 | an item is admitted iff it has a name, a listed type, a sent pet id or a non-empty product id, a sent pet id that is an ObjectId (so "" is refused) and both dates; both ids are stored as sent; prices, days and deposit default to 0 |
| Orders.CastItems | backend/models/Order.js:3-50 | a list is admitted iff every item is, item by item |
| Orders.CastOrder | backend/models/Order.js:52-130 | the order schema's requireds and enums; email, totals, currency and both statuses take their defaults |
| Orders.CastOrderWellFormed | backend/models/Order.js:13-25 | every item of an admitted order names a pet by ObjectId or a product by a non-empty id |
| Orders.RequestErrorSpec | backend/routes/orderRoutes.js:13-51 | the validator passes exactly the right-shaped bodies, a date of 0 counting as missing; items are checked first, then user info and payment method, then the first failing item's message; nothing else is checked |
| Orders.CreateOrder | backend/routes/orderRoutes.js:10-73 | success iff the validator passes and the schema admits the body with the owner forced to the caller; a validator failure is a 400 with its message, a schema failure a 400 "Validation error", both leaving the store; a created order is appended and well formed |
| Orders.CreateOrderAccepts | backend/routes/orderRoutes.js:10-73 | a right-shaped body with admissible items, a complete contact, a listed payment method, GST and amount is stored with the caller as owner, its items as cast and pending statuses |
| Orders.EmptyPetIdRefused | backend/models/Order.js:13-19 | an item sending its pet id as "" passes the route's checks when it has a product id, fails the ObjectId cast, and the route answers 400 "Validation error" and stores nothing |
| Orders.GetOrder | backend/routes/orderRoutes.js:94-111 | success iff the id is well formed and some order has both the id and the caller as owner; else 404, or 500 for a malformed id |
| Payment.ToPaise | backend/controllers/paymentController.js:43 | the paise amount is within half a paisa of 100 times the rupees |
| Payment.ToPaiseExact | backend/controllers/paymentController.js:43 | a rupee amount with at most two decimals converts exactly |
| Payment.CreatePaymentOrder | backend/controllers/paymentController.js:33-75 | 400 iff user id, items, amount or GST is missing or falsy; a failed gateway call or schema failure is a 500; success iff neither, and then the reply has the amount in paise and the order is appended pending/pending with the gateway id |
| Payment.CreatePaymentOrderAccepts | backend/controllers/paymentController.js:33-75 | a complete body with admissible items and a non-zero amount and GST is stored once the gateway answers, pending, with the gateway id and the items as cast |
| Payment.MarkPaid | backend/controllers/paymentController.js:113-116 | marking paid sets processing/completed and the two gateway ids, and changes nothing else |
| Payment.VerifyPayment | backend/controllers/paymentController.js:89-124 | missing details are a 400; no order with the gateway id a 404; a known order with a wrong signature a 400; success iff the HMAC of `order_id\|payment_id` matches and some order has that gateway id, and then only the first such order is marked paid |
| Payment.BadSignatureNoChange | backend/controllers/paymentController.js:98-124 | a wrong signature leaves every order untouched; with all details present and a known gateway id it is exactly the 400 "Invalid payment signature" |
| Payment.VerifyPaymentIdempotent | backend/controllers/paymentController.js:111-119 | repeating a successful verification succeeds again and changes nothing |
| Payment.NextCreateOrder | frontend/src/pages/api/create-order.js:3-37 | non-POST is a 405; for POST, a 400 iff the amount is missing, not positive or over 50,000,000, and a 500 when the gateway fails; success iff none of these, with the amount unchanged in INR and the receipt `order_rcptid_` followed by the timestamp's digits |
| Payment.DecimalTextInjective | frontend/src/pages/api/create-order.js:27 | distinct timestamps print as distinct decimal text |
| Payment.NextReceiptsDistinct | frontend/src/pages/api/create-order.js:27 | requests made at different milliseconds get different receipts |
| Payment.Receipt | backend/server.js:59-61 | the receipt is `rcpt_`, then up to ten characters of the user id, then `_`, then the last six digits of the timestamp, and nothing else: at most 22 characters, its length the sum of the parts' |
| Payment.ServerCreateOrder | backend/server.js:48-89 | a falsy amount is a 400; a failed gateway call a 500; success iff neither, with the amount unchanged in INR and the short receipt |
| Payment.LastDigitsAgree | backend/server.js:60 | two numbers agreeing in their last k digits, each with at least k digits, print the same last k characters |
| Payment.ServerReceiptRepeats | backend/server.js:59-61 | one user's receipts a million milliseconds apart are the same, since only six digits of the timestamp are kept |
| Reviews.MeanInRange | backend/server.js:123-124 | the mean of ratings that all lie in [1, 5] lies in [1, 5] |
| Reviews.WithReview | backend/server.js:122-124 | the review is appended and the average is the mean of all ratings, staying in [1, 5] |
| Reviews.Accept | backend/server.js:122-127 | accepting a review changes that pet alone, into the pet with the review appended and the average recomputed as the mean of all ratings, keeping every stored rating in range |
| Reviews.ServerAddReview | backend/server.js:92-127 | 400 for missing fields, a malformed pet id or a rating that is not an integer in [1, 5]; 404 when no pet has the id; 400 when the user already reviewed the first such pet; success iff none of these, storing that pet with the review appended and the average set to the mean of all its ratings |
| Reviews.ServerFirstReviewAccepted | backend/server.js:92-127 | a user's first review of a listed pet with an integer rating in [1, 5] is a 201 that appends it and sets the mean rating |
| Reviews.ServerOnePerUser | backend/server.js:114-120 | the route keeps at most one review per user on every pet |
| Reviews.SubmitReview | backend/controllers/reviewController.js:4-65 | the controller as written (reviewRoutes.js is not mounted by server.js): 400 for missing fields or a bad rating, 500 for a malformed id, 404 for an unknown pet, 400 when a stored review has the user and the type as sent; success iff none of these; the review is stored without a type, on the first pet with the id, whose average becomes the mean of all its ratings |
| Reviews.SubmitKeepsUntyped | backend/models/Pet.js:3-8 | the review schema has no type, so every stored review stays untyped |
| Reviews.TypedReviewNeverDuplicate | backend/controllers/reviewController.js:34-52 | as written, a valid review sent with a type for a listed pet is always accepted, however often the user reviewed it |
| Reviews.RepeatTypedReviewAccepted | backend/controllers/reviewController.js:34-52 | as written, the same "rent" review by one user is accepted twice |
| Reviews.UntypedRepeatCaught | backend/controllers/reviewController.js:34-43 | as written, a repeated untyped review is the one rejected |
| Reviews.SubmitReviewOncePerType | backend/controllers/reviewController.js:4-65 | the corrected controller, with the type stored: the same 400, 500 and 404 cases; a 400 when the user has a review filed under this type (or "purchase"); success iff none of these, storing the typed review on the first pet with the id, whose average becomes the mean of all its ratings |
| Reviews.ControllerAverageIsMean | backend/controllers/reviewController.js:54-56 | after a successful submission, under either controller, the pet's average is the mean of all its ratings, the new one included |
| Reviews.OncePerTypeKept | backend/controllers/reviewController.js:34-52 | the corrected controller keeps at most one review per user and type |
| Reviews.RepeatTypedReviewRejected | backend/controllers/reviewController.js:34-43 | with the correction, the repeated "rent" review is a 400 that changes nothing |
| Reviews.RepeatUntypedReviewRejected | backend/controllers/reviewController.js:34-43 | with the correction, the repeated untyped review is a 400 that changes nothing |
| Insurance.InsuranceEnumSpellings | backend/routes/insuranceRoutes.js:26-79 | plan type, policy status and document type accept exactly their listed spellings |
| Insurance.StatusText | backend/routes/insuranceRoutes.js:47-51 | each status's spelling parses back to it |
| Insurance.CastPolicy | backend/routes/insuranceRoutes.js:11-101 | a policy is admitted iff owner, ObjectId pet id, pet name, a listed plan, coverage, premium and a listed status are present; the stored policy keeps the sent pet, plan, coverage, premium and benefits and starts with no claims |
| Insurance.CreatePolicy | backend/routes/insuranceRoutes.js:192-256 | 400 iff pet id, pet name or plan type is missing; otherwise success iff the schema admits the policy, a 500 if not; the stored policy is the schema's, with the caller as owner, start defaulting to now, end to one calendar year later, status to active |
| Insurance.CancelPolicy | backend/routes/insuranceRoutes.js:288-324 | a malformed id is a 500; no policy with the id and the caller as owner is a 404; when the first such policy is not active, a 400 naming its status; otherwise success, and only its status becomes cancelled |
| Insurance.CancelledRefused | backend/routes/insuranceRoutes.js:302-307 | a cancelled policy found first is refused with "already cancelled" and nothing changes |
| Insurance.CancelTwice | backend/routes/insuranceRoutes.js:302-307 | a second cancel is a 400 "already cancelled" and changes nothing |
| Insurance.LastDot | backend/routes/insuranceRoutes.js:147 | the position found is the last dot in the name |
| Insurance.Extname | backend/routes/insuranceRoutes.js:147 | `path.extname`: "" without a dot, for a lone leading dot and for ".."; otherwise the name from its last dot on |
| Insurance.UpperCaseExtensionRejectedOnSave | backend/routes/insuranceRoutes.js:145-159 | as written, "scan.PDF" passes the filter but its document type "PDF" is outside the schema's enumeration |
| Insurance.DocumentType | backend/routes/insuranceRoutes.js:386-388 | the corrected document type is listed whenever the filter admits the upload |
| Insurance.AcceptedUploadHasListedType | backend/routes/insuranceRoutes.js:145-159 | for every admitted upload, the lower-cased extension is a dot followed by a listed document type |
| Insurance.ClaimOnPolicy | backend/routes/insuranceRoutes.js:345-399 | once the policy is found: multer's file-type and size errors, then the missing amount or reason, then the coverage limit, each a 400 with its message; a document type outside the enumeration ends the process; otherwise the pending claim is appended |
| Insurance.ClaimRoute | backend/routes/insuranceRoutes.js:328-414 | a malformed id is a 500 and no active policy of the caller a 404, then the checks above; the process exits iff every check passes and the upload's document type is not listed; success iff every check passes and it is listed (or there is no upload), storing a pending claim with the upload's path and type, or with neither when there is no upload; nothing changes otherwise |
| Insurance.UpperCaseClaimExits | backend/routes/insuranceRoutes.js:386-404 | as written, an admissible claim with an upload named "scan.PDF" ends the server process |
| Insurance.CorrectedClaimNeverExits | backend/routes/insuranceRoutes.js:386-388 | with the extension lower-cased, no claim request ends the process |
| Insurance.ValidClaimAccepted | backend/routes/insuranceRoutes.js:379-398 | with the correction, an admissible claim with an upload is a 201 appending a pending claim with the upload's path and listed type |
| Insurance.ClaimAtCoverageAccepted | backend/routes/insuranceRoutes.js:367-377 | a claim without a document for exactly the coverage amount is accepted |
| Calendar.AddOneYear | frontend/src/pages/my-insurance.js:251 | one calendar year later: same month, day and time, with 29 February overflowing to 1 March; always a valid, later date |
| InsurancePage.BeforeFirst | frontend/src/pages/my-insurance.js:245 | `split(c)[0]` is the prefix before the first `c`, or the whole string |
| InsurancePage.BeforeFirstConcat | frontend/src/pages/my-insurance.js:245 | an id made of an underscore-free prefix, then an underscore and more, has that prefix as its plan type |
| InsurancePage.TablePlanTypes | frontend/src/pages/my-insurance.js:40-72 | the three table plans derive basic, standard and premium, each a schema plan type |
| Forms.RequireAll | frontend/src/pages/appointments.js:127-134 | a run of required-field checks gives each empty listed field its message and each filled one none |
| Forms.RequireAllCongruent | frontend/src/pages/appointments.js:127-134 | forms that agree on which listed fields are filled get the same errors |
| InsurancePage.ValidateForm | frontend/src/pages/my-insurance.js:218-228 | one error per empty field among pet name, type, breed, age and gender, each with its message |
| InsurancePage.ValidIffFilled | frontend/src/pages/my-insurance.js:218-228 | the form is valid iff the five fields are filled, and the medical history never matters |
| InsurancePage.HandleChange | frontend/src/pages/my-insurance.js:202-216 | only the named field changes and only its error is cleared |
| InsurancePage.PolicyRequest | frontend/src/pages/my-insurance.js:236-253 | the request carries the generated pet id, the form's pet name, the derived plan type, the plan's coverage, price and benefits, and an active one-year term starting now |
| InsurancePage.PageRequestAccepted | frontend/src/pages/my-insurance.js:236-253 | a request for a plan of a schema type, from a form with a pet name, creates an active policy with that type and coverage ending one year after it starts |
| InsurancePage.AttachInsurance | frontend/src/pages/my-insurance.js:310-318 | only lines with the selected id get the insurance; length and the other lines are unchanged |
| Issues.IssueStatusSpellings | backend/controllers/issueController.js:80-85 | every status spelling is in the allowed list and parses back to itself |
| Issues.SubmitIssue | backend/controllers/issueController.js:3-49 | 400 iff a required field is missing or an enum fails; a submission is stored pending with the sent contact, issue type, pet category, pet name and description, timestamped now, due five days later |
| Issues.SubmittedStatusIgnored | backend/controllers/issueController.js:16-26 | the status a client sends has no effect |
| Issues.UpdateIssueStatus | backend/controllers/issueController.js:74-117 | an invalid status is a 400 first, then a malformed id a 400, an unknown id a 404; success overwrites only the status and `lastUpdated` of the first match |
| Issues.AnyTransitionAllowed | backend/controllers/issueController.js:87-94 | every allowed status can be set from any current status |
| Issues.DetailOr | frontend/src/services/issueService.js:27-35 | a pet detail falls back from the details object to the flat field to "Not specified" |
| Issues.Normalise | frontend/src/services/issueService.js:13-36 | status, timestamps, assignee, notes and priority are defaulted only when empty and kept otherwise; category comes from the issue type or "general"; each pet detail comes from the nested details, else the flat field, else "Not specified"; nothing else changes |
| Issues.NormaliseIdempotent | frontend/src/services/issueService.js:13-36 | filling defaults twice is filling them once |
| AppointmentsPage.HandleChange | frontend/src/pages/appointments.js:100-114 | a checkbox stores its `checked` flag and other inputs their value; only that field's error is cleared |
| AppointmentsPage.HandlePetSelect | frontend/src/pages/appointments.js:116-125 | an unknown pet id changes nothing; otherwise the first listed pet with that id sets both pet id and pet name |
| AppointmentsPage.ValidateForm | frontend/src/pages/appointments.js:127-139 | one error per empty field among pet id, pet name, date, time and reason, each with its message, every one recorded; plus the address error exactly for a home visit with no address |
| AppointmentsPage.ValidIffComplete | frontend/src/pages/appointments.js:127-139 | the form is valid iff complete; notes never matter; the address does not matter for a clinic visit |
| Appointments.TextLeTotal | backend/routes/appointmentRoutes.js:70 | the string order on times is total |
| Appointments.TextLeTransitive | backend/routes/appointmentRoutes.js:70 | the string order on times is transitive |
| Appointments.Insert | backend/routes/appointmentRoutes.js:70 | inserting into a sorted list keeps it sorted and adds exactly one element |
| Appointments.SortByDateTime | backend/routes/appointmentRoutes.js:70 | the sort is sorted by date then time and a permutation of its input |
| Appointments.ListAppointments | backend/routes/appointmentRoutes.js:66-71 | the listing is sorted and holds exactly the caller's appointments, each as often as stored |
| Appointments.ListedInOrder | backend/routes/appointmentRoutes.js:66-71 | no listed appointment is dated before one listed earlier |
| Appointments.CastAppointment | backend/routes/appointmentRoutes.js:8-55 | admitted iff the required fields are present, a sent pet id is an ObjectId (a sent "" is not) and a sent status is listed (a sent "" is not); an absent status, doctor or home-visit flag takes its default, and a sent doctor name is kept, even ""; the reason, address, notes and a sent home-visit flag are stored as sent |
| Appointments.BookAppointment | backend/routes/appointmentRoutes.js:90-110 | a booking is stored with the authenticated owner; any failure is a 500 and stores nothing |
| Appointments.EmptyPetIdRefused | backend/routes/appointmentRoutes.js:14-17 | a pet id sent as "" fails the ObjectId cast: the booking is a 500 and nothing is stored |
| Appointments.ClientUserIdIgnored | backend/routes/appointmentRoutes.js:90-93 | the client's user id never matters |
| Appointments.CancelAppointment | backend/routes/appointmentRoutes.js:116-143 | a malformed id is a 500, no match on id and owner a 404; success sets the first match to cancelled whatever its status |
| Appointments.CancelIdempotent | backend/routes/appointmentRoutes.js:128-129 | cancelling again succeeds and leaves the store as the first cancel left it |
| Chatbot.Score | frontend/src/services/chatbotService.js:343-348 | a score counts the keywords found, and is 0 iff none occurs |
| Chatbot.BestFrom | frontend/src/services/chatbotService.js:339-354 | the scan yields the first reply of strictly greatest score, and none exactly when every score is 0 |
| Chatbot.Best | frontend/src/services/chatbotService.js:339-354 | the best match is the first reply of greatest score |
| Chatbot.TieGoesToEarliest | frontend/src/services/chatbotService.js:350-353 | of two replies tied at the greatest score, the later is never chosen |
| Chatbot.Classify | frontend/src/services/chatbotService.js:253-367 | each fixed answer iff its list has a word in the lower-cased message and no earlier list does; a quick reply or the fallback iff no list does; a quick reply is the best match; the fallback iff in addition every score is 0 |
| Chatbot.FirstTrigger | frontend/src/services/chatbotService.js:256-336 | the first row of the trigger table whose list occurs gives the answer, and none only when no list occurs |
| Chatbot.ClassifyByTable | frontend/src/services/chatbotService.js:256-336 | the chain of trigger tests agrees with the first-match reading of the trigger table |
| Chatbot.KeywordStage | frontend/src/services/chatbotService.js:339-367 | with no trigger word, a best score of at least 1 gives that reply, and a score of 0 exactly the fallback |
| Chatbot.ThisIsAGreeting | frontend/src/services/chatbotService.js:256-265 | "this" gets the greeting, because it contains "hi" |
| Chatbot.AddressNeverLocation | frontend/src/services/chatbotService.js:292-324 | "address" never reaches the location answer; with no earlier trigger it gets the contact answer |
| Chatbot.SaveConversation | frontend/src/services/chatbotService.js:205-236 | the new conversation is last, and before it are the most recent earlier ones, at most five in all |
| Chatbot.HistoryBounded | frontend/src/services/chatbotService.js:220-223 | the history never exceeds five, and a history under five loses nothing |
| ApiUrl.ConfiguredApiUrl | frontend/src/utils/api.js:2-3 | the configured base is used when set, else the local default |
| ApiUrl.TrimTrailingSlash | frontend/src/utils/api.js:7 | exactly one trailing slash is removed, if present |
| ApiUrl.TrimLeadingSlash | frontend/src/utils/api.js:8 | exactly one leading slash is removed, if present |
| ApiUrl.GetApiUrl | frontend/src/utils/api.js:6-10 | the URL starts with the base and a single slash and ends with a single slash and the endpoint, and its length accounts for each removed slash |
| ApiUrl.LeadingSlashIgnored | frontend/src/utils/api.js:8 | a leading slash on the endpoint makes no difference |
| ApiUrl.TrailingSlashIgnored | frontend/src/utils/api.js:7 | a trailing slash on the base makes no difference |
| ApiUrl.OnlyOneSlashDropped | frontend/src/utils/api.js:8 | of a doubled leading slash only one is dropped |
| ApiUrl.SplitBack | frontend/src/utils/api.js:9 | base and endpoint with no slash at the join are recovered from the URL |
| PetListing.Stars | frontend/src/pages/pets/index.js:10-22 | five stars, the i-th filled iff i < round(rating) |
| PetListing.FilledStars | frontend/src/pages/pets/index.js:10-22 | the number of filled stars is round(rating) clamped to [0, 5] |
| PetListing.FilterFromQuery | frontend/src/pages/pets/index.js:50-58 | an address-bar category sets the filter to it with its first letter upper-cased and the rest kept; no category leaves the filter alone |
| PetListing.AllQueryShowsEverything | frontend/src/pages/pets/index.js:50-64 | `?category=all` sets the filter "All", which with an empty search shows every pet |
| PetListing.CapitaliseKeepsLower | frontend/src/pages/pets/index.js:53-55 | capitalising changes no letter's lower-case form |
| PetListing.FilteredPets | frontend/src/pages/pets/index.js:60-65 | a pet is shown iff "All" or its category matches ignoring case, and its name contains the term ignoring case; order is kept |
| PetListing.AllShowsEverything | frontend/src/pages/pets/index.js:60-64 | "All" with an empty search shows every pet, in order |
| PetListing.FilterIgnoresCase | frontend/src/pages/pets/index.js:62-63 | a filter and its capitalised form show the same pets |

## Left out

- Persistence: collections are sequences searched first-match. Connection and retry logic, `save` and `populate` are not modelled, and identifiers are not assumed unique.
- Network and gateway: `razorpay.orders.create` is a parameter (its id, or whether it succeeds); the front-end `fetch`/`axios` calls and the payment widget are not modelled.
- Cryptography and auth: the HMAC-SHA256 of RFC 2104 is an uninterpreted parameter `sign`. JWT checks and bcrypt are not modelled; the authenticated user id is a parameter.
- File storage: multer's disk storage and `fs.unlinkSync` are not modelled. Only the extension check, the size limit and the stored path and type remain.
- Clocks: every `Date.now()` or `new Date()` is a parameter. Where the source reads the clock more than once in one step, the model uses one reading. This covers the insurance route (start and end dates), checkout.js:153-157 (`new Date()` for the start, `Date.now()` for the end) and my-insurance.js:250-251 (three readings).
- Numbers: money is an exact `real`. IEEE floating-point rounding, NaN and string-to-number coercion are not modelled. An absent or non-numeric field is `None`.
- Common.Lower and Common.Upper map ASCII letters only; JavaScript's full Unicode case mapping is not modelled.
- Routing: server.js mounts neither backend/routes/reviewRoutes.js nor backend/routes/issueRoutes.js, so the review controller and the issue controller are reachable by no request of the running server. Both are modelled as written; server mounting is not modelled.
- Issues.SubmitIssue: the text of a Mongoose `ValidationError` is abbreviated to a fixed message; the status 400 is modelled.
- Timestamps of issues and appointment dates are milliseconds since the epoch; ISO text formatting is not modelled.
- Appointments.CastAppointment: an absent address or notes is stored as "", where the source leaves the path unset; the two differ only in whether the stored document has the key.
- Appointments.ListAppointments: the order among appointments with equal date and time is left open (stated as a permutation), since the database does not fix it.
- Chatbot: the one-second delay, `localStorage`, `loadConversations` and `getWelcomeMessage` are not modelled. Chatbot.Respond maps the chosen answer to its text and carries no contract.
- Insurance.ClaimRoute: a save that fails for a reason other than the document type is not modelled. The document-type failure throws inside multer's callback; the rethrow at insuranceRoutes.js:399-405 rejects a promise nobody awaits, and server.js:171-174 exits the process. The model records that as `ProcessExit`.
- Insurance.ClaimRoute: a non-numeric claim amount (`parseFloat` giving NaN, which passes the coverage test) is not modelled; the amount is a number or absent.
- ObjectIds: Mongoose casts hex text of either case to the same ObjectId, so two ids differing only in letter case name one document; the model compares ids as exact strings. `ObjectId.isValid` also accepts any 12-character string, which the model does not: Reviews.ServerAddReview answers 400 for such an id, where the source looks it up and answers 404.
- The order list route (`GET /api/orders`), the issue lookup by email and the rest of issueService.js beyond its default-filling are not modelled.
- Admin pages, feedback, pet CRUD, login and signup are outside the modelled core.

## Findings

| source | as written | input that shows it | evidently intended | confidence | as-written member | corrected member |
|---|---|---|---|---|---|---|
| backend/controllers/reviewController.js:34-51 | the duplicate test compares each stored review's type with the type as sent, but the review schema (backend/models/Pet.js:3-8) has no `orderType` path, so stored reviews carry no type and a typed repeat never matches | the same user submits a review with `orderType` "rent" twice for one pet: both are accepted. This is latent: server.js (lines 5-11 and 37-44) does not mount reviewRoutes.js, and its own review route (lines 114-120) rejects any repeat by the user | one review per user per interaction type, the type stored with the review | not executed | Reviews.TypedReviewNeverDuplicate | Reviews.OncePerTypeKept |
| backend/routes/insuranceRoutes.js:386-388 | the stored document type is the extension in its original case, while the upload filter (lines 145-159) lower-cases it before testing and the schema's enumeration (lines 75-79) is lower-case | a claim upload named "scan.PDF": accepted by the filter, then its type "PDF" fails the schema on save, and the rethrow inside multer's callback ends the server process | the document type is the lower-cased extension, as the filter compared it | not executed | Insurance.UpperCaseClaimExits | Insurance.CorrectedClaimNeverExits |
