/** Pet reviews: the Express `/api/reviews` route (one review per user) and the
    review controller (meant to allow one review per user and interaction
    type), each with the rating checks and the recomputed average rating. The
    pet schema's review records have no `orderType` path, so a stored review
    never keeps its type. */
module Reviews {
  import opened Common

  datatype Review = Review(userId: string, rating: int, comment: string, orderType: Option<string>)

  datatype Pet = Pet(id: string, reviews: seq<Review>, averageRating: real)

  /** `Number.isInteger(rating) && 1 <= rating <= 5`. */
  predicate ValidRating(x: real) {
    x == x.Floor as real && 1.0 <= x <= 5.0
  }

  predicate RatingsInRange(rs: seq<Review>) {
    forall i :: 0 <= i < |rs| ==> 1 <= rs[i].rating <= 5
  }

  function RatingOf(r: Review): real {
    r.rating as real
  }

  /** `reviews.reduce((acc, r) => acc + r.rating, 0) / reviews.length`. */
  function Mean(rs: seq<Review>): real
    requires |rs| > 0
  {
    Sum(rs, RatingOf) / |rs| as real
  }

  /** The mean of ratings that each lie in [1, 5] lies in [1, 5]. */
  lemma MeanInRange(rs: seq<Review>)
    requires |rs| > 0 && RatingsInRange(rs)
    ensures 1.0 <= Mean(rs) <= 5.0
  {
    SumBounds(rs, RatingOf, 1.0, 5.0);
    var n := |rs| as real;
    var s := Sum(rs, RatingOf);
    DivideBounds(s, n, 1.0, 5.0);
  }

  lemma DivideBounds(s: real, n: real, lo: real, hi: real)
    requires n > 0.0 && lo * n <= s <= hi * n
    ensures lo <= s / n <= hi
  {
    var m := s / n;
    assert m * n == s;
    assert (m - lo) * n >= 0.0;
    assert (hi - m) * n >= 0.0;
  }

  /** The pet with one more review and the average recomputed over all of them. */
  function WithReview(p: Pet, review: Review): (r: Pet)
    ensures r.id == p.id && r.reviews == p.reviews + [review]
    ensures r.averageRating * |r.reviews| as real == Sum(r.reviews, RatingOf)
    ensures 1 <= review.rating <= 5 && RatingsInRange(p.reviews) ==>
              RatingsInRange(r.reviews) && 1.0 <= r.averageRating <= 5.0
  {
    var rs := p.reviews + [review];
    var r := Pet(p.id, rs, Mean(rs));
    if 1 <= review.rating <= 5 && RatingsInRange(p.reviews) then MeanInRange(rs); r else r
  }

  predicate ReviewedBy(rs: seq<Review>, userId: string) {
    exists i :: 0 <= i < |rs| && rs[i].userId == userId
  }

  predicate AllRatingsInRange(pets: seq<Pet>) {
    forall i :: 0 <= i < |pets| ==> RatingsInRange(pets[i].reviews)
  }

  function HasId(id: string): Pet -> bool {
    (p: Pet) => p.id == id
  }

  /** Whether some review of `rs` is by `userId` with type `orderType`. */
  predicate ReviewedAs(rs: seq<Review>, userId: string, orderType: Option<string>) {
    exists k :: 0 <= k < |rs| && rs[k].userId == userId && rs[k].orderType == orderType
  }

  /** The type a review is filed under: the type sent, or "purchase". */
  function FiledType(orderType: Option<string>): string {
    OrElse(if orderType.Some? then orderType.value else "", "purchase")
  }

  /** Accepting `review` for the pet at index `i`: that pet alone changes. */
  function Accept(pets: seq<Pet>, i: nat, review: Review): (r: (Response<Pet>, seq<Pet>))
    requires i < |pets|
    ensures r.0.Success? && r.0.status == 201 && r.1 == pets[i := r.0.body]
    ensures r.0.body == WithReview(pets[i], review)
    ensures r.0.body.id == pets[i].id && r.0.body.reviews == pets[i].reviews + [review]
    ensures 1 <= review.rating <= 5 && AllRatingsInRange(pets) ==>
              AllRatingsInRange(r.1) && 1.0 <= r.0.body.averageRating <= 5.0
  {
    var p := WithReview(pets[i], review);
    (Success(201, p), pets[i := p])
  }

  const MissingReviewFields := "Missing required fields: petId, userId, or rating"
  const BadRating := "Rating must be an integer between 1 and 5"

  /** `i` is the first pet with id `petId`, the one `findById` returns. */
  predicate FirstWithId(pets: seq<Pet>, petId: string, i: int) {
    0 <= i < |pets| && pets[i].id == petId && forall j :: 0 <= j < i ==> pets[j].id != petId
  }

  /** The lookup and duplicate test the route and both controllers make once
      the request passes: no pet with the id is a 404; the first such pet is
      refused with `duplicate` when its reviews are `reviewed`; otherwise
      `review` is accepted for that pet. */
  function ReviewFirstWithId(pets: seq<Pet>, petId: string, reviewed: seq<Review> -> bool, review: Review,
                             duplicate: string): (r: (Response<Pet>, seq<Pet>))
    ensures (forall i :: 0 <= i < |pets| ==> pets[i].id != petId) ==> r.0 == Failure(404, "Pet not found")
    ensures (exists i :: FirstWithId(pets, petId, i) && reviewed(pets[i].reviews)) ==>
              r.0 == Failure(400, duplicate)
    ensures r.0.Success? <==> exists i :: FirstWithId(pets, petId, i) && !reviewed(pets[i].reviews)
    ensures r.0.Failure? ==> r.1 == pets
    ensures r.0.Success? ==>
      && r.0.status == 201 && |r.1| == |pets|
      && (1 <= review.rating <= 5 && AllRatingsInRange(pets) ==> AllRatingsInRange(r.1) && 1.0 <= r.0.body.averageRating <= 5.0)
      && exists i :: FirstWithId(pets, petId, i)
                     && !reviewed(pets[i].reviews)
                     && r.1 == pets[i := r.0.body]
                     && r.0.body == WithReview(pets[i], review)
                     && r.0.body.reviews == pets[i].reviews + [review]
    ensures r.0.Success? ==> r.0.body.averageRating * |r.0.body.reviews| as real == Sum(r.0.body.reviews, RatingOf)
  {
    match FindIndex(pets, HasId(petId))
    case None => (Failure(404, "Pet not found"), pets)
    case Some(i) =>
      assert FirstWithId(pets, petId, i);
      if reviewed(pets[i].reviews) then (Failure(400, duplicate), pets)
      else Accept(pets, i, review)
  }

  // ---------------------------------------------------------------------------
  // POST /api/reviews (server.js)

  /** The checks the route makes before looking the pet up. */
  predicate ServerRequestOk(petId: string, userId: string, rating: Option<real>) {
    petId != "" && userId != "" && NumOr(rating, 0.0) != 0.0 && IsObjectIdText(petId) && ValidRating(rating.value)
  }

  /** The route: required fields (a zero rating is missing), an ObjectId pet id,
      an integer rating in [1, 5], an existing pet (else 404), and no earlier
      review by the same user (else 400). Accepting a review keeps every
      stored rating in [1, 5], and with them the average. */
  function ServerAddReview(pets: seq<Pet>, petId: string, userId: string, rating: Option<real>, comment: string)
    : (r: (Response<Pet>, seq<Pet>))
    ensures petId == "" || userId == "" || NumOr(rating, 0.0) == 0.0 ==> r.0 == Failure(400, MissingReviewFields)
    ensures petId != "" && userId != "" && NumOr(rating, 0.0) != 0.0 && !IsObjectIdText(petId) ==> r.0 == Failure(400, "Invalid petId format")
    ensures petId != "" && userId != "" && NumOr(rating, 0.0) != 0.0 && IsObjectIdText(petId) && !ValidRating(rating.value) ==>
              r.0 == Failure(400, BadRating)
    ensures ServerRequestOk(petId, userId, rating) && (forall i :: 0 <= i < |pets| ==> pets[i].id != petId) ==>
              r.0 == Failure(404, "Pet not found")
    ensures ServerRequestOk(petId, userId, rating)
            && (exists i :: FirstWithId(pets, petId, i) && ReviewedBy(pets[i].reviews, userId)) ==>
              r.0 == Failure(400, "You have already reviewed this pet")
    ensures r.0.Success? <==>
              ServerRequestOk(petId, userId, rating)
              && exists i :: FirstWithId(pets, petId, i) && !ReviewedBy(pets[i].reviews, userId)
    ensures r.0.Failure? ==> r.1 == pets
    ensures r.0.Success? ==>
      && r.0.status == 201 && ValidRating(rating.value) && |r.1| == |pets|
      && (AllRatingsInRange(pets) ==> AllRatingsInRange(r.1) && 1.0 <= r.0.body.averageRating <= 5.0)
      && exists i :: FirstWithId(pets, petId, i) && !ReviewedBy(pets[i].reviews, userId)
                     && r.1 == pets[i := r.0.body]
                     && r.0.body == WithReview(pets[i], Review(userId, rating.value.Floor, comment, None))
                     && r.0.body.reviews == pets[i].reviews + [Review(userId, rating.value.Floor, comment, None)]
  {
    if petId == "" || userId == "" || NumOr(rating, 0.0) == 0.0 then (Failure(400, MissingReviewFields), pets)
    else if !IsObjectIdText(petId) then (Failure(400, "Invalid petId format"), pets)
    else if !ValidRating(rating.value) then (Failure(400, BadRating), pets)
    else ReviewFirstWithId(pets, petId, (rs: seq<Review>) => ReviewedBy(rs, userId),
                           Review(userId, rating.value.Floor, comment, None), "You have already reviewed this pet")
  }

  /** A user's first review of a listed pet, with an integer rating in [1, 5],
      is accepted: the pet gets the review and the mean of all its ratings. */
  lemma ServerFirstReviewAccepted(pets: seq<Pet>, i: nat, userId: string, rating: int, comment: string)
    requires i < |pets| && FirstWithId(pets, pets[i].id, i) && IsObjectIdText(pets[i].id)
    requires userId != "" && 1 <= rating <= 5 && !ReviewedBy(pets[i].reviews, userId)
    ensures var p := WithReview(pets[i], Review(userId, rating, comment, None));
            ServerAddReview(pets, pets[i].id, userId, Some(rating as real), comment) == (Success(201, p), pets[i := p])
  {
    assert (rating as real).Floor == rating;
    assert FindIndex(pets, HasId(pets[i].id)) == Some(i);
  }

  /** No two reviews of a pet come from the same user. */
  predicate OnePerUser(rs: seq<Review>) {
    forall i, j :: 0 <= i < j < |rs| ==> rs[i].userId != rs[j].userId
  }

  /** The route keeps at most one review per user on every pet. */
  lemma ServerOnePerUser(pets: seq<Pet>, petId: string, userId: string, rating: Option<real>, comment: string)
    requires forall k :: 0 <= k < |pets| ==> OnePerUser(pets[k].reviews)
    ensures var after := ServerAddReview(pets, petId, userId, rating, comment).1;
            forall k :: 0 <= k < |after| ==> OnePerUser(after[k].reviews)
  {
    var r := ServerAddReview(pets, petId, userId, rating, comment);
    if r.0.Success? {
      var i :| FirstWithId(pets, petId, i) && !ReviewedBy(pets[i].reviews, userId)
               && r.1 == pets[i := r.0.body]
               && r.0.body.reviews == pets[i].reviews + [Review(userId, rating.value.Floor, comment, None)];
      var rs := r.0.body.reviews;
      forall a, b | 0 <= a < b < |rs|
        ensures rs[a].userId != rs[b].userId
      {
        if b == |rs| - 1 {
          assert rs[a] == pets[i].reviews[a];
        } else {
          assert rs[a] == pets[i].reviews[a] && rs[b] == pets[i].reviews[b];
        }
      }
    }
  }

  // ---------------------------------------------------------------------------
  // submitReview (reviewController.js)

  /** The checks the controller makes before looking the pet up. */
  predicate ControllerRequestOk(petId: string, userId: string, rating: Option<real>) {
    petId != "" && userId != "" && NumOr(rating, 0.0) != 0.0 && ValidRating(rating.value) && IsObjectIdText(petId)
  }

  const DuplicateTail := ". You can review it again for a different type of interaction."


  /** The review controller as written (backend/routes/reviewRoutes.js,
      which routes to it, is not mounted by server.js): required fields, an integer rating in
      [1, 5], the pet by id (a malformed id is a cast error, 500; an unknown
      one a 404), and a duplicate test comparing each stored review's type
      with the type as sent (a 400). The review is pushed with its type, but
      the pet schema has no `orderType` path for reviews, so it is stored
      without one. */
  function SubmitReview(pets: seq<Pet>, petId: string, userId: string, rating: Option<real>, comment: string,
                        orderType: Option<string>): (r: (Response<Pet>, seq<Pet>))
    ensures petId == "" || userId == "" || NumOr(rating, 0.0) == 0.0 ==> r.0 == Failure(400, MissingReviewFields)
    ensures petId != "" && userId != "" && NumOr(rating, 0.0) != 0.0 && !ValidRating(rating.value) ==>
              r.0 == Failure(400, BadRating)
    ensures petId != "" && userId != "" && NumOr(rating, 0.0) != 0.0 && ValidRating(rating.value) && !IsObjectIdText(petId) ==>
              r.0 == Failure(500, "Failed to add review")
    ensures ControllerRequestOk(petId, userId, rating) && (forall i :: 0 <= i < |pets| ==> pets[i].id != petId) ==>
              r.0 == Failure(404, "Pet not found")
    ensures ControllerRequestOk(petId, userId, rating)
            && (exists i :: FirstWithId(pets, petId, i) && ReviewedAs(pets[i].reviews, userId, orderType)) ==>
              r.0 == Failure(400, "You have already reviewed this pet for "
                                  + (if orderType.Some? then orderType.value else "undefined") + DuplicateTail)
    ensures r.0.Success? <==>
              ControllerRequestOk(petId, userId, rating)
              && exists i :: FirstWithId(pets, petId, i) && !ReviewedAs(pets[i].reviews, userId, orderType)
    ensures r.0.Failure? ==> r.1 == pets
    ensures r.0.Success? ==>
      && r.0.status == 201 && |r.1| == |pets|
      && (AllRatingsInRange(pets) ==> AllRatingsInRange(r.1) && 1.0 <= r.0.body.averageRating <= 5.0)
      && exists i :: FirstWithId(pets, petId, i)
                     && r.1 == pets[i := r.0.body]
                     && r.0.body == WithReview(pets[i], Review(userId, rating.value.Floor, comment, None))
                     && r.0.body.reviews == pets[i].reviews + [Review(userId, rating.value.Floor, comment, None)]
  {
    if petId == "" || userId == "" || NumOr(rating, 0.0) == 0.0 then (Failure(400, MissingReviewFields), pets)
    else if !ValidRating(rating.value) then (Failure(400, BadRating), pets)
    else if !IsObjectIdText(petId) then (Failure(500, "Failed to add review"), pets)
    else ReviewFirstWithId(pets, petId, (rs: seq<Review>) => ReviewedAs(rs, userId, orderType),
                           Review(userId, rating.value.Floor, comment, None),
                           "You have already reviewed this pet for "
                           + (if orderType.Some? then orderType.value else "undefined") + DuplicateTail)
  }

  /** Every stored review is without a type, as the pet schema stores them. */
  predicate StoredUntyped(pets: seq<Pet>) {
    forall k, j :: 0 <= k < |pets| && 0 <= j < |pets[k].reviews| ==> pets[k].reviews[j].orderType.None?
  }

  /** The controller as written stores every review without its type. */
  lemma SubmitKeepsUntyped(pets: seq<Pet>, petId: string, userId: string, rating: Option<real>, comment: string,
                           orderType: Option<string>)
    requires StoredUntyped(pets)
    ensures StoredUntyped(SubmitReview(pets, petId, userId, rating, comment, orderType).1)
  {
    var r := SubmitReview(pets, petId, userId, rating, comment, orderType);
    if r.0.Success? {
      var i :| FirstWithId(pets, petId, i) && r.1 == pets[i := r.0.body]
               && r.0.body.reviews == pets[i].reviews + [Review(userId, rating.value.Floor, comment, None)];
      forall k, j | 0 <= k < |r.1| && 0 <= j < |r.1[k].reviews|
        ensures r.1[k].reviews[j].orderType.None?
      {
        if k == i && j < |pets[i].reviews| {
          assert r.1[k].reviews[j] == pets[i].reviews[j];
        }
      }
    }
  }

  /** As written, a review sent with a type is never a duplicate: on a store
      the controller built, every valid typed request for a listed pet is
      accepted, however often the user has reviewed it. */
  lemma TypedReviewNeverDuplicate(pets: seq<Pet>, petId: string, userId: string, rating: Option<real>, comment: string,
                                  t: string)
    requires StoredUntyped(pets) && ControllerRequestOk(petId, userId, rating)
    requires exists i :: 0 <= i < |pets| && pets[i].id == petId
    ensures SubmitReview(pets, petId, userId, rating, comment, Some(t)).0.Success?
  {
    var i := FindIndex(pets, HasId(petId)).value;
    assert FirstWithId(pets, petId, i);
  }

  /** As written, the same typed review submitted twice is accepted twice. */
  lemma RepeatTypedReviewAccepted()
    ensures var pets := [Pet("aaaaaaaaaaaaaaaaaaaaaaaa", [], 0.0)];
            var first := SubmitReview(pets, "aaaaaaaaaaaaaaaaaaaaaaaa", "u1", Some(4.0), "", Some("rent"));
            first.0.Success? &&
            var second := SubmitReview(first.1, "aaaaaaaaaaaaaaaaaaaaaaaa", "u1", Some(4.0), "", Some("rent"));
            second.0.Success? && |second.1[0].reviews| == 2
            && second.1[0].reviews[0].userId == second.1[0].reviews[1].userId == "u1"
  {
    var id := "aaaaaaaaaaaaaaaaaaaaaaaa";
    var pets := [Pet(id, [], 0.0)];
    assert IsObjectIdText(id);
    assert FirstWithId(pets, id, 0);
    var first := SubmitReview(pets, id, "u1", Some(4.0), "", Some("rent"));
    assert first.1[0].reviews == [Review("u1", 4, "", None)];
    assert FirstWithId(first.1, id, 0);
    assert !ReviewedAs(first.1[0].reviews, "u1", Some("rent"));
  }

  /** As written, it is the untyped repeat that is caught: the stored review
      has no type, and neither has the second request. */
  lemma UntypedRepeatCaught()
    ensures var pets := [Pet("aaaaaaaaaaaaaaaaaaaaaaaa", [], 0.0)];
            var first := SubmitReview(pets, "aaaaaaaaaaaaaaaaaaaaaaaa", "u1", Some(4.0), "", None);
            first.0.Success? &&
            SubmitReview(first.1, "aaaaaaaaaaaaaaaaaaaaaaaa", "u1", Some(4.0), "", None).0.Failure?
  {
    var id := "aaaaaaaaaaaaaaaaaaaaaaaa";
    var pets := [Pet(id, [], 0.0)];
    assert IsObjectIdText(id);
    assert FirstWithId(pets, id, 0);
    var first := SubmitReview(pets, id, "u1", Some(4.0), "", None);
    assert first.1[0].reviews == [Review("u1", 4, "", None)];
    assert ReviewedAs(first.1[0].reviews, "u1", None);
  }

  // ---------------------------------------------------------------------------
  // The controller as intended

  /** The controller with a review schema that keeps `orderType` and the
      duplicate test made against the type the review is filed under, so
      that each user reviews a pet once per type. */
  function SubmitReviewOncePerType(pets: seq<Pet>, petId: string, userId: string, rating: Option<real>, comment: string,
                                   orderType: Option<string>): (r: (Response<Pet>, seq<Pet>))
    ensures petId == "" || userId == "" || NumOr(rating, 0.0) == 0.0 ==> r.0 == Failure(400, MissingReviewFields)
    ensures petId != "" && userId != "" && NumOr(rating, 0.0) != 0.0 && !ValidRating(rating.value) ==>
              r.0 == Failure(400, BadRating)
    ensures petId != "" && userId != "" && NumOr(rating, 0.0) != 0.0 && ValidRating(rating.value) && !IsObjectIdText(petId) ==>
              r.0 == Failure(500, "Failed to add review")
    ensures ControllerRequestOk(petId, userId, rating) && (forall i :: 0 <= i < |pets| ==> pets[i].id != petId) ==>
              r.0 == Failure(404, "Pet not found")
    ensures ControllerRequestOk(petId, userId, rating)
            && (exists i :: FirstWithId(pets, petId, i) && ReviewedAs(pets[i].reviews, userId, Some(FiledType(orderType)))) ==>
              r.0 == Failure(400, "You have already reviewed this pet for " + FiledType(orderType) + DuplicateTail)
    ensures r.0.Success? <==>
              ControllerRequestOk(petId, userId, rating)
              && exists i :: FirstWithId(pets, petId, i) && !ReviewedAs(pets[i].reviews, userId, Some(FiledType(orderType)))
    ensures r.0.Failure? ==> r.1 == pets
    ensures r.0.Success? ==>
      && r.0.status == 201 && |r.1| == |pets|
      && (AllRatingsInRange(pets) ==> AllRatingsInRange(r.1) && 1.0 <= r.0.body.averageRating <= 5.0)
      && exists i :: FirstWithId(pets, petId, i)
                     && !ReviewedAs(pets[i].reviews, userId, Some(FiledType(orderType)))
                     && r.1 == pets[i := r.0.body]
                     && r.0.body == WithReview(pets[i], Review(userId, rating.value.Floor, comment, Some(FiledType(orderType))))
                     && r.0.body.reviews == pets[i].reviews + [Review(userId, rating.value.Floor, comment, Some(FiledType(orderType)))]
  {
    if petId == "" || userId == "" || NumOr(rating, 0.0) == 0.0 then (Failure(400, MissingReviewFields), pets)
    else if !ValidRating(rating.value) then (Failure(400, BadRating), pets)
    else if !IsObjectIdText(petId) then (Failure(500, "Failed to add review"), pets)
    else ReviewFirstWithId(pets, petId, (rs: seq<Review>) => ReviewedAs(rs, userId, Some(FiledType(orderType))),
                           Review(userId, rating.value.Floor, comment, Some(FiledType(orderType))),
                           "You have already reviewed this pet for " + FiledType(orderType) + DuplicateTail)
  }

  /** Both controllers store the new average as the mean of all the pet's
      ratings, the new one included, as the reduce-and-divide computes it. */
  lemma ControllerAverageIsMean(pets: seq<Pet>, petId: string, userId: string, rating: Option<real>, comment: string,
                                orderType: Option<string>)
    ensures var r := SubmitReview(pets, petId, userId, rating, comment, orderType);
            r.0.Success? ==> |r.0.body.reviews| > 0 && r.0.body.averageRating == Mean(r.0.body.reviews)
    ensures var r := SubmitReviewOncePerType(pets, petId, userId, rating, comment, orderType);
            r.0.Success? ==> |r.0.body.reviews| > 0 && r.0.body.averageRating == Mean(r.0.body.reviews)
  {
  }

  /** No two reviews of a pet share both the user and the type. */
  predicate OnePerUserAndType(rs: seq<Review>) {
    forall i, j :: 0 <= i < j < |rs| ==> rs[i].userId != rs[j].userId || rs[i].orderType != rs[j].orderType
  }

  /** The corrected controller keeps at most one review per user and type. */
  lemma OncePerTypeKept(pets: seq<Pet>, petId: string, userId: string, rating: Option<real>, comment: string,
                        orderType: Option<string>)
    requires forall k :: 0 <= k < |pets| ==> OnePerUserAndType(pets[k].reviews)
    ensures var after := SubmitReviewOncePerType(pets, petId, userId, rating, comment, orderType).1;
            forall k :: 0 <= k < |after| ==> OnePerUserAndType(after[k].reviews)
  {
    var r := SubmitReviewOncePerType(pets, petId, userId, rating, comment, orderType);
    if r.0.Success? {
      var t := FiledType(orderType);
      var i :| FirstWithId(pets, petId, i) && !ReviewedAs(pets[i].reviews, userId, Some(t))
               && r.1 == pets[i := r.0.body]
               && r.0.body.reviews == pets[i].reviews + [Review(userId, rating.value.Floor, comment, Some(t))];
      var rs := r.0.body.reviews;
      forall a, b | 0 <= a < b < |rs|
        ensures rs[a].userId != rs[b].userId || rs[a].orderType != rs[b].orderType
      {
        if b == |rs| - 1 {
          assert rs[a] == pets[i].reviews[a];
        } else {
          assert rs[a] == pets[i].reviews[a] && rs[b] == pets[i].reviews[b];
        }
      }
    }
  }

  /** With the correction, the repeated typed review is rejected. */
  lemma RepeatTypedReviewRejected()
    ensures var pets := [Pet("aaaaaaaaaaaaaaaaaaaaaaaa", [], 0.0)];
            var first := SubmitReviewOncePerType(pets, "aaaaaaaaaaaaaaaaaaaaaaaa", "u1", Some(4.0), "", Some("rent"));
            first.0.Success? &&
            var second := SubmitReviewOncePerType(first.1, "aaaaaaaaaaaaaaaaaaaaaaaa", "u1", Some(4.0), "", Some("rent"));
            second.0.Failure? && second.0.status == 400 && second.1 == first.1
  {
    var id := "aaaaaaaaaaaaaaaaaaaaaaaa";
    var pets := [Pet(id, [], 0.0)];
    assert IsObjectIdText(id);
    assert FirstWithId(pets, id, 0);
    var first := SubmitReviewOncePerType(pets, id, "u1", Some(4.0), "", Some("rent"));
    assert first.1[0].reviews == [Review("u1", 4, "", Some("rent"))];
    assert FirstWithId(first.1, id, 0);
    assert ReviewedAs(first.1[0].reviews, "u1", Some("rent"));
  }

  /** With the correction, the repeated untyped review, filed under
      "purchase" both times, is rejected as well. */
  lemma RepeatUntypedReviewRejected()
    ensures var pets := [Pet("aaaaaaaaaaaaaaaaaaaaaaaa", [], 0.0)];
            var first := SubmitReviewOncePerType(pets, "aaaaaaaaaaaaaaaaaaaaaaaa", "u1", Some(4.0), "", None);
            first.0.Success? &&
            var second := SubmitReviewOncePerType(first.1, "aaaaaaaaaaaaaaaaaaaaaaaa", "u1", Some(4.0), "", None);
            second.0.Failure? && second.0.status == 400 && second.1 == first.1
  {
    var id := "aaaaaaaaaaaaaaaaaaaaaaaa";
    var pets := [Pet(id, [], 0.0)];
    assert IsObjectIdText(id);
    assert FirstWithId(pets, id, 0);
    var first := SubmitReviewOncePerType(pets, id, "u1", Some(4.0), "", None);
    assert first.1[0].reviews == [Review("u1", 4, "", Some("purchase"))];
    assert FirstWithId(first.1, id, 0);
    assert ReviewedAs(first.1[0].reviews, "u1", Some("purchase"));
  }
}
