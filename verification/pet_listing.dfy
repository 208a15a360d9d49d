/** The pet listing page: the star row for a rating, the category taken from
    the address bar, and the category-and-search filter. */
module PetListing {
  import opened Common

  /** The fields of a listed pet the page filters on. */
  datatype PetCard = PetCard(id: string, name: string, category: string, rating: real)

  const StarCount: nat := 5

  /** `StarRating`: five stars, the `i`-th filled when `i < Math.round(rating)`. */
  function Stars(rating: real): (r: seq<bool>)
    ensures |r| == StarCount
    ensures forall i :: 0 <= i < |r| ==> (r[i] <==> i < JsRound(rating))
  {
    seq(StarCount, i requires 0 <= i < StarCount => i < JsRound(rating))
  }

  function CountFilled(s: seq<bool>): (r: nat)
    ensures r <= |s|
  {
    if |s| == 0 then 0 else (if s[0] then 1 else 0) + CountFilled(s[1..])
  }

  /** In a row filled up to position `k`, the count of filled stars is `k`. */
  lemma {:induction false} CountPrefixFilled(s: seq<bool>, k: nat)
    requires k <= |s| && forall i :: 0 <= i < |s| ==> (s[i] <==> i < k)
    ensures CountFilled(s) == k
    decreases |s|
  {
    if |s| > 0 {
      var t := s[1..];
      if k > 0 {
        CountPrefixFilled(t, k - 1);
      } else {
        CountPrefixFilled(t, 0);
      }
    }
  }

  /** The number of filled stars is the rounded rating clamped to [0, 5]. */
  lemma FilledStars(rating: real)
    ensures CountFilled(Stars(rating)) ==
            if JsRound(rating) < 0 then 0 else if JsRound(rating) > 5 then 5 else JsRound(rating)
  {
    var s := Stars(rating);
    var k := if JsRound(rating) < 0 then 0 else if JsRound(rating) > 5 then 5 else JsRound(rating);
    assert forall i :: 0 <= i < |s| ==> (s[i] <==> i < k);
    CountPrefixFilled(s, k);
  }

  /** `c.charAt(0).toUpperCase() + c.slice(1)`. */
  function Capitalise(s: string): (r: string)
    ensures |r| == |s|
    ensures |s| > 0 ==> r[0] == UpperChar(s[0]) && r[1..] == s[1..]
  {
    if |s| == 0 then "" else [UpperChar(s[0])] + s[1..]
  }

  /** The filter set from the address bar; an empty category leaves it alone. */
  function FilterFromQuery(category: string, current: string): (r: string)
    ensures category == "" ==> r == current
    ensures category != "" ==> Lower(r) == Lower(category)
    ensures category != "" ==> |r| == |category| && r[0] == UpperChar(category[0]) && r[1..] == category[1..]
  {
    if category == "" then current else CapitaliseKeepsLower(category); Capitalise(category)
  }

  /** Capitalising changes no letter's lower-case form, so the filter the
      address bar sets matches the categories it names. */
  lemma CapitaliseKeepsLower(s: string)
    ensures Lower(Capitalise(s)) == Lower(s)
  {
    var r := Capitalise(s);
    assert forall i :: 0 <= i < |s| ==> LowerChar(r[i]) == LowerChar(s[i]);
  }

  /** The condition of `filteredPets`. */
  predicate Shown(p: PetCard, filter: string, term: string) {
    (filter == "All" || Lower(p.category) == Lower(filter)) && Contains(Lower(p.name), Lower(term))
  }

  function Matches(filter: string, term: string): PetCard -> bool {
    (p: PetCard) => Shown(p, filter, term)
  }

  /** `filteredPets`: the pets shown, in their listed order. */
  function FilteredPets(pets: seq<PetCard>, filter: string, term: string): (r: seq<PetCard>)
    ensures forall p :: p in r <==> p in pets && Shown(p, filter, term)
    ensures IsSubsequence(r, pets)
  {
    FilterIsSubsequence(pets, Matches(filter, term));
    Filter(pets, Matches(filter, term))
  }

  /** "All" with an empty search shows every pet, in order. */
  lemma AllShowsEverything(pets: seq<PetCard>)
    ensures FilteredPets(pets, "All", "") == pets
  {
    forall i | 0 <= i < |pets|
      ensures Matches("All", "")(pets[i])
    {
      assert "" <= Lower(pets[i].name);
    }
    FilterAll(pets, Matches("All", ""));
  }

  /** `?category=all` sets the filter "All", which with an empty search shows
      every pet. */
  lemma AllQueryShowsEverything(pets: seq<PetCard>, current: string)
    ensures FilterFromQuery("all", current) == "All"
    ensures FilteredPets(pets, FilterFromQuery("all", current), "") == pets
  {
    var r := FilterFromQuery("all", current);
    assert r[0] == 'A' && r[1..] == "ll";
    assert r == [r[0]] + r[1..];
    AllShowsEverything(pets);
  }

  /** A category filter ignores case on both sides. */
  lemma FilterIgnoresCase(pets: seq<PetCard>, filter: string, term: string)
    requires filter != "All" && Capitalise(filter) != "All"
    ensures FilteredPets(pets, Capitalise(filter), term) == FilteredPets(pets, filter, term)
  {
    CapitaliseKeepsLower(filter);
    FilterCongruent(pets, Matches(Capitalise(filter), term), Matches(filter, term));
  }
}
