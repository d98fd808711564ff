/** The listing page (src/pages/Homestays.tsx): the search and filter
    pipeline over the loaded homestays and the wishlist toggle. */
module HomestaysPage {
  import opened Types
  import opened Seqs
  import opened Text

  const AllLocations: string := "All Locations"

  /** The initial filter state: no search, every location, price up to
      10000, no minimum rating. */
  const DefaultMaxPrice: int := 10000
  const DefaultMinRating: real := 0.0

  /** The text test: lowercased name or lowercased location contains the
      lowercased search text. */
  predicate TextMatches(h: Homestay, search: string) {
    Contains(Lower(h.name), Lower(search)) || Contains(Lower(h.location), Lower(search))
  }

  /** The four predicates, each switched off where the page switches it off. */
  predicate Matches(h: Homestay, search: string, location: string, maxPrice: int, minRating: real) {
    && (search == "" || TextMatches(h, search))
    && (location == AllLocations || h.location == location)
    && h.price <= maxPrice
    && h.rating >= minRating
  }

  /** The filter effect: the same chain of `filter` calls, in the same order. */
  function Search(homestays: seq<Homestay>, search: string, location: string, maxPrice: int, minRating: real): seq<Homestay> {
    var r1 := if search != "" then Filter(homestays, (h: Homestay) => TextMatches(h, search)) else homestays;
    var r2 := if location != AllLocations then Filter(r1, (h: Homestay) => h.location == location) else r1;
    var r3 := Filter(r2, (h: Homestay) => h.price <= maxPrice);
    Filter(r3, (h: Homestay) => h.rating >= minRating)
  }

  /** The predicate p, switched off (always true) unless `on`. */
  function When(on: bool, p: Homestay -> bool): Homestay -> bool {
    h => !on || p(h)
  }

  /** A filter that is applied only when `on` holds is a filter by When(on, p). */
  lemma OptionalFilter(hs: seq<Homestay>, on: bool, p: Homestay -> bool)
    ensures (if on then Filter(hs, p) else hs) == Filter(hs, When(on, p))
  {
    if on {
      FilterExt(hs, p, When(on, p));
    } else {
      FilterKeepsAll(hs, When(on, p));
    }
  }

  /** The conjunction of the four switched predicates is Matches. */
  lemma ConjunctionIsMatches(search: string, location: string, maxPrice: int, minRating: real)
    ensures forall h: Homestay ::
      And(And(And(When(search != "", (h: Homestay) => TextMatches(h, search)),
                  When(location != AllLocations, (h: Homestay) => h.location == location)),
              (h: Homestay) => h.price <= maxPrice),
          (h: Homestay) => h.rating >= minRating)(h)
      == Matches(h, search, location, maxPrice, minRating)
  {
  }

  /** The chain is a single filter by the conjunction of the active predicates. */
  lemma SearchIsOneFilter(homestays: seq<Homestay>, search: string, location: string, maxPrice: int, minRating: real)
    ensures Search(homestays, search, location, maxPrice, minRating)
         == Filter(homestays, h => Matches(h, search, location, maxPrice, minRating))
  {
    var pText := (h: Homestay) => TextMatches(h, search);
    var pLoc := (h: Homestay) => h.location == location;
    var pPrice := (h: Homestay) => h.price <= maxPrice;
    var pRating := (h: Homestay) => h.rating >= minRating;
    var q1 := When(search != "", pText);
    var q2 := When(location != AllLocations, pLoc);
    var r1 := if search != "" then Filter(homestays, pText) else homestays;
    var r2 := if location != AllLocations then Filter(r1, pLoc) else r1;
    assert Search(homestays, search, location, maxPrice, minRating) == Filter(Filter(r2, pPrice), pRating);
    OptionalFilter(homestays, search != "", pText);
    OptionalFilter(r1, location != AllLocations, pLoc);
    FilterFilter(homestays, q1, q2);
    assert r2 == Filter(homestays, And(q1, q2));
    FilterFilter(homestays, And(q1, q2), pPrice);
    FilterFilter(homestays, And(And(q1, q2), pPrice), pRating);
    ConjunctionIsMatches(search, location, maxPrice, minRating);
    FilterExt(homestays, And(And(And(q1, q2), pPrice), pRating), h => Matches(h, search, location, maxPrice, minRating));
  }

  /** What the page shows: an in-order subsequence of the loaded homestays
      holding exactly those that satisfy every active predicate, so each
      shown homestay is within the price bound, at or above the minimum
      rating, at the selected location unless 'All Locations' is chosen,
      and matching the search text unless the search is empty; and no
      homestay meeting all of them is missing. */
  lemma SearchSpec(homestays: seq<Homestay>, search: string, location: string, maxPrice: int, minRating: real)
    ensures Subseq(Search(homestays, search, location, maxPrice, minRating), homestays)
    ensures forall h :: h in Search(homestays, search, location, maxPrice, minRating) <==>
      && h in homestays
      && h.price <= maxPrice
      && h.rating >= minRating
      && (location != AllLocations ==> h.location == location)
      && (search != "" ==> TextMatches(h, search))
  {
    SearchIsOneFilter(homestays, search, location, maxPrice, minRating);
    var p := (h: Homestay) => Matches(h, search, location, maxPrice, minRating);
    FilterIsFilterOf(homestays, p);
    FilterMembership(Filter(homestays, p), homestays, p);
  }

  /** The initial filters keep exactly the loaded homestays priced at most
      10000 and rated at least 0, in order: a listing above the price bound is
      hidden, and when every listing is within the bounds all of them show. */
  lemma DefaultFiltersShowAll(homestays: seq<Homestay>)
    ensures Search(homestays, "", AllLocations, DefaultMaxPrice, DefaultMinRating)
         == Filter(homestays, (h: Homestay) => h.price <= DefaultMaxPrice && h.rating >= DefaultMinRating)
    ensures (forall h :: h in homestays ==> h.price <= DefaultMaxPrice && h.rating >= DefaultMinRating) ==>
      Search(homestays, "", AllLocations, DefaultMaxPrice, DefaultMinRating) == homestays
  {
    var inBounds := (h: Homestay) => h.price <= DefaultMaxPrice && h.rating >= DefaultMinRating;
    SearchIsOneFilter(homestays, "", AllLocations, DefaultMaxPrice, DefaultMinRating);
    FilterExt(homestays, h => Matches(h, "", AllLocations, DefaultMaxPrice, DefaultMinRating), inBounds);
    if forall h :: h in homestays ==> inBounds(h) {
      FilterKeepsAll(homestays, inBounds);
    }
  }

  /** A listing priced above the slider's maximum is not shown at the initial filters. */
  lemma OverpricedHiddenByDefault(h: Homestay)
    requires h.price > DefaultMaxPrice
    ensures Search([h], "", AllLocations, DefaultMaxPrice, DefaultMinRating) == []
  {
    DefaultFiltersShowAll([h]);
    assert [h][1..] == [];
  }

  /** The search is case-insensitive: two search texts that differ only in
      the case of their letters give the same result. */
  lemma SearchIgnoresCase(homestays: seq<Homestay>, s: string, t: string, location: string,
                          maxPrice: int, minRating: real)
    requires Lower(s) == Lower(t)
    ensures Search(homestays, s, location, maxPrice, minRating) == Search(homestays, t, location, maxPrice, minRating)
  {
    assert |s| == |t|;
    SearchIsOneFilter(homestays, s, location, maxPrice, minRating);
    SearchIsOneFilter(homestays, t, location, maxPrice, minRating);
    FilterExt(homestays, h => Matches(h, s, location, maxPrice, minRating),
                         h => Matches(h, t, location, maxPrice, minRating));
  }

  /** A homestay within the price and rating bounds is found by its name
      typed in any letter case, whatever other homestays are loaded. */
  lemma SearchFindsNameInAnyCase(homestays: seq<Homestay>, h: Homestay, search: string,
                                 maxPrice: int, minRating: real)
    requires h in homestays && h.price <= maxPrice && h.rating >= minRating
    requires Lower(search) == Lower(h.name)
    ensures h in Search(homestays, search, AllLocations, maxPrice, minRating)
  {
    ContainsSelfAndEmpty(Lower(h.name));
    assert TextMatches(h, search);
    SearchSpec(homestays, search, AllLocations, maxPrice, minRating);
  }

  /** toggleWishlist: remove every copy when present, otherwise append. */
  function Toggle(wishlist: seq<string>, id: string): seq<string> {
    if id in wishlist then Filter(wishlist, i => i != id) else wishlist + [id]
  }

  /** The toggled id flips membership; no other id changes membership; a
      wishlist without repetitions stays without repetitions. */
  lemma ToggleSpec(wishlist: seq<string>, id: string)
    ensures id in Toggle(wishlist, id) <==> id !in wishlist
    ensures forall x :: x != id ==> (x in Toggle(wishlist, id) <==> x in wishlist)
    ensures NoDup(wishlist) ==> NoDup(Toggle(wishlist, id))
  {
    var p := (i: string) => i != id;
    if id in wishlist {
      FilterIsFilterOf(wishlist, p);
      FilterMembership(Filter(wishlist, p), wishlist, p);
      if NoDup(wishlist) {
        FilterNoDup(wishlist, p);
      }
    } else if NoDup(wishlist) {
      AppendNoDup(wishlist, id);
    }
  }

  /** Toggling the same id twice restores membership; starting from an
      absent id it restores the wishlist itself. */
  lemma ToggleTwice(wishlist: seq<string>, id: string)
    ensures forall x :: x in Toggle(Toggle(wishlist, id), id) <==> x in wishlist
    ensures id !in wishlist ==> Toggle(Toggle(wishlist, id), id) == wishlist
  {
    ToggleSpec(wishlist, id);
    ToggleSpec(Toggle(wishlist, id), id);
    if id !in wishlist {
      var p := (i: string) => i != id;
      FilterConcat(wishlist, [id], p);
      FilterKeepsAll(wishlist, p);
      assert [id][1..] == [];
    }
  }
}
