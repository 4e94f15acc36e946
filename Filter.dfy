/**
 * The client-side filter engine: brand, price range and location criteria
 * over the fetched listings, each active only when its input is non-empty,
 * all combined with AND.
 */
module FilterEngine {
  import opened Common
  import opened Text
  import opened Listings
  import opened Price

  /** The filter inputs as the page holds them: text, `''` meaning "not set". */
  datatype Criteria = Criteria(brand: string, minPrice: string, maxPrice: string, location: string)

  const NoCriteria: Criteria := Criteria("", "", "", "")

  /** One `.filter` pass of the filter handler. */
  datatype Test = Brand(brand: string) | MinPrice(bound: string) | MaxPrice(bound: string) | Location(place: string)

  /** The predicate of one pass. A price comparison with `NaN` on either side is false. */
  predicate Passes(car: Listing, t: Test)
    ensures t.Brand? ==> (Passes(car, t) <==> exists i :: OccursAt(car.title, t.brand, i))
    ensures (t.MinPrice? || t.MaxPrice?) && PriceKey(car.price).None? ==> !Passes(car, t)
    ensures t.Location? && Passes(car, t) ==> car.location != ""
  {
    match t
    case Brand(brand) => Includes(car.title, brand)
    case MinPrice(bound) =>
      PriceKey(car.price).Some? && ParseFloat(bound).Some? && PriceKey(car.price).value >= ParseFloat(bound).value
    case MaxPrice(bound) =>
      PriceKey(car.price).Some? && ParseFloat(bound).Some? && PriceKey(car.price).value <= ParseFloat(bound).value
    case Location(place) => car.location != "" && Includes(Lower(car.location), Lower(place))
  }

  /** `cars.filter(...)` with the predicate of one pass: the passing listings in their original order. */
  function Select(cars: seq<Listing>, t: Test): (r: seq<Listing>)
    ensures |r| <= |cars|
    ensures IsSubsequence(r, cars)
  {
    if cars == [] then []
    else
      var rest := Select(cars[1..], t);
      var r := Kept(cars[0], t) + rest;
      if Passes(cars[0], t) then
        assert r[0] == cars[0] && r[1..] == rest;
        r
      else
        assert r == rest;
        r
  }

  /** What one pass keeps of a single listing. */
  function Kept(car: Listing, t: Test): (r: seq<Listing>)
    ensures |r| <= 1
  {
    if Passes(car, t) then [car] else []
  }

  /** A listing meets every criterion that is set. */
  predicate Matches(car: Listing, c: Criteria)
  {
    && (c.brand == "" || Passes(car, Brand(c.brand)))
    && (c.minPrice == "" || Passes(car, MinPrice(c.minPrice)))
    && (c.maxPrice == "" || Passes(car, MaxPrice(c.maxPrice)))
    && (c.location == "" || Passes(car, Location(c.location)))
  }

  /**
   * Reference definition of the filter: one pass keeping the listings that
   * match, in order.
   */
  function ApplyFilter(cars: seq<Listing>, c: Criteria): (r: seq<Listing>)
    ensures |r| <= |cars|
    ensures forall x :: x in r <==> x in cars && Matches(x, c)
  {
    if cars == [] then []
    else
      var head := if Matches(cars[0], c) then [cars[0]] else [];
      head + ApplyFilter(cars[1..], c)
  }

  /** The filter keeps every copy of a matching listing and no copy of any other: the multiplicities in the result are those of the input, restricted to the matches. */
  lemma {:induction false} FilterKeepsEveryCopy(cars: seq<Listing>, c: Criteria)
    ensures forall x :: multiset(ApplyFilter(cars, c))[x] == if Matches(x, c) then multiset(cars)[x] else 0
  {
    if cars != [] {
      FilterKeepsEveryCopy(cars[1..], c);
      assert cars == [cars[0]] + cars[1..];
      assert multiset(cars) == multiset([cars[0]]) + multiset(cars[1..]);
    }
  }

  /** The criteria `c` with the criterion that pass `t` tests set to `t`'s value. */
  function With(c: Criteria, t: Test): Criteria
  {
    match t
    case Brand(b) => c.(brand := b)
    case MinPrice(b) => c.(minPrice := b)
    case MaxPrice(b) => c.(maxPrice := b)
    case Location(p) => c.(location := p)
  }

  /** The input `t` reads is non-empty and the criterion it sets is not yet set in `c`. */
  predicate Adds(c: Criteria, t: Test)
  {
    match t
    case Brand(b) => b != "" && c.brand == ""
    case MinPrice(b) => b != "" && c.minPrice == ""
    case MaxPrice(b) => b != "" && c.maxPrice == ""
    case Location(p) => p != "" && c.location == ""
  }

  /** A pass for a criterion not yet set narrows the filter to the criteria with it set. */
  lemma Narrow(cars: seq<Listing>, c: Criteria, t: Test)
    requires Adds(c, t)
    ensures Select(ApplyFilter(cars, c), t) == ApplyFilter(cars, With(c, t))
  {
    SelectAfterFilter(cars, c, t, With(c, t));
  }

  /** A further pass over the filter's output is the filter with that pass's test added to the conjunction. */
  lemma {:induction false} SelectAfterFilter(cars: seq<Listing>, c: Criteria, t: Test, c': Criteria)
    requires forall x :: Matches(x, c') <==> Matches(x, c) && Passes(x, t)
    ensures Select(ApplyFilter(cars, c), t) == ApplyFilter(cars, c')
  {
    if cars != [] {
      SelectAfterFilter(cars[1..], c, t, c');
      var head := if Matches(cars[0], c) then [cars[0]] else [];
      SelectConcat(head, ApplyFilter(cars[1..], c), t);
      if Matches(cars[0], c) {
        assert head[1..] == [];
      }
    }
  }

  lemma {:induction false} SelectConcat(a: seq<Listing>, b: seq<Listing>, t: Test)
    ensures Select(a + b, t) == Select(a, t) + Select(b, t)
  {
    if a != [] {
      var ab := a + b;
      assert ab[0] == a[0] && ab[1..] == a[1..] + b;
      SelectConcat(a[1..], b, t);
      assert Select(ab, t) == Kept(a[0], t) + (Select(a[1..], t) + Select(b, t));
    } else {
      assert a + b == b;
    }
  }

  /** No criteria: the filter is the identity. */
  lemma {:induction false} NoCriteriaIsIdentity(cars: seq<Listing>)
    ensures ApplyFilter(cars, NoCriteria) == cars
  {
    if cars != [] {
      NoCriteriaIsIdentity(cars[1..]);
    }
  }

  /** The filter keeps an order-preserving subsequence of its input. */
  lemma {:induction false} FilterIsSubsequence(cars: seq<Listing>, c: Criteria)
    ensures IsSubsequence(ApplyFilter(cars, c), cars)
  {
    if cars != [] {
      FilterIsSubsequence(cars[1..], c);
      var r := ApplyFilter(cars, c);
      if Matches(cars[0], c) {
        assert r == [cars[0]] + ApplyFilter(cars[1..], c);
        assert r[0] == cars[0] && r[1..] == ApplyFilter(cars[1..], c);
      } else {
        assert r == ApplyFilter(cars[1..], c);
        SubsequenceSkip(r, cars);
      }
    }
  }

  lemma SubsequenceSkip(a: seq<Listing>, b: seq<Listing>)
    requires b != [] && IsSubsequence(a, b[1..])
    ensures IsSubsequence(a, b)
  {
  }

  /** Filtering the filtered list again with the same criteria changes nothing. */
  lemma {:induction false} FilterIdempotent(cars: seq<Listing>, c: Criteria)
    ensures ApplyFilter(ApplyFilter(cars, c), c) == ApplyFilter(cars, c)
  {
    if cars != [] {
      FilterIdempotent(cars[1..], c);
      var r := ApplyFilter(cars, c);
      if Matches(cars[0], c) {
        assert r == [cars[0]] + ApplyFilter(cars[1..], c);
        assert r[0] == cars[0] && r[1..] == ApplyFilter(cars[1..], c);
        assert ApplyFilter(r, c) == [r[0]] + ApplyFilter(r[1..], c);
      } else {
        assert r == ApplyFilter(cars[1..], c);
      }
    }
  }

  /** With a brand selected, a listing is kept iff its title contains the brand, case-sensitively. */
  lemma BrandCriterion(car: Listing, c: Criteria)
    requires c.brand != ""
    ensures Matches(car, c) ==> exists i :: OccursAt(car.title, c.brand, i)
    ensures Matches(car, c.(brand := "")) && Includes(car.title, c.brand) ==> Matches(car, c)
  {
  }

  /** With a price bound set, a listing whose price has no numeric key is dropped. */
  lemma UnpricedDropped(car: Listing, c: Criteria)
    requires c.minPrice != "" || c.maxPrice != ""
    requires PriceKey(car.price).None?
    ensures !Matches(car, c)
  {
  }

  /** Every kept listing's price key lies within the bounds that are set. */
  lemma KeptWithinBounds(cars: seq<Listing>, c: Criteria, x: Listing)
    requires x in ApplyFilter(cars, c)
    ensures c.minPrice != "" ==> PriceKey(x.price).Some? && ParseFloat(c.minPrice).Some?
                                 && PriceKey(x.price).value >= ParseFloat(c.minPrice).value
    ensures c.maxPrice != "" ==> PriceKey(x.price).Some? && ParseFloat(c.maxPrice).Some?
                                 && PriceKey(x.price).value <= ParseFloat(c.maxPrice).value
  {
  }

  /** With a location set, a listing is kept iff its location is non-empty and contains the criterion, ignoring ASCII case. */
  lemma LocationCriterion(car: Listing, c: Criteria)
    requires c.location != ""
    ensures Matches(car, c) ==> car.location != "" && exists i :: OccursAt(Lower(car.location), Lower(c.location), i)
    ensures Matches(car, c.(location := "")) && car.location != "" && Includes(Lower(car.location), Lower(c.location)) ==> Matches(car, c)
  {
  }

  /** The location test ignores ASCII case in the criterion: criteria equal up to case keep the same listings. */
  lemma LocationIgnoresCase(car: Listing, place: string, place': string)
    requires |place| == |place'| && forall i :: 0 <= i < |place| ==> SameIgnoringCase(place[i], place'[i])
    ensures Passes(car, Location(place)) == Passes(car, Location(place'))
  {
    LowerEqualIffSameIgnoringCase(place, place');
  }

  /** Brand `Toyota` keeps the Corolla and drops the Civic. */
  lemma ToyotaExample(corolla: Listing, civic: Listing)
    requires corolla.title == "Toyota Corolla" && corolla.price == "ETB 500000"
    requires civic.title == "Honda Civic" && civic.price == "ETB 300000"
    ensures ApplyFilter([corolla, civic], NoCriteria.(brand := "Toyota")) == [corolla]
  {
    var c := NoCriteria.(brand := "Toyota");
    assert Includes(corolla.title, "Toyota") by {
      assert "Toyota Corolla"[..6] == "Toyota";
    }
    CivicIsNotToyota();
    KeepFirstOfTwo(corolla, civic, c);
  }

  lemma KeepFirstOfTwo(x: Listing, y: Listing, c: Criteria)
    requires Matches(x, c) && !Matches(y, c)
    ensures ApplyFilter([x, y], c) == [x]
  {
    assert [x, y][1..] == [y] && [y][1..] == [];
  }

  lemma CivicIsNotToyota()
    ensures !Includes("Honda Civic", "Toyota")
  {
    forall i ensures !OccursAt("Honda Civic", "Toyota", i) {
      if 0 <= i && i + 6 <= 11 {
        assert "Honda Civic"[i..i + 6][0] == "Honda Civic"[i];
      }
    }
  }

}
