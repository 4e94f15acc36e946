/**
 * The search page's state and its two handlers: `fetchCars`, which serves
 * a query from the page's cache or from the scraping API and stores what it
 * fetched, and `handleFilter`, which recomputes the shown listings from the
 * fetched ones. Rendering is not modelled.
 */
module SearchPage {
  import opened Common
  import opened Text
  import opened Listings
  import opened Api
  import opened FilterEngine

  /** The location every fetched listing is given, and the location criterion's initial value. */
  const DefaultLocation: string := "Addis Ababa"

  /** `response.map(car => ({...car, location: 'Addis Ababa'}))`. */
  function Relocate(cars: seq<Listing>): (r: seq<Listing>)
    ensures |r| == |cars| && AllLocated(r, DefaultLocation)
    ensures forall i :: 0 <= i < |cars| ==>
      r[i].title == cars[i].title && r[i].price == cars[i].price
      && r[i].link == cars[i].link && r[i].image == cars[i].image
  {
    seq(|cars|, i requires 0 <= i < |cars| => cars[i].(location := DefaultLocation))
  }

  /** What reading `searchCache[query]` finds: a stored list, a member inherited from `Object.prototype`, or `undefined`. */
  datatype Lookup = Stored(cars: seq<Listing>) | Inherited(member: string) | Undefined

  /** The names `Object.prototype` gives every plain object. */
  const PrototypeMembers: set<string> := {
    "constructor", "hasOwnProperty", "isPrototypeOf", "propertyIsEnumerable",
    "toLocaleString", "toString", "valueOf", "__proto__",
    "__defineGetter__", "__defineSetter__", "__lookupGetter__", "__lookupSetter__"
  }

  /** `searchCache[query]` as the page reads it: own keys first, then the prototype chain. */
  function LookupAsWritten(cache: map<string, seq<Listing>>, query: string): (r: Lookup)
    ensures r.Stored? <==> query in cache
    ensures r.Stored? ==> r.cars == cache[query]
    ensures r == Undefined <==> query !in cache && query !in PrototypeMembers
  {
    if query in cache then Stored(cache[query])
    else if query in PrototypeMembers then Inherited(query)
    else Undefined
  }

  /** The cache test `if (searchCache[query])` as written reports a hit for a query that was never stored. */
  lemma InheritedMemberIsAHit()
    ensures LookupAsWritten(map[], "toString") != Undefined
    ensures !LookupAsWritten(map[], "toString").Stored?
  {
  }

  /** The lookup the cache is meant to make: own keys only. */
  function LookupOwn(cache: map<string, seq<Listing>>, query: string): (r: Lookup)
    ensures r != Undefined <==> query in cache
    ensures r != Undefined ==> r == Stored(cache[query])
  {
    if query in cache then Stored(cache[query]) else Undefined
  }

  /** The two lookups differ exactly on the prototype's names that were never stored. */
  lemma LookupsAgreeOffPrototype(cache: map<string, seq<Listing>>, query: string)
    ensures LookupAsWritten(cache, query) == LookupOwn(cache, query) <==> query in cache || query !in PrototypeMembers
  {
  }

  /** Fetched listings all pass the initial location criterion: the default filter drops none of them. */
  lemma {:induction false} DefaultLocationKeepsFetched(found: seq<Listing>)
    ensures ApplyFilter(Relocate(found), NoCriteria.(location := DefaultLocation)) == Relocate(found)
  {
    var c := NoCriteria.(location := DefaultLocation);
    assert OccursAt(Lower(DefaultLocation), Lower(DefaultLocation), 0);
    assert forall x: Listing :: x.location == DefaultLocation ==> Matches(x, c);
    KeepAllLocated(Relocate(found), c);
  }

  lemma {:induction false} KeepAllLocated(cars: seq<Listing>, c: Criteria)
    requires forall i :: 0 <= i < |cars| ==> Matches(cars[i], c)
    ensures ApplyFilter(cars, c) == cars
  {
    if cars != [] {
      KeepAllLocated(cars[1..], c);
    }
  }

  /**
   * The body of `handleFilter`: start from the fetched listings and run one
   * `.filter` pass for each criterion that is set, brand, then minimum price,
   * then maximum price, then location. The passes together are the
   * single-pass filter by all the criteria.
   */
  method NarrowInTurn(cars: seq<Listing>, criteria: Criteria) returns (filtered: seq<Listing>)
    ensures filtered == ApplyFilter(cars, criteria)
  {
    var c := NoCriteria;
    NoCriteriaIsIdentity(cars);
    filtered := cars;
    if criteria.brand != "" {
      Narrow(cars, c, Brand(criteria.brand));
      c := With(c, Brand(criteria.brand));
      filtered := Select(filtered, Brand(criteria.brand));
    }
    if criteria.minPrice != "" {
      Narrow(cars, c, MinPrice(criteria.minPrice));
      c := With(c, MinPrice(criteria.minPrice));
      filtered := Select(filtered, MinPrice(criteria.minPrice));
    }
    if criteria.maxPrice != "" {
      Narrow(cars, c, MaxPrice(criteria.maxPrice));
      c := With(c, MaxPrice(criteria.maxPrice));
      filtered := Select(filtered, MaxPrice(criteria.maxPrice));
    }
    if criteria.location != "" {
      Narrow(cars, c, Location(criteria.location));
      c := With(c, Location(criteria.location));
      filtered := Select(filtered, Location(criteria.location));
    }
    assert c == criteria;
  }

  /**
   * The `try` block of `fetchCars`: ask mekina when the platform is `mekina`
   * or `both`, then jiji when it is `jiji` or `both`, appending each answer;
   * the first failed request ends the block. `requests` lists the requests sent.
   */
  method FetchPlatforms(query: string, platform: string, fetch: UpstreamRequest -> Result<seq<Listing>>)
    returns (result: Result<seq<Listing>>, requests: seq<UpstreamRequest>)
    ensures result == Collect(Requested(Some(platform)), UpstreamOutcomes(fetch, query))
    ensures requests == RequestsFor(Called(Requested(Some(platform)), UpstreamOutcomes(fetch, query)), query)
  {
    ghost var o := UpstreamOutcomes(fetch, query);
    var response: seq<Listing> := [];
    requests := [];
    if platform == "mekina" || platform == "both" {
      var request := UpstreamRequest("mekina", query);
      requests := requests + [request];
      var mekinaResponse := fetch(request);
      if mekinaResponse.Err? {
        MekinaThrew(Some(platform), o, query);
        return mekinaResponse, requests;
      }
      response := response + mekinaResponse.value;
      assert response == mekinaResponse.value;
    }
    if platform == "jiji" || platform == "both" {
      var request := UpstreamRequest("jiji", query);
      requests := requests + [request];
      var jijiResponse := fetch(request);
      if jijiResponse.Err? {
        JijiThrew(Some(platform), o, query);
        return jijiResponse, requests;
      }
      response := response + jijiResponse.value;
      assert platform == "jiji" ==> response == jijiResponse.value;
    }
    AllResolved(Some(platform), o, query);
    result := Ok(response);
  }

  /** Every list in the cache carries the default location. */
  predicate CacheLocated(cache: map<string, seq<Listing>>)
  {
    forall q :: q in cache ==> AllLocated(cache[q], DefaultLocation)
  }

  /** The page's component state. */
  class App {
    var query: string
    var cars: seq<Listing>
    var filteredCars: seq<Listing>
    var error: string
    var selectedBrand: string
    var minPrice: string
    var maxPrice: string
    var location: string
    var loading: bool
    var platform: string
    var isSearchPerformed: bool
    var searchCache: map<string, seq<Listing>>

    /**
     * Between handlers nothing is loading, the shown listings are a
     * subsequence of the fetched ones, and every fetched or cached listing
     * carries the default location.
     */
    ghost predicate Valid()
      reads this
    {
      && !loading
      && IsSubsequence(filteredCars, cars)
      && AllLocated(cars, DefaultLocation)
      && CacheLocated(searchCache)
    }

    /** The filter inputs as they stand. */
    function CurrentCriteria(): Criteria
      reads this
    {
      Criteria(selectedBrand, minPrice, maxPrice, location)
    }

    /** The initial state: nothing fetched, no filter but the default location, platform `both`. */
    constructor ()
      ensures Valid()
      ensures query == "" && cars == [] && filteredCars == [] && error == ""
      ensures selectedBrand == "" && minPrice == "" && maxPrice == "" && location == DefaultLocation
      ensures platform == "both" && !isSearchPerformed && searchCache == map[]
    {
      query, cars, filteredCars, error := "", [], [], "";
      selectedBrand, minPrice, maxPrice, location := "", "", "", DefaultLocation;
      loading, platform, isSearchPerformed := false, "both", false;
      searchCache := map[];
    }

    /** The search box's change handler: the query is stored trimmed. */
    method SetQuery(input: string)
      modifies this`query
      ensures query == Trim(input)
    {
      query := Trim(input);
    }

    /**
     * `handleFilter`: start from the fetched listings and narrow them by each
     * criterion that is set, in turn; the result replaces the shown listings.
     */
    method HandleFilter()
      requires Valid()
      modifies this`filteredCars
      ensures Valid()
      ensures filteredCars == ApplyFilter(cars, CurrentCriteria())
    {
      var filtered := NarrowInTurn(cars, CurrentCriteria());
      FilterIsSubsequence(cars, CurrentCriteria());
      filteredCars := filtered;
    }

    /**
     * `fetchCars`. Without a query nothing happens. A cached query is served
     * from the cache. Otherwise the selected platforms are asked in turn,
     * mekina first; on success the merged list, relocated, is stored under
     * the query and shown; on failure the listings and the cache stay as they
     * were and `error` is set. Any non-empty query marks a search as
     * performed. `requests` lists the requests sent.
     */
    method FetchCars(fetch: UpstreamRequest -> Result<seq<Listing>>) returns (requests: seq<UpstreamRequest>)
      requires Valid()
      modifies this
      ensures Valid()
      ensures query == old(query) && platform == old(platform) && CurrentCriteria() == old(CurrentCriteria())
      ensures old(query) == "" ==> requests == [] && unchanged(this)
      ensures old(query) != "" ==> isSearchPerformed
      ensures old(query) != "" && old(query) in old(searchCache) ==>
        && requests == []
        && cars == old(searchCache)[query] && filteredCars == cars
        && searchCache == old(searchCache) && error == old(error)
      ensures old(query) != "" && old(query) !in old(searchCache) ==>
        var sources := Requested(Some(platform));
        var o := UpstreamOutcomes(fetch, query);
        && requests == RequestsFor(Called(sources, o), query)
        && match Collect(sources, o)
           case Ok(found) =>
             && cars == Relocate(found) && filteredCars == cars && error == ""
             && searchCache == old(searchCache)[query := cars]
           case Err(_) =>
             && cars == old(cars) && filteredCars == old(filteredCars)
             && searchCache == old(searchCache) && error == FetchFailed
    {
      if query == "" {
        return [];
      }
      loading, isSearchPerformed := true, true;
      var cached := LookupOwn(searchCache, query);
      if cached.Stored? {
        SubsequenceReflexive(cached.cars);
        cars, filteredCars, loading := cached.cars, cached.cars, false;
        return [];
      }
      var result;
      result, requests := FetchPlatforms(query, platform, fetch);
      if result.Err? {
        error, loading := FetchFailed, false;
      } else {
        var updatedCars := Relocate(result.value);
        SubsequenceReflexive(updatedCars);
        searchCache, cars, filteredCars, error, loading := searchCache[query := updatedCars], updatedCars, updatedCars, "", false;
      }
    }

    /** Typing `input` and pressing Search: a blank input is trimmed away and nothing is fetched. */
    method SearchFor(input: string, fetch: UpstreamRequest -> Result<seq<Listing>>) returns (requests: seq<UpstreamRequest>)
      requires Valid()
      modifies this
      ensures Valid()
      ensures query == Trim(input)
      ensures AllSpace(input) ==>
        && requests == [] && cars == old(cars) && filteredCars == old(filteredCars)
        && searchCache == old(searchCache) && error == old(error)
    {
      SetQuery(input);
      TrimEmptyIffBlank(input);
      requests := FetchCars(fetch);
    }

    /**
     * Pressing Search twice for the same query, the upstream answering the
     * first search by `fetch1` and the second by `fetch2`: once the first
     * search has stored its result, the second is served from the cache
     * without a request; after a failed first search the second asks again.
     */
    method SearchTwice(fetch1: UpstreamRequest -> Result<seq<Listing>>, fetch2: UpstreamRequest -> Result<seq<Listing>>)
      returns (first: seq<UpstreamRequest>, second: seq<UpstreamRequest>)
      requires Valid() && query != ""
      modifies this
      ensures Valid()
      ensures old(query) in old(searchCache) ==> first == [] && second == []
      ensures Collect(Requested(Some(platform)), UpstreamOutcomes(fetch1, query)).Ok? ==> query in searchCache && second == []
      ensures old(query) !in old(searchCache) && Collect(Requested(Some(platform)), UpstreamOutcomes(fetch1, query)).Err? ==>
        second == RequestsFor(Called(Requested(Some(platform)), UpstreamOutcomes(fetch2, query)), query)
    {
      first := FetchCars(fetch1);
      second := FetchCars(fetch2);
    }
  }
}
