/**
 * The scraping server's `GET /api/cars` handler: validate `query`, call
 * the mekina scraper and the jiji stub as `platform` selects, answer with
 * their concatenation, or 500 if the scraper throws.
 */
module ScrapeServer {
  import opened Common
  import opened Listings
  import opened Api
  import opened Scraper

  /** What each source resolves to for `query`: the visit's listings for mekina, the stub's empty list for jiji. */
  function ScrapeOutcomes(site: string -> Visit, query: Option<string>): Outcomes
  {
    var q := OrEmpty(query);
    Outcomes(VisitResult(site(q)), Ok(FetchCarsFromJiji(q)))
  }

  /** The browser session is left open: mekina was called and its visit threw after launch. */
  predicate LeavesBrowserOpen(query: Option<string>, platform: Option<string>, site: string -> Visit)
  {
    HasQuery(query) && Mekina in Requested(platform)
    && (site(query.value).PageFailed? || site(query.value).EvaluateFailed?)
  }

  /**
   * The handler. `called` lists the source functions it invoked, in order;
   * `leaked` says whether it left a browser session open.
   */
  method HandleCars(query: Option<string>, platform: Option<string>, site: string -> Visit)
    returns (res: Response, called: seq<Source>, leaked: bool)
    ensures res == Respond(query, Requested(platform), ScrapeOutcomes(site, query))
    ensures called == CallsMade(query, Requested(platform), ScrapeOutcomes(site, query))
    ensures leaked <==> LeavesBrowserOpen(query, platform, site)
  {
    ghost var o := ScrapeOutcomes(site, query);
    if query.None? || query.value == "" {
      return Status400(QueryRequired), [], false;
    }
    var q := query.value;
    var cars: seq<Listing> := [];
    called, leaked := [], false;
    if platform == Some("mekina") || platform == Some("both") {
      called := called + [Mekina];
      var mekinaCars, browser := FetchCarsFromMekina(q, site);
      leaked := browser != null && !browser.closed;
      if mekinaCars.Err? {
        MekinaThrew(platform, o, q);
        return Status500(FetchFailed), called, leaked;
      }
      cars := cars + mekinaCars.value;
      assert cars == mekinaCars.value;
    }
    if platform == Some("jiji") || platform == Some("both") {
      called := called + [Jiji];
      var jijiCars := FetchCarsFromJiji(q);
      cars := cars + jijiCars;
      assert platform == Some("jiji") ==> cars == jijiCars;
    }
    AllResolved(platform, o, q);
    res := Status200(cars);
  }

  /** `jiji` alone answers 200 with an empty list: the stub never finds anything. */
  lemma JijiAloneIsEmpty(query: Option<string>, site: string -> Visit)
    requires HasQuery(query)
    ensures Respond(query, Requested(Some("jiji")), ScrapeOutcomes(site, query)) == Status200([])
  {
    SinglePlatformCallsOneSource(query, Jiji, ScrapeOutcomes(site, query));
  }

  /** `both` answers exactly what `mekina` answers: the scraped cards, or the same 500. */
  lemma BothIsMekinaAlone(query: Option<string>, site: string -> Visit)
    requires HasQuery(query)
    ensures Respond(query, Requested(Some("both")), ScrapeOutcomes(site, query))
         == Respond(query, Requested(Some("mekina")), ScrapeOutcomes(site, query))
    ensures site(query.value).Rendered? ==>
      Respond(query, Requested(Some("both")), ScrapeOutcomes(site, query)) == Status200(ExtractAll(site(query.value).cards))
  {
    var o := ScrapeOutcomes(site, query);
    SinglePlatformCallsOneSource(query, Mekina, o);
    if o.mekina.Ok? {
      BothIsMekinaThenJiji(query, o);
      assert o.mekina.value + [] == o.mekina.value;
    } else {
      MekinaFailureSkipsJiji(query, o);
    }
  }

  /** Every listing in a successful answer has an empty location, as the extraction writes it. */
  lemma AnswersAreLocationless(query: Option<string>, platform: Option<string>, site: string -> Visit)
    requires Respond(query, Requested(platform), ScrapeOutcomes(site, query)).Status200?
    ensures AllLocated(Respond(query, Requested(platform), ScrapeOutcomes(site, query)).body, "")
  {
    var o := ScrapeOutcomes(site, query);
    CollectRequested(platform, o);
    CollectPair(o);
    if o.mekina.Ok? {
      ExtractAllLocationless(site(query.value).cards);
      assert o.mekina.value + [] == o.mekina.value;
    }
  }
}
