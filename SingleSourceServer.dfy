/**
 * The single-source scraping server's `GET /api/cars` handler: validate
 * `query`, then answer with the mekina scrape whatever `platform` says.
 */
module SingleSourceServer {
  import opened Common
  import opened Listings
  import opened Api
  import opened Scraper

  /** What the one source resolves to for `query`; the jiji entry is never consulted. */
  function MekinaOutcomes(site: string -> Visit, query: Option<string>): Outcomes
  {
    Outcomes(VisitResult(site(OrEmpty(query))), Ok([]))
  }

  /**
   * The handler. `platform` is accepted but never read. `called` lists the
   * source functions it invoked; `leaked` says whether it left a browser
   * session open.
   */
  method HandleCars(query: Option<string>, platform: Option<string>, site: string -> Visit)
    returns (res: Response, called: seq<Source>, leaked: bool)
    ensures res == Respond(query, [Mekina], MekinaOutcomes(site, query))
    ensures called == CallsMade(query, [Mekina], MekinaOutcomes(site, query))
    ensures leaked <==> HasQuery(query) && (site(query.value).PageFailed? || site(query.value).EvaluateFailed?)
  {
    if query.None? || query.value == "" {
      return Status400(QueryRequired), [], false;
    }
    called := [Mekina];
    var cars, browser := FetchCarsFromMekina(query.value, site);
    leaked := browser != null && !browser.closed;
    CollectOne(Mekina, MekinaOutcomes(site, query));
    if cars.Err? {
      return Status500(FetchFailed), called, leaked;
    }
    res := Status200(cars.value);
  }

  /**
   * With a query, the answer is the scraped cards' listings, one per card in
   * match order and location-less, or the generic 500 when the visit threw.
   */
  lemma AnswerIsScrape(query: Option<string>, site: string -> Visit)
    requires HasQuery(query)
    ensures site(query.value).Rendered? ==>
      var body := ExtractAll(site(query.value).cards);
      && Respond(query, [Mekina], MekinaOutcomes(site, query)) == Status200(body)
      && |body| == |site(query.value).cards|
      && AllLocated(body, "")
    ensures !site(query.value).Rendered? ==>
      Respond(query, [Mekina], MekinaOutcomes(site, query)) == Status500(FetchFailed)
  {
    CollectOne(Mekina, MekinaOutcomes(site, query));
    if site(query.value).Rendered? {
      ExtractAllLocationless(site(query.value).cards);
    }
  }
}
