/**
 * The Mekina.net scraper: one headless-browser session per search, one
 * listing per matched card, and a jiji source that is still a stub.
 * The browser, the page and its DOM are outside the model; what a visit
 * yields is a parameter.
 */
module Scraper {
  import opened Common
  import opened Listings

  /**
   * One matched `.relative .m-1 a` element, reduced to what extraction reads:
   * the `innerText` of the `.text-sm` and price sub-elements, the anchor's
   * `href` and the `src` of its `img`, each `None` when missing.
   */
  datatype Card = Card(titleText: Option<string>, priceText: Option<string>, href: Option<string>, imageSrc: Option<string>)

  /** The per-card mapping: each field read independently, missing ones empty, `location` always empty. */
  function Extract(card: Card): (l: Listing)
    ensures l.location == ""
    ensures l.title == OrEmpty(card.titleText) && l.price == OrEmpty(card.priceText)
    ensures l.link == OrEmpty(card.href) && l.image == OrEmpty(card.imageSrc)
  {
    Listing(OrEmpty(card.titleText), OrEmpty(card.priceText), OrEmpty(card.href), "", OrEmpty(card.imageSrc))
  }

  /** `Array.from(carElements).map(...)`: one listing per card, in match order. */
  function ExtractAll(cards: seq<Card>): (cars: seq<Listing>)
    ensures |cars| == |cards|
    ensures forall i :: 0 <= i < |cards| ==> cars[i] == Extract(cards[i])
  {
    seq(|cards|, i requires 0 <= i < |cards| => Extract(cards[i]))
  }

  /** A card that shows every field of a location-less listing extracts back to that listing. */
  lemma ExtractRoundTrip(l: Listing)
    requires l.location == ""
    ensures Extract(Card(Some(l.title), Some(l.price), Some(l.link), Some(l.image))) == l
  {
  }

  /** A missing title degrades that field only: the record is the full card's record with an empty title. */
  lemma MissingTitleDegradesOneField(card: Card)
    ensures Extract(card.(titleText := None)) == Extract(card).(title := "")
  {
  }

  /** Every scraped listing has an empty location, and there are exactly as many as cards. */
  lemma ExtractAllLocationless(cards: seq<Card>)
    ensures |ExtractAll(cards)| == |cards|
    ensures AllLocated(ExtractAll(cards), "")
  {
  }

  /** What one visit to the search page does: fail at launch, fail once the browser is open, or render the matched cards. */
  datatype Visit = LaunchFailed | PageFailed | EvaluateFailed | Rendered(cards: seq<Card>)

  /** The listings a visit resolves to, or the exception it throws. */
  function VisitResult(v: Visit): (r: Result<seq<Listing>>)
    ensures r.Ok? <==> v.Rendered?
    ensures r.Ok? ==> r.value == ExtractAll(v.cards)
  {
    match v
    case Rendered(cards) => Ok(ExtractAll(cards))
    case LaunchFailed => Err("browser launch failed")
    case PageFailed => Err("page navigation failed")
    case EvaluateFailed => Err("page evaluation failed")
  }

  /** A headless browser session. */
  class Browser {
    var closed: bool

    constructor Launch()
      ensures !closed
    {
      closed := false;
    }

    method Close()
      modifies this
      ensures closed
    {
      closed := true;
    }
  }

  /**
   * `fetchCarsFromMekina`: launch a browser, visit the search page for
   * `searchQuery`, extract the cards, close the browser. An exception after
   * launch skips `close`, so the session stays open.
   */
  method FetchCarsFromMekina(searchQuery: string, site: string -> Visit) returns (cars: Result<seq<Listing>>, browser: Browser?)
    ensures cars == VisitResult(site(searchQuery))
    ensures browser == null <==> site(searchQuery).LaunchFailed?
    ensures browser != null ==> fresh(browser) && (browser.closed <==> cars.Ok?)
  {
    var visit := site(searchQuery);
    if visit.LaunchFailed? {
      return VisitResult(visit), null;
    }
    browser := new Browser.Launch();
    if !visit.Rendered? {
      return VisitResult(visit), browser;
    }
    var extracted := ExtractAll(visit.cards);
    browser.Close();
    cars := Ok(extracted);
  }

  /** `fetchCarsFromJiji`: not implemented; resolves to no listings whatever the query. */
  function FetchCarsFromJiji(searchQuery: string): (cars: seq<Listing>)
    ensures cars == []
  {
    []
  }
}
