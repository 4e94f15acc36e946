# Car listing search: scrape, merge and filter, in Dafny

This project models the core of a small car-listing search. It has four parts:

- **Scraping servers.** They answer `GET /api/cars?query=…&platform=…`. The mekina source is a headless-browser scrape of Mekina.net. The jiji source is a stub that returns nothing. One server reads `platform` and can merge both sources (`Server.js`). The other always scrapes mekina only (`s.js`).
- **Proxy handler.** It forwards one single-source request per selected platform to the scraping API and concatenates the answers (`server.js`).
- **Search page, fetch side.** It fetches from the API, stamps every listing with the location `Addis Ababa` and caches results by query (`src/App.jsx`, `fetchCars`).
- **Search page, filter side.** It filters the fetched listings by brand, price range and location (`src/App.jsx`, `handleFilter`).

## Modules

- `Common`: `Option`, `Result` (a value, or the cause of an exception) and `OrEmpty` (`x || ''`).
- `Text`: the JavaScript `trim` whitespace set, `Trim`, `Includes` (`String.prototype.includes`) and an ASCII `Lower`.
- `Price`: the price key. The regular expression `/ETB|[^0-9.-]+/g` is modelled literally. It is proved equal to "keep digits, `.` and `-`". `ParseFloat` models `parseFloat` over exact reals; `None` stands for `NaN`.
- `Listings`: the `Listing` record and the subsequence relation.
- `Api`: the sources a `platform` selects and the mekina-then-jiji merge. The merge stops at the first source that throws. This module also has the three responses and the calls a request makes.
- `Scraper`: card extraction. It has a `Browser` session class and `FetchCarsFromMekina`, which closes the browser only on success. It also has the `FetchCarsFromJiji` stub.
- `ScrapeServer`, `SingleSourceServer` and `Proxy`: the three handlers, as imperative methods proved equal to `Api.Respond`.
- `FilterEngine`: the criteria, one `.filter` pass (`Select`) and the single-pass reference filter `ApplyFilter`.
- `SearchPage`: the page state as the class `App`, with `FetchCars`, `HandleFilter` and `SetQuery`, and the cache lookup.

Environment inputs are parameters:
- What a browser visit yields for a query: `site: string -> Visit`.
- What the upstream API answers to a request: `upstream` / `fetch: UpstreamRequest -> Result<seq<Listing>>`.

The handlers return the calls they made (`called`, `requests`) so that "no source is called" can be stated.

Three behaviours of the code shape the model:
- The cache is keyed by the query alone. A search for the same query on another platform is served from the cache (src/App.jsx:29-34, 59).
- A failing source fails the whole request with a generic 500. There is no partial result (Server.js:63-66, server.js:29-35).
- The browser is closed only on success. Any failure after launch leaves it open (Server.js:13-33).

## Model

| member | source | states |
|---|---|---|
| `Text.TrimStart` | src/App.jsx:148 | the result is the longest suffix of the input that does not start with JavaScript white space; everything dropped is white space |
| `Text.TrimEnd` | src/App.jsx:148 | the result is the longest prefix that does not end with white space; everything dropped is white space |
| `Text.Trim` | src/App.jsx:148 | `trim` never lengthens the query, and a non-empty result neither starts nor ends with white space |
| `Text.TrimEmptyIffBlank` | src/App.jsx:148 | the trimmed query is empty exactly when the typed input is all white space |
| `Text.TrimIsSlice` | src/App.jsx:148 | the trimmed query is a contiguous slice of the input with only white space cut off on either side |
| `Text.TrimIdempotent` | src/App.jsx:148 | trimming an already trimmed query changes nothing |
| `Text.Includes` | src/App.jsx:86 | `includes` is true iff the needle occurs at some index of the text, in both directions (the empty needle occurs everywhere) |
| `Text.LowerChar` | src/App.jsx:105 | the lower-cased character is never an ASCII capital; a capital moves up by 32 code points to its small letter, and every other character is unchanged |
| `Text.Lower` | src/App.jsx:105 | lower-casing keeps the length and lower-cases each character in place |
| `Text.LowerEqualIffSameIgnoringCase` | src/App.jsx:105 | two strings lower-case to the same string exactly when they have the same length and agree at every index up to ASCII case |
| `Price.KeepPriceChars` | src/App.jsx:92 | reference strip: the result holds only digits, `.` and `-`, and is no longer than the input |
| `Price.ReplaceJunk` | src/App.jsx:92 | the replace never lengthens the price and leaves only digits, `.` and `-` |
| `Price.ReplaceJunkKeepsPriceChars` | src/App.jsx:92 | the replace with `/ETB\|[^0-9.-]+/g` removes exactly the characters other than digits, `.` and `-`, for every input |
| `Price.TrimAfterStripIsNoop` | src/App.jsx:92 | the `.trim()` after the strip never changes the stripped price |
| `Price.ParseFloat` | src/App.jsx:92-93 | a number comes out only when the text after leading white space starts with a digit, a point or a sign |
| `Price.ParseFloatDefined` | src/App.jsx:92-93 | `parseFloat` gives a number, not NaN, iff after leading white space an optional sign is followed by a digit or by `.` and a digit |
| `Price.SignedValue` | src/App.jsx:92-93 | a `-` in front of a numeric literal parses to the negation of the literal's value, and a `+` to the value unchanged, so a negative bound or a stripped `-` price is read as a negative number |
| `Price.ParseDigitPrefix` | src/App.jsx:92 | `parseFloat` reads the longest numeric prefix: digits followed by text that cannot continue a number parse to the value of those digits |
| `Price.ParseDecimalPrefix` | src/App.jsx:92-93 | digits, a point and fraction digits f, followed by text that cannot continue the number, parse to the integer part plus f divided by ten to the power of the length of f |
| `Price.ParseExponentPrefix` | src/App.jsx:92-93 | digits d, `e` and exponent digits k, followed by a non-digit, parse to d times 10^k |
| `Price.OneAndAHalf` | src/App.jsx:93 | a bound typed as `1.5` is one and a half |
| `Price.ParseFloatOfDecimal` | src/App.jsx:92-93 | round trip: `parseFloat` of the decimal numeral of n is n |
| `Price.PriceKey` | src/App.jsx:92 | the price key is `parseFloat` of the price's digits, points and minus signs in order; the regex replace and the `trim` together are that strip |
| `Price.PriceKeyOfEtb` | src/App.jsx:92 | a price written `ETB <n>` has price key n |
| `Price.GroupedPriceKey` | src/App.jsx:92 | the price `ETB 1,500,000` has price key 1500000: the currency code and thousands separators disappear |
| `Price.NoDigitNoKey` | src/App.jsx:90-101 | a price with no digit (the empty price among them) has no key, i.e. parses to NaN |
| `Api.SourceName` | server.js:17-23 | requests name the single source `mekina` or `jiji`, never `both` |
| `Api.Requested` | Server.js:52-60 | mekina is selected iff platform is `mekina` or `both`, jiji iff `jiji` or `both`; at most two sources, mekina first |
| `Api.Collect` | Server.js:50-60 | the merge succeeds iff every selected source resolves; then its length is the sum of theirs; otherwise it is the exception of one of them |
| `Api.Called` | Server.js:52-60 | the sources called are a prefix of the selected ones in order; every call but the last resolved; stopping early means the last call threw; with no failure every selected source is called |
| `Api.RequestsFor` | server.js:16-25 | one upstream request per called source, in order, each carrying that source's name and the client's query |
| `Api.CallsMade` | Server.js:45-47 | a request without a query calls no source |
| `Api.MekinaThrew` | Server.js:52-55 | when mekina is selected and throws, the merge is mekina's exception, mekina alone is called and only its request is sent |
| `Api.JijiThrew` | Server.js:57-60 | when jiji is selected and throws after mekina, if selected, resolved, the merge is jiji's exception and every selected source was called, mekina's request first |
| `Api.AllResolved` | Server.js:50-60 | when every selected source resolves, all of them are called, one request each, and the merge is mekina's list followed by jiji's, each present only if selected |
| `Api.Respond` | Server.js:42-67 | 400 `Query parameter is required` iff the query is missing or empty; 500 `Failed to fetch car listings` iff the query is set and some selected source throws; a 200 body's length is the sum of the source lists |
| `Api.MissingQueryCallsNothing` | Server.js:45-47 | a missing or empty query gives 400 and calls no source, whatever the platform |
| `Api.BothIsMekinaThenJiji` | Server.js:52-60 | with `both` and both sources resolving, the body is the mekina list followed by the jiji list, and both are called in that order |
| `Api.SinglePlatformCallsOneSource` | Server.js:52-60 | `mekina` or `jiji` alone selects and calls only that source, and the body is its list unchanged, or 500 if it throws |
| `Api.UnknownPlatformIsEmpty` | Server.js:50-62 | any other platform value, or none, gives 200 with an empty array and calls no source |
| `Api.JijiFailureDiscardsMekina` | server.js:16-35 | with `both`, a jiji failure after a successful mekina call gives the generic 500, so no partial list is returned |
| `Api.MekinaFailureSkipsJiji` | Server.js:52-66 | with `both`, a mekina failure gives 500 and jiji is never called |
| `Api.ResponseHidesCause` | Server.js:63-66 | the response and the calls do not depend on the text of any exception, only on which sources threw |
| `Scraper.Extract` | Server.js:21-29 | each field of the record is the card's sub-element value or `''` when it is missing, independently of the others; `location` is always `''` |
| `Scraper.ExtractAll` | Server.js:20-29 | exactly one record per matched card, in match order |
| `Scraper.ExtractRoundTrip` | Server.js:22-28 | a card showing every field of a location-less listing extracts back to that listing |
| `Scraper.MissingTitleDegradesOneField` | Server.js:22-26 | a missing title sub-element yields `title: ''` and leaves the other fields as the full card gives them |
| `Scraper.ExtractAllLocationless` | Server.js:20-28 | a scrape yields as many listings as cards, all with empty location |
| `Scraper.FetchCarsFromJiji` | Server.js:37-40 | the jiji stub yields no listings for any query |
| `Scraper.VisitResult` | Server.js:12-34 | a scrape resolves iff the page rendered, and then to the extraction of its cards |
| `Scraper.FetchCarsFromMekina` | Server.js:12-34 | the result is the visit's result; a browser exists iff launch succeeded; it is closed iff the scrape resolved, so every failure after launch leaves it open |
| `ScrapeServer.HandleCars` | Server.js:42-67 | the response and the source calls are those of `Respond` and `CallsMade`, with the scraper for mekina and the stub for jiji; a browser is left open iff mekina was called and the page failed after launch |
| `ScrapeServer.JijiAloneIsEmpty` | Server.js:37-40 | platform `jiji` with a query answers 200 with an empty array |
| `ScrapeServer.BothIsMekinaAlone` | Server.js:37-60 | `both` answers exactly what `mekina` answers; with a rendered page that is the extracted cards |
| `ScrapeServer.AnswersAreLocationless` | Server.js:26 | every listing in a 200 answer has an empty location |
| `SingleSourceServer.HandleCars` | s.js:36-49 | the response and the calls are those of `Respond` with mekina as the only source, whatever `platform` is; a browser is left open iff the page failed after launch |
| `SingleSourceServer.AnswerIsScrape` | s.js:19-44 | with a query, a rendered page gives 200 with one location-less listing per card, unchanged; any other visit gives the generic 500 |
| `Proxy.Handler` | server.js:3-36 | the response is `Respond` over the upstream answers; the requests sent are one per called source, mekina first, stopping at the first failure |
| `Proxy.Forward` | server.js:12-26 | the `try` block's outcome is `Collect` over the upstream answers, mekina first, the first failed request ending it; the requests sent are one per called source |
| `Proxy.RequestsNameOneSource` | server.js:16-25 | every upstream request carries `mekina` or `jiji` and the client's query; `both` sends mekina's request then jiji's when mekina's request succeeds (when it fails, only mekina's is sent) |
| `Proxy.BothConcatenatesUpstream` | server.js:13-28 | a successful `both` answer is the mekina array followed by the jiji array, elements unchanged, its length the sum of theirs |
| `FilterEngine.Passes` | src/App.jsx:85-106 | the brand pass holds iff the brand occurs in the title; a price pass fails when the price key is NaN; the location pass needs a non-empty location |
| `FilterEngine.Select` | src/App.jsx:86 | one `.filter` pass keeps an order-preserving subsequence of its input |
| `FilterEngine.ApplyFilter` | src/App.jsx:81-108 | the result is no longer than the input and holds exactly the input listings that meet every criterion that is set |
| `FilterEngine.FilterKeepsEveryCopy` | src/App.jsx:81-108 | each listing occurs in the result as often as in the input when it matches, and not at all otherwise, so duplicates in a merged list survive |
| `FilterEngine.Narrow` | src/App.jsx:85-106 | a `.filter` pass for a criterion not yet applied narrows the filter to the criteria with that one added |
| `FilterEngine.SelectAfterFilter` | src/App.jsx:82-106 | one more `.filter` pass over the filtered list equals the single-pass filter with that test added to the AND |
| `FilterEngine.NoCriteriaIsIdentity` | src/App.jsx:81-108 | with brand, min price, max price and location all empty, the result is the input unchanged |
| `FilterEngine.FilterIsSubsequence` | src/App.jsx:82-106 | the result is an order-preserving subsequence of the fetched listings |
| `FilterEngine.FilterIdempotent` | src/App.jsx:82-106 | filtering the result again with the same criteria changes nothing |
| `FilterEngine.BrandCriterion` | src/App.jsx:85-87 | with a brand selected, a kept listing's title contains the brand case-sensitively, and a listing meeting the other criteria whose title contains it is kept |
| `FilterEngine.UnpricedDropped` | src/App.jsx:90-101 | with a min or max price set, a listing whose price key is NaN is dropped |
| `FilterEngine.KeptWithinBounds` | src/App.jsx:90-101 | every kept listing's price key is at least the min bound and at most the max bound, when those are set |
| `FilterEngine.LocationCriterion` | src/App.jsx:104-106 | with a location set, a kept listing has a non-empty location containing the criterion ignoring case, and a listing meeting the others with such a location is kept |
| `FilterEngine.LocationIgnoresCase` | src/App.jsx:104-106 | location criteria that agree up to ASCII case keep the same listings |
| `FilterEngine.ToyotaExample` | src/App.jsx:85-87 | brand `Toyota` over a Toyota Corolla and a Honda Civic keeps only the Corolla |
| `SearchPage.Relocate` | src/App.jsx:52-56 | same number of listings, every location becomes `Addis Ababa`, and title, price, link and image stay as they were |
| `SearchPage.LookupAsWritten` | src/App.jsx:30 | the lookup as written finds the stored list iff the query is an own key; it is undefined only when the query is neither stored nor an `Object.prototype` member name |
| `SearchPage.InheritedMemberIsAHit` | src/App.jsx:30 | the cache test as written finds something for `toString` in an empty cache, and what it finds is not a stored list |
| `SearchPage.LookupOwn` | src/App.jsx:30 | the corrected lookup hits iff the query was stored, and then yields the stored list |
| `SearchPage.LookupsAgreeOffPrototype` | src/App.jsx:30 | the written and corrected lookups agree exactly when the query was stored or is not an `Object.prototype` member name |
| `SearchPage.DefaultLocationKeepsFetched` | src/App.jsx:52-56 | with the default location criterion, the filter keeps every freshly fetched listing |
| `SearchPage.FetchPlatforms` | src/App.jsx:37-50 | the fetch block yields the mekina-then-jiji merge of the upstream answers, or the first failure, and sends one request per called source |
| `SearchPage.NarrowInTurn` | src/App.jsx:82-106 | running the brand, min price, max price and location passes in turn, each only when its input is set, gives the single-pass filter by all the criteria |
| `SearchPage.App.constructor` | src/App.jsx:7-19 | the initial state: empty query, listings and cache; location criterion `Addis Ababa`; platform `both`; not loading |
| `SearchPage.App.SetQuery` | src/App.jsx:148 | the stored query is the trimmed input |
| `SearchPage.App.HandleFilter` | src/App.jsx:81-109 | the shown listings become the single-pass filter of the fetched listings by the current criteria; the page invariant is kept |
| `SearchPage.App.FetchCars` | src/App.jsx:23-70 | empty query: nothing changes and nothing is requested. Cache hit: no request, and the fetched and shown listings become the cached list. Miss with success: the relocated merge is shown and stored under the query, other keys untouched, error cleared. Failure: the fetched and shown listings and the cache stay as they were and the error is set. Any non-empty query marks a search as performed, and loading is false afterwards |
| `SearchPage.App.SearchFor` | src/App.jsx:72-74 | typing a blank query and searching sends no request and changes neither the fetched nor the shown listings, the cache or the error |
| `SearchPage.App.SearchTwice` | src/App.jsx:29-67 | with the upstream free to answer each search differently: a query cached before sends no request on either search; a successful first search stores the query and the second sends no request; a failed first search of an uncached query caches nothing, so the second sends the requests its own answers call for |

## Findings

| source | as written | input that shows it | evidently intended | confidence | as-written member | corrected member |
|---|---|---|---|---|---|---|
| src/App.jsx:30 | `if (searchCache[query])` reads a plain object, so names on `Object.prototype` are found without being stored. The inherited function is then passed to `setCars` | a first search for `toString` (or `constructor`, `valueOf`, …) with an empty cache | a hit only for a query whose result was stored, i.e. an own-key lookup | high, not executed | `SearchPage.InheritedMemberIsAHit` | `SearchPage.LookupOwn` |

`SearchPage.LookupAsWritten` models the lookup as written. `App.FetchCars` uses the own-key lookup `LookupOwn`.

## Left out

- Rendering, JSX, Tailwind classes, the spinner, the dark-mode toggle and the "No results found" text are not modelled (src/App.jsx:76-79, 111-229).
- The visible `loading = true` state while requests are awaited is not modelled. Handlers are modelled as sequential steps, and only the state after each step is stated.
- React's batched setters are modelled as direct field writes.
- The input handlers other than the query box (brand, prices, platform) are plain field assignments. They have no method.
- Puppeteer's launch, `newPage`, `goto` with `networkidle2`, and DOM `querySelector`/`innerText`/`src` are foreign browser calls. A visit is the parameter `site`, and a card is a record of optional field values.
- `Browser.close` itself is assumed not to throw.
- axios, Express, `cors` and `app.listen` are I/O plumbing. Upstream answers are the parameter `upstream`/`fetch`. The request URL is reduced to its `platform` and `query` parameters, so the hosts and `encodeURIComponent` are not modelled.
- `console.log` and `console.error` are left out.
- Express can give an array for a repeated query parameter. The model takes `query` and `platform` as optional strings only.
- Price.ParseFloat: values are exact reals, so IEEE-754 rounding, overflow of huge exponents to Infinity, and `-0` are not modelled. The literal `Infinity` gives `None` here but ±Infinity in `parseFloat`. Neither a stripped price nor a number-input value can contain it.
- Text.Lower: only ASCII letters are lower-cased. JavaScript's `toLowerCase` also maps non-ASCII letters.
- Strings are sequences of Unicode scalar values, not UTF-16 code units.
- The cache has no expiry and no protection against two concurrent identical fetches. The page has neither, and the model has no concurrency.
