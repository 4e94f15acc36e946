/**
 * The proxy endpoint: validate `query`, forward one single-source request
 * per selected platform to the scraping API, mekina first, and answer with
 * the concatenation, or 500 if any upstream request fails.
 */
module Proxy {
  import opened Common
  import opened Listings
  import opened Api

  /**
   * The handler. `upstream` is what the scraping API answers to a request
   * (an axios failure is `Err`); `requests` lists the requests sent, in order.
   */
  method Handler(query: Option<string>, platform: Option<string>, upstream: UpstreamRequest -> Result<seq<Listing>>)
    returns (res: Response, requests: seq<UpstreamRequest>)
    ensures res == Respond(query, Requested(platform), UpstreamOutcomes(upstream, OrEmpty(query)))
    ensures requests == RequestsFor(CallsMade(query, Requested(platform), UpstreamOutcomes(upstream, OrEmpty(query))), OrEmpty(query))
  {
    if query.None? || query.value == "" {
      return Status400(QueryRequired), [];
    }
    var q := query.value;
    var result;
    result, requests := Forward(q, platform, upstream);
    if result.Err? {
      return Status500(FetchFailed), requests;
    }
    res := Status200(result.value);
  }

  /**
   * The `try` block: ask mekina when the platform is `mekina` or `both`,
   * then jiji when it is `jiji` or `both`, appending each answer; the first
   * failed request ends the block. `requests` lists the requests sent.
   */
  method Forward(q: string, platform: Option<string>, upstream: UpstreamRequest -> Result<seq<Listing>>)
    returns (result: Result<seq<Listing>>, requests: seq<UpstreamRequest>)
    ensures result == Collect(Requested(platform), UpstreamOutcomes(upstream, q))
    ensures requests == RequestsFor(Called(Requested(platform), UpstreamOutcomes(upstream, q)), q)
  {
    ghost var o := UpstreamOutcomes(upstream, q);
    var response: seq<Listing> := [];
    requests := [];
    if platform == Some("mekina") || platform == Some("both") {
      var request := UpstreamRequest("mekina", q);
      requests := requests + [request];
      var mekinaResponse := upstream(request);
      if mekinaResponse.Err? {
        MekinaThrew(platform, o, q);
        return mekinaResponse, requests;
      }
      response := response + mekinaResponse.value;
      assert response == mekinaResponse.value;
    }
    if platform == Some("jiji") || platform == Some("both") {
      var request := UpstreamRequest("jiji", q);
      requests := requests + [request];
      var jijiResponse := upstream(request);
      if jijiResponse.Err? {
        JijiThrew(platform, o, q);
        return jijiResponse, requests;
      }
      response := response + jijiResponse.value;
      assert platform == Some("jiji") ==> response == jijiResponse.value;
    }
    AllResolved(platform, o, q);
    result := Ok(response);
  }

  /**
   * Every request sent upstream names a single source, never `both`, and
   * carries the client's query; `both` sends mekina's request before jiji's.
   */
  lemma RequestsNameOneSource(query: Option<string>, platform: Option<string>, upstream: UpstreamRequest -> Result<seq<Listing>>)
    ensures var requests := RequestsFor(CallsMade(query, Requested(platform), UpstreamOutcomes(upstream, OrEmpty(query))), OrEmpty(query));
      && (forall i :: 0 <= i < |requests| ==>
            requests[i].platform in {"mekina", "jiji"} && requests[i].query == query.value)
      && (platform == Some("both") && HasQuery(query) && upstream(UpstreamRequest("mekina", query.value)).Ok? ==>
            requests == [UpstreamRequest("mekina", query.value), UpstreamRequest("jiji", query.value)])
  {
    var o := UpstreamOutcomes(upstream, OrEmpty(query));
    CollectPair(o);
  }

  /** A successful `both` answer is the two upstream arrays back to back: its length is the sum of theirs. */
  lemma BothConcatenatesUpstream(query: Option<string>, upstream: UpstreamRequest -> Result<seq<Listing>>)
    requires HasQuery(query)
    requires upstream(UpstreamRequest("mekina", query.value)).Ok?
    requires upstream(UpstreamRequest("jiji", query.value)).Ok?
    ensures var mekina := upstream(UpstreamRequest("mekina", query.value)).value;
      var jiji := upstream(UpstreamRequest("jiji", query.value)).value;
      var res := Respond(query, Requested(Some("both")), UpstreamOutcomes(upstream, query.value));
      res == Status200(mekina + jiji) && |res.body| == |mekina| + |jiji|
  {
    BothIsMekinaThenJiji(query, UpstreamOutcomes(upstream, query.value));
  }
}
