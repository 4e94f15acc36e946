/**
 * What the `/api/cars` handlers share: the sources a `platform` selects,
 * the mekina-then-jiji merge that stops at the first source that throws,
 * and the three responses.
 */
module Api {
  import opened Common
  import opened Listings

  /** The classifieds sites, in the order every handler calls them. */
  datatype Source = Mekina | Jiji

  /** The single-source `platform` name a request for `s` carries. */
  function SourceName(s: Source): (name: string)
    ensures name == "mekina" || name == "jiji"
    ensures name != "both"
    ensures s == Mekina <==> name == "mekina"
  {
    match s
    case Mekina => "mekina"
    case Jiji => "jiji"
  }

  /**
   * The sources a `platform` value selects: `mekina` when it is `mekina` or
   * `both`, then `jiji` when it is `jiji` or `both`; anything else, absence
   * included, selects none.
   */
  function Requested(platform: Option<string>): (r: seq<Source>)
    ensures Mekina in r <==> platform == Some("mekina") || platform == Some("both")
    ensures Jiji in r <==> platform == Some("jiji") || platform == Some("both")
    ensures |r| <= 2 && (|r| == 2 ==> r == [Mekina, Jiji])
  {
    (if platform == Some("mekina") || platform == Some("both") then [Mekina] else [])
    + (if platform == Some("jiji") || platform == Some("both") then [Jiji] else [])
  }

  /** What each source resolves to, or throws, for the query at hand. */
  datatype Outcomes = Outcomes(mekina: Result<seq<Listing>>, jiji: Result<seq<Listing>>)
  {
    function Of(s: Source): Result<seq<Listing>>
    {
      match s
      case Mekina => mekina
      case Jiji => jiji
    }
  }

  /** Sum of the list lengths the given sources resolved to (0 for a source that threw). */
  function TotalLength(sources: seq<Source>, o: Outcomes): nat
  {
    if sources == [] then 0
    else (if o.Of(sources[0]).Ok? then |o.Of(sources[0]).value| else 0) + TotalLength(sources[1..], o)
  }

  /**
   * Awaiting the sources in order and appending each list: the concatenation
   * when every source resolves, otherwise the first exception.
   */
  function Collect(sources: seq<Source>, o: Outcomes): (r: Result<seq<Listing>>)
    ensures r.Ok? <==> forall i :: 0 <= i < |sources| ==> o.Of(sources[i]).Ok?
    ensures r.Ok? ==> |r.value| == TotalLength(sources, o)
    ensures r.Err? ==> exists i :: 0 <= i < |sources| && o.Of(sources[i]) == r
  {
    if sources == [] then Ok([])
    else match o.Of(sources[0])
      case Err(cause) => Err(cause)
      case Ok(first) =>
        var rest := Collect(sources[1..], o);
        assert forall i :: 1 <= i < |sources| ==> sources[i] == sources[1..][i - 1];
        match rest
        case Err(cause) => Err(cause)
        case Ok(tail) => Ok(first + tail)
  }

  /** The sources actually called: in order, up to and including the first that throws. */
  function Called(sources: seq<Source>, o: Outcomes): (r: seq<Source>)
    ensures |r| <= |sources| && r == sources[..|r|]
    ensures forall i :: 0 <= i < |r| - 1 ==> o.Of(r[i]).Ok?
    ensures |r| < |sources| ==> r != [] && o.Of(r[|r| - 1]).Err?
    ensures Collect(sources, o).Ok? ==> r == sources
  {
    if sources == [] then []
    else if o.Of(sources[0]).Err? then [sources[0]]
    else [sources[0]] + Called(sources[1..], o)
  }

  /** A single source: the merge is that source's own outcome. */
  lemma CollectOne(s: Source, o: Outcomes)
    ensures Collect([s], o) == o.Of(s) && Called([s], o) == [s]
  {
    assert [s][1..] == [];
    if o.Of(s).Ok? {
      assert o.Of(s).value + [] == o.Of(s).value;
    }
  }

  /** Both sources: mekina's exception, else jiji's, else mekina's list followed by jiji's. */
  lemma CollectPair(o: Outcomes)
    ensures Collect([Mekina, Jiji], o) ==
      if o.mekina.Err? then o.mekina else if o.jiji.Err? then o.jiji else Ok(o.mekina.value + o.jiji.value)
    ensures Called([Mekina, Jiji], o) == if o.mekina.Err? then [Mekina] else [Mekina, Jiji]
  {
    assert [Mekina, Jiji][1..] == [Jiji];
    CollectOne(Jiji, o);
  }

  /** `Collect` and `Called` on each source list a `platform` can select. */
  lemma CollectRequested(platform: Option<string>, o: Outcomes)
    ensures var sources := Requested(platform);
      && (sources == [] ==> Collect(sources, o) == Ok([]) && Called(sources, o) == [])
      && (|sources| == 1 ==> Collect(sources, o) == o.Of(sources[0]) && Called(sources, o) == sources)
      && (|sources| == 2 ==> sources == [Mekina, Jiji])
  {
    var sources := Requested(platform);
    if |sources| == 1 {
      CollectOne(sources[0], o);
      assert sources == [sources[0]];
    }
  }

  /** The response of an `/api/cars` request: a JSON array, or an `{error}` object with its status. */
  datatype Response = Status200(body: seq<Listing>) | Status400(error: string) | Status500(error: string)

  const QueryRequired: string := "Query parameter is required"
  const FetchFailed: string := "Failed to fetch car listings"

  /** `query` is truthy: present and not the empty string. */
  predicate HasQuery(query: Option<string>)
  {
    query.Some? && query.value != ""
  }

  /** The handler's answer: 400 without a query, else the merged list, or a generic 500 if a source threw. */
  function Respond(query: Option<string>, sources: seq<Source>, o: Outcomes): (r: Response)
    ensures r.Status400? <==> !HasQuery(query)
    ensures r.Status400? ==> r.error == QueryRequired
    ensures r.Status500? <==> HasQuery(query) && exists i :: 0 <= i < |sources| && o.Of(sources[i]).Err?
    ensures r.Status500? ==> r.error == FetchFailed
    ensures r.Status200? ==> |r.body| == TotalLength(sources, o)
  {
    if !HasQuery(query) then Status400(QueryRequired)
    else match Collect(sources, o)
      case Ok(cars) => Status200(cars)
      case Err(_) => Status500(FetchFailed)
  }

  /** The source calls a request makes: none without a query. */
  function CallsMade(query: Option<string>, sources: seq<Source>, o: Outcomes): (r: seq<Source>)
    ensures !HasQuery(query) ==> r == []
  {
    if HasQuery(query) then Called(sources, o) else []
  }

  /** An HTTP request to an upstream `/api/cars`, reduced to its two parameters. */
  datatype UpstreamRequest = UpstreamRequest(platform: string, query: string)

  /** The requests made for the given source calls: one per source, with that source's own name. */
  function RequestsFor(called: seq<Source>, query: string): (requests: seq<UpstreamRequest>)
    ensures |requests| == |called|
    ensures forall i :: 0 <= i < |called| ==>
      requests[i].platform == SourceName(called[i]) && requests[i].query == query
  {
    seq(|called|, i requires 0 <= i < |called| => UpstreamRequest(SourceName(called[i]), query))
  }

  /** Mekina asked and threw: the run ends there, with mekina's exception, having called mekina alone. */
  lemma MekinaThrew(platform: Option<string>, o: Outcomes, q: string)
    requires platform == Some("mekina") || platform == Some("both")
    requires o.mekina.Err?
    ensures Collect(Requested(platform), o) == o.mekina
    ensures Called(Requested(platform), o) == [Mekina]
    ensures RequestsFor(Called(Requested(platform), o), q) == [UpstreamRequest("mekina", q)]
  {
    var sources := Requested(platform);
    assert sources[0] == Mekina;
    RequestsForOne(Mekina, q);
  }

  /** Jiji asked and threw after mekina, if asked, resolved: the run ends with jiji's exception. */
  lemma JijiThrew(platform: Option<string>, o: Outcomes, q: string)
    requires platform == Some("jiji") || platform == Some("both")
    requires platform == Some("both") ==> o.mekina.Ok?
    requires o.jiji.Err?
    ensures Collect(Requested(platform), o) == o.jiji
    ensures Called(Requested(platform), o) == Requested(platform)
    ensures RequestsFor(Called(Requested(platform), o), q) ==
      if platform == Some("both") then [UpstreamRequest("mekina", q), UpstreamRequest("jiji", q)]
      else [UpstreamRequest("jiji", q)]
  {
    if platform == Some("both") {
      assert Requested(platform) == [Mekina, Jiji];
      CollectPair(o);
      RequestsForPair(q);
    } else {
      assert Requested(platform) == [Jiji];
      CollectOne(Jiji, o);
      RequestsForOne(Jiji, q);
    }
  }

  /** Every source asked resolved: the lists of the sources asked, mekina's first, after one request each. */
  lemma AllResolved(platform: Option<string>, o: Outcomes, q: string)
    requires platform == Some("mekina") || platform == Some("both") ==> o.mekina.Ok?
    requires platform == Some("jiji") || platform == Some("both") ==> o.jiji.Ok?
    ensures Called(Requested(platform), o) == Requested(platform)
    ensures Collect(Requested(platform), o) == Ok(
      if platform == Some("both") then o.mekina.value + o.jiji.value
      else if platform == Some("mekina") then o.mekina.value
      else if platform == Some("jiji") then o.jiji.value
      else [])
    ensures RequestsFor(Called(Requested(platform), o), q) ==
      if platform == Some("both") then [UpstreamRequest("mekina", q), UpstreamRequest("jiji", q)]
      else if platform == Some("mekina") then [UpstreamRequest("mekina", q)]
      else if platform == Some("jiji") then [UpstreamRequest("jiji", q)]
      else []
  {
    var sources := Requested(platform);
    if platform == Some("both") {
      assert sources == [Mekina, Jiji];
      CollectPair(o);
      RequestsForPair(q);
    } else if platform == Some("mekina") {
      assert sources == [Mekina];
      CollectOne(Mekina, o);
      RequestsForOne(Mekina, q);
    } else if platform == Some("jiji") {
      assert sources == [Jiji];
      CollectOne(Jiji, o);
      RequestsForOne(Jiji, q);
    } else {
      assert sources == [];
    }
  }

  lemma RequestsForPair(q: string)
    ensures RequestsFor([Mekina, Jiji], q) == [UpstreamRequest("mekina", q), UpstreamRequest("jiji", q)]
  {
  }

  lemma RequestsForOne(s: Source, q: string)
    ensures RequestsFor([s], q) == [UpstreamRequest(SourceName(s), q)]
  {
  }

  /** What an upstream answers to the single-source request for each source. */
  function UpstreamOutcomes(upstream: UpstreamRequest -> Result<seq<Listing>>, query: string): Outcomes
  {
    Outcomes(upstream(UpstreamRequest("mekina", query)), upstream(UpstreamRequest("jiji", query)))
  }

  /** A missing or empty query is answered 400 and calls no source. */
  lemma MissingQueryCallsNothing(query: Option<string>, platform: Option<string>, o: Outcomes)
    requires query.None? || query == Some("")
    ensures Respond(query, Requested(platform), o) == Status400(QueryRequired)
    ensures CallsMade(query, Requested(platform), o) == []
  {
  }

  /** With `both`, the answer is the mekina list followed by the jiji list, each in its own order. */
  lemma BothIsMekinaThenJiji(query: Option<string>, o: Outcomes)
    requires HasQuery(query) && o.mekina.Ok? && o.jiji.Ok?
    ensures Respond(query, Requested(Some("both")), o) == Status200(o.mekina.value + o.jiji.value)
    ensures CallsMade(query, Requested(Some("both")), o) == [Mekina, Jiji]
  {
    var both := Requested(Some("both"));
    assert both == [Mekina, Jiji];
    assert both[1..] == [Jiji];
    assert Collect([Jiji], o) == Ok(o.jiji.value + []);
    assert o.jiji.value + [] == o.jiji.value;
  }

  /** A single platform calls only its own source and answers with that source's list unchanged. */
  lemma SinglePlatformCallsOneSource(query: Option<string>, s: Source, o: Outcomes)
    requires HasQuery(query)
    ensures Requested(Some(SourceName(s))) == [s]
    ensures CallsMade(query, [s], o) == [s]
    ensures Respond(query, [s], o) == match o.Of(s)
      case Ok(cars) => Status200(cars)
      case Err(_) => Status500(FetchFailed)
  {
    assert [s][1..] == [];
    if o.Of(s).Ok? {
      assert o.Of(s).value + [] == o.Of(s).value;
    }
  }

  /** Any `platform` other than `mekina`, `jiji` or `both`, or none at all, gives 200 `[]` and calls no source. */
  lemma UnknownPlatformIsEmpty(query: Option<string>, platform: Option<string>, o: Outcomes)
    requires HasQuery(query)
    requires platform != Some("mekina") && platform != Some("jiji") && platform != Some("both")
    ensures Respond(query, Requested(platform), o) == Status200([])
    ensures CallsMade(query, Requested(platform), o) == []
  {
    assert Requested(platform) == [];
  }

  /** With `both`, a jiji failure discards the mekina list already fetched: the answer is the generic 500. */
  lemma JijiFailureDiscardsMekina(query: Option<string>, o: Outcomes)
    requires HasQuery(query) && o.mekina.Ok? && o.jiji.Err?
    ensures Respond(query, Requested(Some("both")), o) == Status500(FetchFailed)
    ensures CallsMade(query, Requested(Some("both")), o) == [Mekina, Jiji]
  {
    assert Requested(Some("both"))[1] == Jiji;
  }

  /** With `both`, a mekina failure answers 500 before jiji is ever called. */
  lemma MekinaFailureSkipsJiji(query: Option<string>, o: Outcomes)
    requires HasQuery(query) && o.mekina.Err?
    ensures Respond(query, Requested(Some("both")), o) == Status500(FetchFailed)
    ensures CallsMade(query, Requested(Some("both")), o) == [Mekina]
  {
    assert Requested(Some("both"))[0] == Mekina;
  }

  /** The client learns nothing of why a source threw: the response depends only on which sources threw and what the others returned. */
  lemma {:induction false} ResponseHidesCause(query: Option<string>, sources: seq<Source>, o: Outcomes, o': Outcomes)
    requires o.mekina.Ok? <==> o'.mekina.Ok?
    requires o.jiji.Ok? <==> o'.jiji.Ok?
    requires o.mekina.Ok? ==> o.mekina == o'.mekina
    requires o.jiji.Ok? ==> o.jiji == o'.jiji
    ensures Respond(query, sources, o) == Respond(query, sources, o')
    ensures CallsMade(query, sources, o) == CallsMade(query, sources, o')
  {
    SameOkSameCollect(sources, o, o');
    SameOkSameCalled(sources, o, o');
  }

  lemma {:induction false} SameOkSameCollect(sources: seq<Source>, o: Outcomes, o': Outcomes)
    requires forall s :: o.Of(s).Ok? <==> o'.Of(s).Ok?
    requires forall s :: o.Of(s).Ok? ==> o.Of(s) == o'.Of(s)
    ensures Collect(sources, o).Ok? <==> Collect(sources, o').Ok?
    ensures Collect(sources, o).Ok? ==> Collect(sources, o) == Collect(sources, o')
  {
    if sources != [] {
      SameOkSameCollect(sources[1..], o, o');
    }
  }

  lemma {:induction false} SameOkSameCalled(sources: seq<Source>, o: Outcomes, o': Outcomes)
    requires forall s :: o.Of(s).Ok? <==> o'.Of(s).Ok?
    ensures Called(sources, o) == Called(sources, o')
  {
    if sources != [] {
      SameOkSameCalled(sources[1..], o, o');
    }
  }
}
