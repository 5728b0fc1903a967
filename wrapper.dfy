/**
 * get_places/google_places_wrapper/wrapper.py: the paginated query loop for
 * one circle, the request URL, and the top-level batching.
 * The HTTP layer is an oracle: the replies the API would give, in order.
 */
module GooglePlaces {
  import opened Wrappers
  import opened JsonValue
  import opened DekaTypes
  import opened Merge
  import opened Misc
  import Parallelise

  /** Sent as a URL argument to ask for a subsequent page. */
  const NextPageTokenRequestKey := "pagetoken"

  /** The endpoint and the (already stripped) access key from the configuration. */
  datatype ApiConfig = ApiConfig(endpointUrl: string, accessKey: string)

  /**
   * A decoded response body: its 'results' entry (None when the key is
   * missing) and its 'next_page_token' entry (None when the key is absent).
   */
  datatype Page = Page(results: Option<Json>, nextPageToken: Option<string>)

  /** One HTTP exchange: a transport failure, or a status code and a body (None when it is not JSON). */
  datatype HttpReply = TransportError | Reply(statusCode: int, body: Option<Page>)

  /** `_make_http_request`: anything but a 200 with a JSON body raises. */
  function MakeHttpRequest(reply: HttpReply): (r: Result<Page>)
    ensures r.Ok? <==> reply.Reply? && reply.statusCode == 200 && reply.body.Some?
    ensures r.Ok? ==> r.value == reply.body.value
  {
    match reply
    case TransportError => Err("request failed")
    case Reply(code, body) =>
      if code != 200 then Err("Google API returned non-200 code")
      else if body.None? then Err("response is not JSON")
      else Ok(body.value)
  }

  /** `_api_response_has_more_pages`: the 'next_page_token' key is present. */
  function HasMorePages(page: Page): bool
  {
    page.nextPageToken.Some?
  }

  /** `place['id']`, when the place is a dictionary with a string id. */
  function PlaceId(place: Json): Option<string>
  {
    match Get(place, "id")
    case Some(JStr(id)) => Some(id)
    case _ => None
  }

  /** `{place['id']: place for place in list_of_places}` */
  function PlacesById(places: seq<Json>): (r: Result<ResultSet>)
    ensures r.Ok? <==> forall i :: 0 <= i < |places| ==> PlaceId(places[i]).Some?
  {
    if places == [] then Ok(map[])
    else
      match PlacesById(places[..|places| - 1])
      case Err(e) => Err(e)
      case Ok(m) =>
        match PlaceId(places[|places| - 1])
        case None => Err("place without an id")
        case Some(id) => Ok(m[id := places[|places| - 1]])
  }

  /**
   * The comprehension keeps one entry per id, and on a repeated id the last
   * place with that id wins.
   */
  lemma {:induction false} PlacesByIdKeepsLast(places: seq<Json>)
    requires PlacesById(places).Ok?
    ensures forall i :: 0 <= i < |places| ==> PlaceId(places[i]).value in PlacesById(places).value
    ensures forall id :: id in PlacesById(places).value ==> LastWithId(places, id, PlacesById(places).value[id])
  {
    if places != [] {
      var front := places[..|places| - 1];
      var last := places[|places| - 1];
      assert places == front + [last];
      PlacesByIdKeepsLast(front);
      var m := PlacesById(front).value;
      var id := PlaceId(last).value;
      var r := PlacesById(places).value;
      assert r == m[id := last];
      forall i | 0 <= i < |places| ensures PlaceId(places[i]).value in r {
        if i < |front| {
          assert places[i] == front[i];
        }
      }
      forall k | k in r ensures LastWithId(places, k, r[k]) {
        if k != id {
          LastWithIdKept(front, last, k, m[k]);
        } else {
          LastWithIdNew(front, last, k);
        }
      }
    }
  }

  lemma LastWithIdKept(front: seq<Json>, last: Json, id: string, place: Json)
    requires LastWithId(front, id, place) && PlaceId(last) != Some(id)
    ensures LastWithId(front + [last], id, place)
  {
    var j :| 0 <= j < |front| && PlaceId(front[j]) == Some(id) && place == front[j]
             && forall j' :: j < j' < |front| ==> PlaceId(front[j']) != Some(id);
    assert (front + [last])[j] == front[j];
    assert forall j' :: j < j' < |front| + 1 ==> PlaceId((front + [last])[j']) != Some(id);
  }

  lemma LastWithIdNew(front: seq<Json>, last: Json, id: string)
    requires PlaceId(last) == Some(id)
    ensures LastWithId(front + [last], id, last)
  {
    assert (front + [last])[|front|] == last;
  }

  /** `place` is the last element of `places` whose id is `id`. */
  ghost predicate LastWithId(places: seq<Json>, id: string, place: Json)
  {
    exists j :: 0 <= j < |places| && PlaceId(places[j]) == Some(id) && place == places[j]
         && forall j' :: j < j' < |places| ==> PlaceId(places[j']) != Some(id)
  }

  /**
   * Lines 70-77 for one reply: the page's places keyed by id and, when the
   * page has more, the token to ask for next. Err is the exception the `try` catches.
   */
  function ReadPage(reply: HttpReply): (r: Result<(ResultSet, Option<string>)>)
    ensures r.Ok? <==> && MakeHttpRequest(reply).Ok?
                       && PlaceList(MakeHttpRequest(reply).value).Some?
                       && PlacesById(PlaceList(MakeHttpRequest(reply).value).value).Ok?
    ensures r.Ok? ==> var page := MakeHttpRequest(reply).value;
                      r.value == (PlacesById(PlaceList(page).value).value, page.nextPageToken)
    ensures r.Ok? ==> r.value.1.Some? == HasMorePages(MakeHttpRequest(reply).value)
  {
    match MakeHttpRequest(reply)
    case Err(e) => Err(e)
    case Ok(page) =>
      match PlaceList(page)
      case None => Err("KeyError: 'results', or 'results' is not iterable")
      case Some(list) =>
        match PlacesById(list)
        case Err(e) => Err(e)
        case Ok(placesDict) =>
          Ok((placesDict, if HasMorePages(page) then page.nextPageToken else None))
  }

  /** `page_result['results']` as the comprehension of line 72 iterates it. */
  function PlaceList(page: Page): (r: Option<seq<Json>>)
    ensures r.Some? <==> page.results.Some? && Elements(page.results.value).Some?
  {
    if page.results.None? then None else Elements(page.results.value)
  }

  /** `"&k=v"` for every parameter, in insertion order. */
  function QueryString(params: seq<(string, string)>): string
  {
    if params == [] then ""
    else QueryString(params[..|params| - 1]) + QueryParam(params[|params| - 1].0, params[|params| - 1].1)
  }

  function ApiUrl(config: ApiConfig, params: seq<(string, string)>): string
  {
    config.endpointUrl + "?key=" + config.accessKey + QueryString(params)
  }

  /** `_build_api_url`: the endpoint and key, then one `&k=v` per parameter. */
  method BuildApiUrl(config: ApiConfig, params: seq<(string, string)>) returns (base: string)
    ensures base == ApiUrl(config, params)
  {
    base := config.endpointUrl + "?key=" + config.accessKey;
    for i := 0 to |params|
      invariant base == config.endpointUrl + "?key=" + config.accessKey + QueryString(params[..i])
    {
      assert params[..i + 1] == params[..i] + [params[i]];
      QueryStringAppend(params[..i], params[i].0, params[i].1);
      base := base + "&" + params[i].0 + "=" + params[i].1;
    }
    assert params[..|params|] == params;
  }

  /** Lines 64-66: location, then radius, then the page token when it is non-empty. */
  function RequestParams(circle: Circle, token: Option<string>): seq<(string, string)>
  {
    [("location", Render(circle.lat) + "," + Render(circle.lng)), ("radius", Render(circle.radius))]
    + (if token.Some? && token.value != "" then [(NextPageTokenRequestKey, token.value)] else [])
  }

  lemma QueryStringAppend(params: seq<(string, string)>, k: string, v: string)
    ensures QueryString(params + [(k, v)]) == QueryString(params) + QueryParam(k, v)
  {
    assert (params + [(k, v)])[..|params|] == params;
  }

  /** The URL of a request: location precedes radius, which precedes the page token. */
  lemma UrlLayout(config: ApiConfig, circle: Circle, token: Option<string>)
    ensures ApiUrl(config, RequestParams(circle, token))
         == config.endpointUrl + "?key=" + config.accessKey
            + QueryParam("location", Render(circle.lat) + "," + Render(circle.lng))
            + QueryParam("radius", Render(circle.radius))
            + (if token.Some? && token.value != "" then QueryParam(NextPageTokenRequestKey, token.value) else "")
  {
    var base := config.endpointUrl + "?key=" + config.accessKey;
    var p1 := QueryParam("location", Render(circle.lat) + "," + Render(circle.lng));
    var p2 := QueryParam("radius", Render(circle.radius));
    var p3 := if token.Some? && token.value != "" then QueryParam(NextPageTokenRequestKey, token.value) else "";
    RequestQueryString(circle, token);
    assert ApiUrl(config, RequestParams(circle, token)) == base + (p1 + p2 + p3);
    ConcatRegroup(base, p1, p2, p3);
  }

  lemma ConcatRegroup(base: string, a: string, b: string, c: string)
    ensures base + (a + b + c) == base + a + b + c
  {
  }

  /** The query string of a request: location, radius, then the page token if any. */
  lemma RequestQueryString(circle: Circle, token: Option<string>)
    ensures QueryString(RequestParams(circle, token))
         == QueryParam("location", Render(circle.lat) + "," + Render(circle.lng))
            + QueryParam("radius", Render(circle.radius))
            + (if token.Some? && token.value != "" then QueryParam(NextPageTokenRequestKey, token.value) else "")
  {
    var loc := Render(circle.lat) + "," + Render(circle.lng);
    var rad := Render(circle.radius);
    var none: seq<(string, string)> := [];
    var one := [("location", loc)];
    var two := [("location", loc), ("radius", rad)];
    QueryStringAppend(none, "location", loc);
    assert none + [("location", loc)] == one;
    QueryStringAppend(one, "radius", rad);
    assert one + [("radius", rad)] == two;
    var p1, p2 := QueryParam("location", loc), QueryParam("radius", rad);
    assert QueryString(two) == p1 + p2 by { assert QueryString(none) == ""; assert "" + p1 == p1; }
    if token.Some? && token.value != "" {
      QueryStringAppend(two, NextPageTokenRequestKey, token.value);
      assert RequestParams(circle, token) == two + [(NextPageTokenRequestKey, token.value)];
    } else {
      assert RequestParams(circle, token) == two;
      assert p1 + p2 + "" == p1 + p2;
    }
  }

  /** One `&k=v` pair. */
  function QueryParam(k: string, v: string): string
  {
    "&" + k + "=" + v
  }

  /**
   * The whole loop of `_query_single_circle` as a function of the replies:
   * the merged places and the URLs requested. An exhausted oracle is a
   * failed request.
   */
  function Crawl(config: ApiConfig, circle: Circle, token: Option<string>, replies: seq<HttpReply>)
    : (ResultSet, seq<string>)
    decreases |replies|
  {
    var url := ApiUrl(config, RequestParams(circle, token));
    if replies == [] then (map[], [url])
    else
      match ReadPage(replies[0])
      case Err(_) => (map[], [url])
      case Ok((placesDict, next)) =>
        if next.None? then (placesDict, [url])
        else
          var (rest, urls) := Crawl(config, circle, next, replies[1..]);
          (placesDict + rest, [url] + urls)
  }

  /**
   * Part way through the loop: the whole crawl is what has been merged and
   * requested so far, followed by the crawl still to come from `token` on.
   */
  ghost predicate Pending(config: ApiConfig, circle: Circle, replies: seq<HttpReply>,
                          acc: ResultSet, sent: seq<string>, token: Option<string>, rest: seq<HttpReply>)
  {
    var later := Crawl(config, circle, token, rest);
    Crawl(config, circle, None, replies) == (acc + later.0, sent + later.1)
  }

  /** `_query_single_circle`: request pages until one has no token or a step raises. */
  method QuerySingleCircle(config: ApiConfig, circle: Circle, replies: seq<HttpReply>)
    returns (allPagesResult: ResultSet, sent: seq<string>)
    ensures (allPagesResult, sent) == Crawl(config, circle, None, replies)
  {
    allPagesResult := map[];
    sent := [];
    var nextPageToken: Option<string> := None;
    var hasNextPage := true;
    var i := 0;
    PendingAtStart(config, circle, replies);
    while hasNextPage
      invariant 0 <= i <= |replies|
      invariant hasNextPage ==> Pending(config, circle, replies, allPagesResult, sent, nextPageToken, replies[i..])
      invariant !hasNextPage ==> Crawl(config, circle, None, replies) == (allPagesResult, sent)
      decreases |replies| - i, hasNextPage
    {
      ghost var acc0, sent0, token0, rest0 := allPagesResult, sent, nextPageToken, replies[i..];
      var params := [("location", Render(circle.lat) + "," + Render(circle.lng)), ("radius", Render(circle.radius))];
      if nextPageToken.Some? && nextPageToken.value != "" {
        params := params + [(NextPageTokenRequestKey, nextPageToken.value)];
      }
      assert params == RequestParams(circle, token0);
      var url := BuildApiUrl(config, params);
      sent := sent + [url];
      if i == |replies| {
        PendingStops(config, circle, replies, acc0, sent0, token0, rest0);
        hasNextPage := false;
      } else {
        var reply := replies[i];
        assert rest0[0] == reply && rest0[1..] == replies[i + 1..];
        i := i + 1;
        var outcome := ReadPage(reply);
        if outcome.Err? {
          PendingStops(config, circle, replies, acc0, sent0, token0, rest0);
          hasNextPage := false;
        } else {
          var placesDict := outcome.value.0;
          var next := outcome.value.1;
          PendingContinues(config, circle, replies, acc0, sent0, token0, rest0);
          allPagesResult := allPagesResult + placesDict;
          hasNextPage := next.Some?;
          nextPageToken := next;
        }
      }
    }
  }

  lemma PendingAtStart(config: ApiConfig, circle: Circle, replies: seq<HttpReply>)
    ensures Pending(config, circle, replies, map[], [], None, replies)
  {
    var whole := Crawl(config, circle, None, replies);
    assert map[] + whole.0 == whole.0;
    assert [] + whole.1 == whole.1;
  }

  /** The request fails or finds no reply: the loop ends with what it has. */
  lemma PendingStops(config: ApiConfig, circle: Circle, replies: seq<HttpReply>,
                     acc: ResultSet, sent: seq<string>, token: Option<string>, rest: seq<HttpReply>)
    requires Pending(config, circle, replies, acc, sent, token, rest)
    requires rest == [] || ReadPage(rest[0]).Err?
    ensures Crawl(config, circle, None, replies) == (acc, sent + [ApiUrl(config, RequestParams(circle, token))])
  {
    CrawlStops(config, circle, token, rest);
    assert acc + map[] == acc;
  }

  /** The page reads well: its places are merged, and its token decides whether the loop goes on. */
  lemma PendingContinues(config: ApiConfig, circle: Circle, replies: seq<HttpReply>,
                         acc: ResultSet, sent: seq<string>, token: Option<string>, rest: seq<HttpReply>)
    requires Pending(config, circle, replies, acc, sent, token, rest)
    requires rest != [] && ReadPage(rest[0]).Ok?
    ensures var (placesDict, next) := ReadPage(rest[0]).value;
            var url := ApiUrl(config, RequestParams(circle, token));
            && (next.None? ==> Crawl(config, circle, None, replies) == (acc + placesDict, sent + [url]))
            && (next.Some? ==> Pending(config, circle, replies, acc + placesDict, sent + [url], next, rest[1..]))
  {
    var (placesDict, next) := ReadPage(rest[0]).value;
    var url := ApiUrl(config, RequestParams(circle, token));
    CrawlContinues(config, circle, token, rest);
    if next.Some? {
      var later := Crawl(config, circle, next, rest[1..]);
      RegroupPage(acc, sent, placesDict, url, later.0, later.1);
    }
  }

  /** Merging and requesting a page, then the rest, regroups either way. */
  lemma RegroupPage(acc: ResultSet, sent: seq<string>, page: ResultSet, url: string,
                    later: ResultSet, urls: seq<string>)
    ensures (acc + (page + later), sent + ([url] + urls)) == (acc + page + later, sent + [url] + urls)
  {
    assert acc + (page + later) == acc + page + later;
    assert sent + ([url] + urls) == sent + [url] + urls;
  }

  /** A request that fails, or finds the oracle exhausted, ends the crawl with nothing. */
  lemma CrawlStops(config: ApiConfig, circle: Circle, token: Option<string>, replies: seq<HttpReply>)
    requires replies == [] || ReadPage(replies[0]).Err?
    ensures Crawl(config, circle, token, replies) == (map[], [ApiUrl(config, RequestParams(circle, token))])
  {
  }

  /** A page that reads well contributes its places and, with a token, the rest of the crawl. */
  lemma CrawlContinues(config: ApiConfig, circle: Circle, token: Option<string>, replies: seq<HttpReply>)
    requires replies != [] && ReadPage(replies[0]).Ok?
    ensures var (placesDict, next) := ReadPage(replies[0]).value;
            var url := ApiUrl(config, RequestParams(circle, token));
            Crawl(config, circle, token, replies)
            == if next.None? then (placesDict, [url])
               else (placesDict + Crawl(config, circle, next, replies[1..]).0,
                     [url] + Crawl(config, circle, next, replies[1..]).1)
  {
  }


  /**
   * The pages a crawl reads, in order: replies that parse, up to the first
   * one that fails or the first one without a next-page token.
   */
  function Fetched(replies: seq<HttpReply>): (f: seq<(ResultSet, Option<string>)>)
    ensures |f| <= |replies|
    ensures forall j :: 0 <= j < |f| ==> ReadPage(replies[j]) == Ok(f[j])
    ensures forall j :: 0 <= j < |f| - 1 ==> f[j].1.Some?
  {
    if replies == [] then []
    else
      match ReadPage(replies[0])
      case Err(_) => []
      case Ok(p) => if p.1.None? then [p] else [p] + Fetched(replies[1..])
  }

  /** `Fetched` stops only where the loop does: at a reply that fails, or
      just after a page without a continuation token. */
  lemma {:induction false} FetchedStops(replies: seq<HttpReply>)
    ensures var f := Fetched(replies);
            |f| < |replies| ==> ReadPage(replies[|f|]).Err? || (f != [] && f[|f| - 1].1.None?)
  {
    if replies != [] && ReadPage(replies[0]).Ok? && ReadPage(replies[0]).value.1.Some? {
      var rest := Fetched(replies[1..]);
      FetchedStops(replies[1..]);
      assert Fetched(replies) == [ReadPage(replies[0]).value] + rest;
      if |rest| < |replies| - 1 {
        assert replies[1..][|rest|] == replies[|rest| + 1];
      }
      if rest != [] {
        assert Fetched(replies)[|rest|] == rest[|rest| - 1];
      }
    }
  }

  /** The places dictionaries of the fetched pages. */
  function Dicts(f: seq<(ResultSet, Option<string>)>): (ds: seq<ResultSet>)
    ensures |ds| == |f| && forall j :: 0 <= j < |f| ==> ds[j] == f[j].0
  {
    if f == [] then [] else [f[0].0] + Dicts(f[1..])
  }

  /**
   * `all_pages_result` is the pages' dictionaries folded with `update` in page
   * order: a later page overrides an earlier one on a shared id, and a failed
   * request keeps every page read before it.
   */
  lemma {:induction false} CrawlMergesPages(config: ApiConfig, circle: Circle, token: Option<string>,
                                            replies: seq<HttpReply>)
    ensures Crawl(config, circle, token, replies).0 == UpdateAll(Dicts(Fetched(replies)))
    decreases |replies|
  {
    if replies == [] || ReadPage(replies[0]).Err? {
      CrawlStops(config, circle, token, replies);
    } else {
      var p := ReadPage(replies[0]).value;
      CrawlContinues(config, circle, token, replies);
      FetchedFirst(replies);
      UpdateAllOne(p.0);
      if p.1.Some? {
        var rest := Dicts(Fetched(replies[1..]));
        CrawlMergesPages(config, circle, p.1, replies[1..]);
        UpdateAllAppend([p.0], rest);
      }
    }
  }

  /** The first page read heads the fetched pages, and ends them when it has no token. */
  lemma FetchedFirst(replies: seq<HttpReply>)
    requires replies != [] && ReadPage(replies[0]).Ok?
    ensures var p := ReadPage(replies[0]).value;
            Dicts(Fetched(replies)) == if p.1.None? then [p.0] else [p.0] + Dicts(Fetched(replies[1..]))
  {
    var p := ReadPage(replies[0]).value;
    if p.1.None? {
      assert Fetched(replies) == [p];
    } else {
      var rest := Fetched(replies[1..]);
      assert Fetched(replies) == [p] + rest;
      DictsCons(p, rest);
    }
  }

  lemma DictsCons(p: (ResultSet, Option<string>), f: seq<(ResultSet, Option<string>)>)
    ensures Dicts([p] + f) == [p.0] + Dicts(f)
  {
    assert ([p] + f)[1..] == f;
  }

  /**
   * The first request carries the starting token, each further request the
   * token of the page before it; one request is made per fetched page, plus
   * the final one that failed unless the last page had no token.
   */
  lemma {:induction false} CrawlRequests(config: ApiConfig, circle: Circle, token: Option<string>,
                                         replies: seq<HttpReply>)
    ensures var urls := Crawl(config, circle, token, replies).1;
            var f := Fetched(replies);
            && |urls| == (if f != [] && f[|f| - 1].1.None? then |f| else |f| + 1)
            && urls[0] == ApiUrl(config, RequestParams(circle, token))
            && forall j :: 0 <= j < |urls| - 1 ==> urls[j + 1] == ApiUrl(config, RequestParams(circle, f[j].1))
    decreases |replies|
  {
    if replies != [] && ReadPage(replies[0]).Ok? {
      var p := ReadPage(replies[0]).value;
      CrawlContinues(config, circle, token, replies);
      if p.1.Some? {
        CrawlRequests(config, circle, p.1, replies[1..]);
        var f, g := Fetched(replies), Fetched(replies[1..]);
        assert f == [p] + g;
        var later := Crawl(config, circle, p.1, replies[1..]).1;
        var urls := [ApiUrl(config, RequestParams(circle, token))] + later;
        assert Crawl(config, circle, token, replies).1 == urls;
        forall j | 0 <= j < |urls| - 1
          ensures urls[j + 1] == ApiUrl(config, RequestParams(circle, f[j].1))
        {
          if j > 0 {
            assert urls[j + 1] == later[j] && f[j] == g[j - 1];
          }
        }
      }
    }
  }

  /**
   * Pages 1..k-1 read well and carry a token, and page k reads well without
   * one: exactly k requests are made, the pages read are exactly those k, and
   * the result merges their dictionaries in page order.
   */
  lemma ExactlyKRequests(config: ApiConfig, circle: Circle, token: Option<string>,
                         replies: seq<HttpReply>, k: nat)
    requires 1 <= k <= |replies|
    requires forall j :: 0 <= j < k ==> ReadPage(replies[j]).Ok?
    requires forall j :: 0 <= j < k - 1 ==> ReadPage(replies[j]).value.1.Some?
    requires ReadPage(replies[k - 1]).value.1.None?
    ensures |Fetched(replies)| == k
    ensures forall j :: 0 <= j < k ==> Fetched(replies)[j] == ReadPage(replies[j]).value
    ensures |Crawl(config, circle, token, replies).1| == k
    ensures Crawl(config, circle, token, replies).0 == UpdateAll(Dicts(Fetched(replies)))
  {
    var f := Fetched(replies);
    FetchedStops(replies);
    assert |f| == k;
    CrawlRequests(config, circle, token, replies);
    CrawlMergesPages(config, circle, token, replies);
  }

  /** At most one request more than there are replies: the crawl always ends. */
  lemma RequestBound(config: ApiConfig, circle: Circle, token: Option<string>, replies: seq<HttpReply>)
    ensures 1 <= |Crawl(config, circle, token, replies).1| <= |replies| + 1
  {
    CrawlRequests(config, circle, token, replies);
  }

  /** The query every worker runs for a circle: the crawl against that circle's replies. */
  function CircleQuery(config: ApiConfig, oracle: Circle -> seq<HttpReply>): Circle -> ResultSet
  {
    c => Crawl(config, c, None, oracle(c)).0
  }

  /**
   * `query_google_places`: `len(circles) // cpu_count()` circles per batch,
   * one worker per batch. A zero batch size makes `split_to_batches` raise.
   * Since workers drop batches shorter than 30, exactly the circles of the
   * short batches are never queried: all of them when the batch size is below
   * 30, otherwise the final remainder batch when it is shorter than 30.
   */
  method QueryGooglePlaces(config: ApiConfig, circles: seq<Circle>, cpuCount: nat,
                           oracle: Circle -> seq<HttpReply>)
    returns (result: Result<ResultSet>, calls: seq<Circle>)
    requires cpuCount > 0
    ensures result.Err? <==> |circles| < cpuCount
    ensures result.Err? ==> calls == []
    ensures result.Ok? ==> MergeOf(result.value, Parallelise.Results(CircleQuery(config, oracle), calls))
    ensures result.Ok? ==> calls == QueriedCircles(circles, |circles| / cpuCount)
  {
    var itemsPerBatch := |circles| / cpuCount;
    ZeroBatchSize(|circles|, cpuCount);
    if itemsPerBatch == 0 {
      return Err("range() arg 3 must not be zero"), [];
    }
    var batches := SplitToBatches(circles, itemsPerBatch);
    var r;
    r, calls := Parallelise.Parallelise(batches, CircleQuery(config, oracle));
    QueriedCirclesIsLongBatches(circles, itemsPerBatch);
    result := Ok(r);
  }

  /** `len // cpu` is 0 exactly when there are fewer items than processors. */
  lemma ZeroBatchSize(len: nat, cpu: nat)
    requires cpu > 0
    ensures len / cpu == 0 <==> len < cpu
  {
    if len < cpu {
      DivUnique(len, cpu, 0, len);
    }
  }

  /** The circles that survive batching into batches of `n`. */
  function QueriedCircles(circles: seq<Circle>, n: nat): (q: seq<Circle>)
    requires n > 0
    ensures n < 30 ==> q == []
    ensures n >= 30 ==> q == circles[..|circles| - ShortTail(|circles|, n)]
  {
    if n < 30 then [] else circles[..|circles| - ShortTail(|circles|, n)]
  }

  /** The length of the final batch when it is shorter than 30, else 0. */
  function ShortTail(len: nat, n: nat): (t: nat)
    requires n > 0
    ensures t <= len
  {
    if len % n < 30 then len % n else 0
  }

  lemma QueriedCirclesIsLongBatches(circles: seq<Circle>, n: nat)
    requires n > 0
    ensures Flatten(Parallelise.LongBatches(SplitToBatches(circles, n))) == QueriedCircles(circles, n)
  {
    if n < 30 {
      Parallelise.ShortBatchesAllDropped(SplitToBatches(circles, n), n);
    } else {
      LongBatchesOfSplit(circles, n);
    }
  }

  lemma {:induction false} LongBatchesOfSplit(circles: seq<Circle>, n: nat)
    requires n >= 30
    ensures Flatten(Parallelise.LongBatches(SplitToBatches(circles, n))) == circles[..|circles| - ShortTail(|circles|, n)]
    decreases |circles|
  {
    if |circles| <= n {
      SingleBatch(circles, n);
    } else {
      var rest := circles[n..];
      LongBatchesOfSplit(rest, n);
      FirstBatchKept(circles, n);
      KeptPrefixStep(circles, n);
    }
  }

  /** Dropping the first batch leaves the same short tail. */
  lemma KeptPrefixStep(circles: seq<Circle>, n: nat)
    requires n >= 30 && |circles| > n
    ensures var rest := circles[n..];
            circles[..n] + rest[..|rest| - ShortTail(|rest|, n)] == circles[..|circles| - ShortTail(|circles|, n)]
  {
    var rest := circles[n..];
    ModStep(|circles|, n);
    assert ShortTail(|rest|, n) == ShortTail(|circles|, n);
    var t := ShortTail(|circles|, n);
    assert circles[..n] + circles[n..][..|rest| - t] == circles[..|circles| - t];
  }

  /** An input of at most `n` circles is one batch, kept when it has 30 or more. */
  lemma SingleBatch(circles: seq<Circle>, n: nat)
    requires n >= 30 && |circles| <= n
    ensures Flatten(Parallelise.LongBatches(SplitToBatches(circles, n))) == circles[..|circles| - ShortTail(|circles|, n)]
  {
    if circles != [] {
      assert SplitToBatches(circles, n) == [circles];
      var none: seq<seq<Circle>> := [];
      assert [circles][..0] == none;
      if |circles| == n {
        DivUnique(|circles|, n, 1, 0);
      } else {
        DivUnique(|circles|, n, 0, |circles|);
      }
      assert Flatten([circles]) == circles + Flatten(none);
    }
  }

  /** A batch of `n` circles at the front is kept, before whatever the rest keeps. */
  lemma FirstBatchKept(circles: seq<Circle>, n: nat)
    requires n >= 30 && |circles| > n
    ensures Flatten(Parallelise.LongBatches(SplitToBatches(circles, n)))
         == circles[..n] + Flatten(Parallelise.LongBatches(SplitToBatches(circles[n..], n)))
  {
    var rest := SplitToBatches(circles[n..], n);
    assert SplitToBatches(circles, n) == [circles[..n]] + rest;
    Parallelise.LongBatchesAppend([circles[..n]], rest);
    Parallelise.LongBatchesOfLong([circles[..n]]);
    FlattenAppend([circles[..n]], Parallelise.LongBatches(rest));
    var none: seq<seq<Circle>> := [];
    assert Flatten([circles[..n]]) == circles[..n] + Flatten(none);
  }

  /**
   * `query_google_places` with the batch size kept at 1 or more and every
   * worker using at least 1 circle per thread: every circle is queried.
   */
  method QueryGooglePlacesCorrected(config: ApiConfig, circles: seq<Circle>, cpuCount: nat,
                                    oracle: Circle -> seq<HttpReply>)
    returns (result: ResultSet, calls: seq<Circle>)
    requires cpuCount > 0
    ensures calls == circles
    ensures MergeOf(result, Parallelise.Results(CircleQuery(config, oracle), circles))
  {
    var itemsPerBatch := if |circles| / cpuCount == 0 then 1 else |circles| / cpuCount;
    var batches := SplitToBatches(circles, itemsPerBatch);
    result, calls := Parallelise.ParalleliseCorrected(batches, CircleQuery(config, oracle));
  }

  /** 61 circles on 2 processors: batches of 30, 30 and 1; the last circle is never queried. */
  lemma RemainderCircleDropped(circles: seq<Circle>)
    requires |circles| == 61
    ensures Flatten(Parallelise.LongBatches(SplitToBatches(circles, 61 / 2))) == circles[..60]
  {
    QueriedCirclesIsLongBatches(circles, 30);
    assert ShortTail(61, 30) == 1 by { DivUnique(61, 30, 2, 1); }
  }

  /** 10 circles on 1 processor: a single batch of 10, and nothing is queried. */
  lemma SmallInputDropped(circles: seq<Circle>)
    requires |circles| == 10
    ensures Flatten(Parallelise.LongBatches(SplitToBatches(circles, 10 / 1))) == []
  {
    QueriedCirclesIsLongBatches(circles, 10);
  }
}
