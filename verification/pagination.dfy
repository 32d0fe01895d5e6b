/** The offset-paging aggregator: it requests pages of `limit` items at
    offsets 0, limit, 2*limit, ... until a page is not full, concatenating the
    array under one response key, and gives up on the first page whose status
    is not 200. The server is a finite sequence of HTTP responses: the k-th
    request made (counting from 0) is answered by `server[k]`. */
module Pagination {
  import opened Json
  import opened Fetch

  /** `${endpoint}?limit=${limit}&offset=${offset}${extraQuery}`. */
  function PageEndpoint(endpoint: string, limit: nat, offset: nat, extraQuery: string): string {
    endpoint + "?limit=" + NatToDecimal(limit) + "&offset=" + NatToDecimal(offset) + extraQuery
  }

  const GetOptions: RequestOptions := RequestOptions(Some("GET"), None, map[])

  /** The GET request for the page at `offset`. */
  function PageRequest(cfg: Config, endpoint: string, limit: nat, offset: nat, extraQuery: string): Request {
    PrepareRequest(cfg, PageEndpoint(endpoint, limit, offset, extraQuery), GetOptions)
  }

  /** The first n page requests, in order. */
  function PageRequests(cfg: Config, endpoint: string, limit: nat, extraQuery: string, n: nat): seq<Request> {
    if n == 0 then [] else PageRequests(cfg, endpoint, limit, extraQuery, n - 1) + [PageRequest(cfg, endpoint, limit, (n - 1) * limit, extraQuery)]
  }

  /** The k-th of the first n page requests asks for offset k * limit at the
      same endpoint, with the same limit and extra query. */
  lemma {:induction false} PageRequestsAt(cfg: Config, endpoint: string, limit: nat, extraQuery: string, n: nat, k: nat)
    requires k < n
    ensures |PageRequests(cfg, endpoint, limit, extraQuery, n)| == n
    ensures PageRequests(cfg, endpoint, limit, extraQuery, n)[k]
         == PrepareRequest(cfg, PageEndpoint(endpoint, limit, k * limit, extraQuery), GetOptions)
  {
    if k < n - 1 {
      PageRequestsAt(cfg, endpoint, limit, extraQuery, n - 1, k);
    } else if n > 1 {
      PageRequestsAt(cfg, endpoint, limit, extraQuery, n - 1, 0);
    }
  }

  lemma CancelAround(a: string, x: string, y: string, b: string)
    requires a + x + b == a + y + b
    ensures x == y
  {
    assert |x| == |y|;
    assert x == (a + x + b)[|a|..|a| + |x|];
    assert y == (a + y + b)[|a|..|a| + |y|];
  }

  /** Different offsets give different page URLs. */
  lemma PageEndpointInjective(endpoint: string, limit: nat, o1: nat, o2: nat, extraQuery: string)
    requires PageEndpoint(endpoint, limit, o1, extraQuery) == PageEndpoint(endpoint, limit, o2, extraQuery)
    ensures o1 == o2
  {
    var a := endpoint + "?limit=" + NatToDecimal(limit) + "&offset=";
    CancelAround(a, NatToDecimal(o1), NatToDecimal(o2), extraQuery);
    DecimalInjective(o1, o2);
  }

  /** The URL of the k-th page request. */
  lemma PageRequestUrl(cfg: Config, endpoint: string, limit: nat, extraQuery: string, n: nat, k: nat)
    requires k < n
    ensures |PageRequests(cfg, endpoint, limit, extraQuery, n)| == n
    ensures PageRequests(cfg, endpoint, limit, extraQuery, n)[k].url
         == cfg.baseUrl + PageEndpoint(endpoint, limit, k * limit, extraQuery)
  {
    PageRequestsAt(cfg, endpoint, limit, extraQuery, n, k);
  }

  lemma DistinctMultiples(i: nat, j: nat, limit: nat)
    requires limit > 0 && i != j
    ensures i * limit != j * limit
  {
    if i < j {
      assert j * limit == i * limit + (j - i) * limit;
    } else {
      assert i * limit == j * limit + (i - j) * limit;
    }
  }

  /** With a positive limit, no two page requests of one aggregation ask for
      the same URL. */
  lemma PageRequestsDistinct(cfg: Config, endpoint: string, limit: nat, extraQuery: string, n: nat, i: nat, j: nat)
    requires limit > 0
    requires i < n && j < n && i != j
    ensures |PageRequests(cfg, endpoint, limit, extraQuery, n)| == n
    ensures PageRequests(cfg, endpoint, limit, extraQuery, n)[i].url
         != PageRequests(cfg, endpoint, limit, extraQuery, n)[j].url
  {
    PageRequestUrl(cfg, endpoint, limit, extraQuery, n, i);
    PageRequestUrl(cfg, endpoint, limit, extraQuery, n, j);
    DistinctMultiples(i, j, limit);
    var ei := PageEndpoint(endpoint, limit, i * limit, extraQuery);
    var ej := PageEndpoint(endpoint, limit, j * limit, extraQuery);
    if cfg.baseUrl + ei == cfg.baseUrl + ej {
      CancelAround(cfg.baseUrl, ei, ej, "");
      PageEndpointInjective(endpoint, limit, i * limit, j * limit, extraQuery);
    }
  }

  /** `response.data?.[key] ?? []`: the page's array under `key`; an error
      envelope, a missing key or `null` gives no items. */
  function PageItems(page: ApiResponse, key: string): seq<Json> {
    match page
    case Failure(_, _) => []
    case Success(_, data) =>
      match Member(data, key)
      case Some(JArr(items)) => items
      case _ => []
  }

  /** A page after which no further page is requested. */
  predicate IsLastPage(page: ApiResponse, key: string, limit: nat) {
    page.status != 200 || |PageItems(page, key)| != limit
  }

  /** The server eventually answers with a last page. */
  predicate Terminates(server: seq<HttpResponse>, key: string, limit: nat) {
    exists k :: 0 <= k < |server| && IsLastPage(Normalise(server[k]), key, limit)
  }

  lemma TerminatesTail(server: seq<HttpResponse>, key: string, limit: nat)
    requires Terminates(server, key, limit)
    requires !IsLastPage(Normalise(server[0]), key, limit)
    ensures Terminates(server[1..], key, limit)
  {
  }

  /** The index of the page that ends the loop: every page before it was a
      full 200 page, and it is not. */
  function StopIndex(server: seq<HttpResponse>, key: string, limit: nat): (s: nat)
    requires Terminates(server, key, limit)
    ensures s < |server|
    ensures IsLastPage(Normalise(server[s]), key, limit)
    ensures forall j :: 0 <= j < s ==> !IsLastPage(Normalise(server[j]), key, limit)
    decreases |server|
  {
    if IsLastPage(Normalise(server[0]), key, limit) then 0
    else
      TerminatesTail(server, key, limit);
      var s := StopIndex(server[1..], key, limit);
      assert forall j :: 1 <= j <= s ==> server[j] == server[1..][j - 1];
      1 + s
  }

  /** The items of the first n pages, in order. */
  function Gathered(server: seq<HttpResponse>, key: string, n: nat): seq<Json>
    requires n <= |server|
  {
    if n == 0 then [] else Gathered(server, key, n - 1) + PageItems(Normalise(server[n - 1]), key)
  }

  /** `{count: items.length, [key]: items}`; a key named "count" overwrites
      the count, as in the object literal. */
  function SyntheticBody(key: string, items: seq<Json>): Json {
    JObj(map["count" := JNum(|items| as real)][key := JArr(items)])
  }

  /** What the aggregator resolves to: the last page itself when its status is
      not 200, otherwise a 200 envelope over every page's items. */
  function Aggregate(server: seq<HttpResponse>, key: string, limit: nat): ApiResponse
    requires Terminates(server, key, limit)
  {
    var s := StopIndex(server, key, limit);
    var last := Normalise(server[s]);
    if last.status != 200 then last else Success(200, SyntheticBody(key, Gathered(server, key, s + 1)))
  }

  /** A last page reached after full 200 pages only is the stopping page, and
      the aggregate is determined by it and the pages before it. */
  lemma AggregateAt(server: seq<HttpResponse>, key: string, limit: nat, k: nat)
    requires Terminates(server, key, limit)
    requires k <= StopIndex(server, key, limit)
    requires IsLastPage(Normalise(server[k]), key, limit)
    ensures k == StopIndex(server, key, limit)
    ensures Normalise(server[k]).status != 200 ==> Aggregate(server, key, limit) == Normalise(server[k])
    ensures Normalise(server[k]).status == 200 ==>
      Aggregate(server, key, limit) == Success(200, SyntheticBody(key, Gathered(server, key, k) + PageItems(Normalise(server[k]), key)))
  {
  }

  /** A full 200 page reached after full 200 pages only is not the stopping page. */
  lemma FullPageBeforeStop(server: seq<HttpResponse>, key: string, limit: nat, k: nat)
    requires Terminates(server, key, limit)
    requires k <= StopIndex(server, key, limit)
    requires !IsLastPage(Normalise(server[k]), key, limit)
    ensures k < StopIndex(server, key, limit)
  {
  }

  /** One more page request appends the request for the next offset. */
  lemma PageRequestsSnoc(cfg: Config, endpoint: string, limit: nat, extraQuery: string, k: nat, offset: nat)
    requires offset == k * limit
    ensures PageRequests(cfg, endpoint, limit, extraQuery, k + 1)
         == PageRequests(cfg, endpoint, limit, extraQuery, k) + [PageRequest(cfg, endpoint, limit, offset, extraQuery)]
  {
  }

  /** The aggregator. `sent` lists the requests it made, in order. */
  method FetchAllPaginated(cfg: Config, endpoint: string, key: string, limit: nat, extraQuery: string,
                           server: seq<HttpResponse>)
    returns (result: ApiResponse, sent: seq<Request>)
    requires Terminates(server, key, limit)
    ensures sent == PageRequests(cfg, endpoint, limit, extraQuery, StopIndex(server, key, limit) + 1)
    ensures result == Aggregate(server, key, limit)
  {
    var offset: nat := 0;
    var allItems: seq<Json> := [];
    var k: nat := 0;
    sent := [];
    ghost var s := StopIndex(server, key, limit);
    while true
      invariant k <= s
      invariant offset == k * limit
      invariant sent == PageRequests(cfg, endpoint, limit, extraQuery, k)
      invariant allItems == Gathered(server, key, k)
      decreases s - k
    {
      var request := PageRequest(cfg, endpoint, limit, offset, extraQuery);
      PageRequestsSnoc(cfg, endpoint, limit, extraQuery, k, offset);
      sent := sent + [request];
      assert sent == PageRequests(cfg, endpoint, limit, extraQuery, k + 1);
      var response := Normalise(server[k]);
      if response.status != 200 {
        AggregateAt(server, key, limit, k);
        return response, sent;
      }
      var items := PageItems(response, key);
      allItems := allItems + items;
      assert offset + limit == (k + 1) * limit;
      offset := offset + limit;
      if |items| != limit {
        AggregateAt(server, key, limit, k);
        break;
      }
      assert !IsLastPage(response, key, limit);
      FullPageBeforeStop(server, key, limit, k);
      k := k + 1;
    }
    result := Success(200, SyntheticBody(key, allItems));
  }

  /** While every page is a full 200 page, the items gathered number
      exactly pages times limit, matching the next offset. */
  lemma {:induction false} GatheredFullPages(server: seq<HttpResponse>, key: string, limit: nat, n: nat)
    requires n <= |server|
    requires forall j :: 0 <= j < n ==> !IsLastPage(Normalise(server[j]), key, limit)
    ensures |Gathered(server, key, n)| == n * limit
  {
    if n > 0 {
      GatheredFullPages(server, key, limit, n - 1);
      assert !IsLastPage(Normalise(server[n - 1]), key, limit);
    }
  }

  /** The first page whose status is not 200, even another 2xx, reached after
      full 200 pages only, is returned as it is, with nothing gathered so far. */
  lemma AbortsOnFirstNon200(server: seq<HttpResponse>, key: string, limit: nat, k: nat)
    requires k < |server|
    requires forall j :: 0 <= j < k ==> !IsLastPage(Normalise(server[j]), key, limit)
    requires server[k].status != 200
    ensures Terminates(server, key, limit)
    ensures StopIndex(server, key, limit) == k
    ensures Aggregate(server, key, limit) == Normalise(server[k])
  {
  }

  /** The synthetic body holds the items under the key, and their number
      under `count` unless the key is itself "count", which overwrites it. */
  lemma SyntheticBodyHoldsItems(key: string, items: seq<Json>)
    ensures Member(SyntheticBody(key, items), key) == Some(JArr(items))
    ensures key != "count" ==> Member(SyntheticBody(key, items), "count") == Some(JNum(|items| as real))
    ensures SyntheticBody(key, items).fields.Keys == {"count", key}
  {
  }

  /** A 200 result is the synthetic body over the in-order concatenation of
      every fetched page's items, the last page included; their number is a
      whole number of full pages plus the last page. */
  lemma SuccessCollectsEveryPage(server: seq<HttpResponse>, key: string, limit: nat)
    requires Terminates(server, key, limit)
    requires Aggregate(server, key, limit).status == 200
    ensures Normalise(server[StopIndex(server, key, limit)]).status == 200
    ensures Aggregate(server, key, limit)
         == Success(200, SyntheticBody(key, Gathered(server, key, StopIndex(server, key, limit) + 1)))
    ensures |Gathered(server, key, StopIndex(server, key, limit) + 1)|
         == StopIndex(server, key, limit) * limit + |PageItems(Normalise(server[StopIndex(server, key, limit)]), key)|
  {
    var s := StopIndex(server, key, limit);
    GatheredFullPages(server, key, limit, s);
    assert Gathered(server, key, s + 1) == Gathered(server, key, s) + PageItems(Normalise(server[s]), key);
  }

  /** The loop always fetches the first page, and a first page that is not
      full, empty or over-full alike, is the only one fetched. */
  lemma ShortOrLongFirstPageStops(server: seq<HttpResponse>, key: string, limit: nat)
    requires |server| > 0
    requires |PageItems(Normalise(server[0]), key)| != limit
    ensures Terminates(server, key, limit)
    ensures StopIndex(server, key, limit) == 0
  {
  }

  /** Pages of 50, 50 and 30 items with limit 50: three requests, 130 items. */
  lemma ThreePagesOf130(server: seq<HttpResponse>, key: string)
    requires |server| >= 3
    requires forall j :: 0 <= j < 3 ==> Normalise(server[j]).status == 200
    requires |PageItems(Normalise(server[0]), key)| == 50
    requires |PageItems(Normalise(server[1]), key)| == 50
    requires |PageItems(Normalise(server[2]), key)| == 30
    ensures Terminates(server, key, 50)
    ensures StopIndex(server, key, 50) + 1 == 3
    ensures Aggregate(server, key, 50).Success?
    ensures |Gathered(server, key, 3)| == 130
    ensures Member(Aggregate(server, key, 50).data, key) == Some(JArr(Gathered(server, key, 3)))
  {
    assert IsLastPage(Normalise(server[2]), key, 50);
    assert !IsLastPage(Normalise(server[0]), key, 50);
    assert !IsLastPage(Normalise(server[1]), key, 50);
    var s := StopIndex(server, key, 50);
    assert !(s < 2);
    assert Gathered(server, key, 1) == PageItems(Normalise(server[0]), key);
  }
}
