/** The Vestro API client (vestro_api/cliente.go): the paginated fetch every
    getter goes through, the seven getters and the classification of the
    authentication response. The network is an oracle: the fetch receives
    the responses the server would give to its successive page requests,
    in order, and returns the requests it issued. */
module VestroApi {
  import opened Wrappers
  import opened Errors
  import opened Strconv
  import opened TimeFormat
  import opened Dto

  /** Records per page, and the step of the offset. */
  const PageLimit: nat := 100

  /** One answer of the server to a page request, as far as the client looks
      at it: the HTTP status, whether the body could be read, whether the
      envelope {success, data, count} decoded, its success flag, whether the
      data array decoded into records, and those records. NoResponse is a
      failed HTTP call. */
  datatype PageResponse<R> =
    | NoResponse
    | Page(status: int, bodyRead: bool, envelopeDecodes: bool, success: bool,
           dataDecodes: bool, items: seq<R>)

  /** A GET request: the path below the base URL, the offset and the start
      date its query is built from (see Query), and the Authorization
      header. */
  datatype PageRequest = PageRequest(path: string, start: int, since: UtcTime, authorization: string)

  function Bearer(token: string): string {
    "Bearer " + token
  }

  /** The query of the page at offset start. */
  function PageQuery(start: int, since: UtcTime): (q: map<string, string>)
    ensures q.Keys == {"start", "limit", "sort"} + (if IsZero(since) then {} else {"startDate"})
    ensures q["start"] == Itoa(start) && q["limit"] == Itoa(PageLimit) && q["sort"] == "true"
    ensures !IsZero(since) ==> q["startDate"] == FormatStartDate(since)
  {
    var q := map["start" := Itoa(start), "limit" := Itoa(PageLimit), "sort" := "true"];
    if IsZero(since) then q else q["startDate" := FormatStartDate(since)]
  }

  /** The query parameters a request is sent with. */
  function Query(rq: PageRequest): map<string, string> {
    PageQuery(rq.start, rq.since)
  }

  /** A query carries startDate exactly when since is not the zero time. */
  lemma QueryParameters(start: int, since: UtcTime)
    ensures "startDate" in PageQuery(start, since) <==> !IsZero(since)
  {
  }

  /** start and limit read back as the numbers they encode. */
  lemma QueryNumbers(start: int, since: UtcTime)
    requires 0 <= start <= Int64Max
    ensures var q := PageQuery(start, since);
      && Atoi(q["start"]) == Success(start) && Atoi(q["limit"]) == Success(PageLimit)
  {
    var q := PageQuery(start, since);
    assert q["start"] == Itoa(start) && q["limit"] == Itoa(PageLimit);
    AtoiItoa(start);
    AtoiItoa(PageLimit);
  }

  /** The response passes every check of the loop and its records are appended. */
  predicate Accepted<R>(p: PageResponse<R>) {
    p.Page? && p.status == 200 && p.bodyRead && p.envelopeDecodes && p.success && p.dataDecodes
  }

  /** An accepted page of at least PageLimit records: the loop asks for the next one. */
  predicate Full<R>(p: PageResponse<R>) {
    Accepted(p) && PageLimit <= |p.items|
  }

  /** The error a rejected response ends the fetch with; the checks are made
      in this order. */
  function PageError<R>(path: string, p: PageResponse<R>): Error
    requires !Accepted(p)
  {
    if p.NoResponse? then RequestFailed(path)
    else if p.status != 200 then BadStatus(path, p.status)
    else if !p.bodyRead then BodyUnreadable
    else if !p.envelopeDecodes then EnvelopeUndecodable(path)
    else if !p.success then NotSuccessful(path)
    else DataUndecodable(path)
  }

  /** The index of the first response that is not a full page (|pages| if
      every one is). */
  function StopIndex<R>(pages: seq<PageResponse<R>>): (n: nat)
    ensures n <= |pages|
    ensures forall k :: 0 <= k < n ==> Full(pages[k])
    ensures n < |pages| ==> !Full(pages[n])
  {
    StopIndexFrom(pages, 0)
  }

  function StopIndexFrom<R>(pages: seq<PageResponse<R>>, i: nat): (n: nat)
    requires i <= |pages|
    ensures i <= n <= |pages|
    ensures forall k :: i <= k < n ==> Full(pages[k])
    ensures n < |pages| ==> !Full(pages[n])
    decreases |pages| - i
  {
    if i == |pages| || !Full(pages[i]) then i else StopIndexFrom(pages, i + 1)
  }

  function ItemsOf<R>(p: PageResponse<R>): seq<R> {
    if p.Page? then p.items else []
  }

  /** The records of the first n responses, in order.*/
  function FlattenUpTo<R>(pages: seq<PageResponse<R>>, n: nat): seq<R>
    requires n <= |pages|
  {
    if n == 0 then [] else FlattenUpTo(pages, n - 1) + ItemsOf(pages[n - 1])
  }

  /** The first count page requests: the k-th asks for offset PageLimit * k. */
  function Requests(path: string, token: string, since: UtcTime, count: nat): (rs: seq<PageRequest>)
    ensures |rs| == count
  {
    seq(count, k => RequestAt(path, token, since, PageLimit * k))
  }

  /** The request for the page at offset start. */
  function RequestAt(path: string, token: string, since: UtcTime, start: int): PageRequest {
    PageRequest(path, start, since, Bearer(token))
  }

  /** What a fetch left behind: the result slice, the requests it issued,
      and its error (Pass for nil). */
  datatype Fetched<R> = Fetched(items: seq<R>, requests: seq<PageRequest>, outcome: Outcome<Error>)

  /** The specification of the pagination loop. The fetch walks the full
      pages, then makes one more request. If that request's response is
      accepted, its records complete the result and the fetch succeeds;
      otherwise (or when the oracle has no more responses) the fetch fails
      with that response's error, keeping what it had appended so far. */
  function Paginate<R>(path: string, token: string, since: UtcTime,
                       pages: seq<PageResponse<R>>, prior: seq<R>): Fetched<R>
  {
    var n := StopIndex(pages);
    var last := n < |pages| && Accepted(pages[n]);
    Fetched(prior + FlattenUpTo(pages, n) + (if last then pages[n].items else []),
            Requests(path, token, since, n + 1),
            if last then Pass
            else if n == |pages| then Fail(RequestFailed(path))
            else Fail(PageError(path, pages[n])))
  }

  /** `fetchAndAggregate`: page through one endpoint, appending each page to
      the caller's slice (`prior` is its contents on entry). */
  method FetchAndAggregate<R>(token: string, path: string, since: UtcTime,
                              pages: seq<PageResponse<R>>, prior: seq<R>)
    returns (result: seq<R>, requests: seq<PageRequest>, err: Outcome<Error>)
    ensures Fetched(result, requests, err) == Paginate(path, token, since, pages, prior)
  {
    var start := 0;
    var i := 0;
    result, requests := prior, [];
    while i < |pages|
      invariant 0 <= i <= |pages| && start == PageLimit * i
      invariant forall k :: 0 <= k < i ==> Full(pages[k])
      invariant requests == Requests(path, token, since, i)
      invariant result == prior + FlattenUpTo(pages, i)
    {
      RequestsSnoc(path, token, since, i);
      requests := requests + [RequestAt(path, token, since, start)];
      var resp := pages[i];
      var rejected := CheckResponse(path, resp);
      if rejected.Some? {
        StopsAt(path, token, since, pages, prior, i);
        err := Fail(rejected.value);
        return;
      }
      result := result + resp.items;
      if |resp.items| < PageLimit {
        StopsAt(path, token, since, pages, prior, i);
        err := Pass;
        return;
      }
      FullPrefixGrows(pages, i);
      start := start + PageLimit;
      i := i + 1;
    }
    // The oracle holds no answer for this request: the call fails.
    Exhausted(path, token, since, pages, prior);
    RequestsSnoc(path, token, since, i);
    requests := requests + [RequestAt(path, token, since, start)];
    err := Fail(RequestFailed(path));
  }

  /** The checks made on each response, in the loop's order: the status,
      reading the body, the envelope, the success flag, the data array. */
  method CheckResponse<R>(path: string, resp: PageResponse<R>) returns (rejected: Option<Error>)
    ensures rejected.None? <==> Accepted(resp)
    ensures rejected.Some? ==> rejected.value == PageError(path, resp)
  {
    if resp.NoResponse? {
      return Some(RequestFailed(path));
    }
    if resp.status != 200 {
      return Some(BadStatus(path, resp.status));
    }
    if !resp.bodyRead {
      return Some(BodyUnreadable);
    }
    if !resp.envelopeDecodes {
      return Some(EnvelopeUndecodable(path));
    }
    if !resp.success {
      return Some(NotSuccessful(path));
    }
    if !resp.dataDecodes {
      return Some(DataUndecodable(path));
    }
    return None;
  }

  lemma RequestsSnoc(path: string, token: string, since: UtcTime, i: nat)
    ensures Requests(path, token, since, i) + [RequestAt(path, token, since, PageLimit * i)]
            == Requests(path, token, since, i + 1)
  {
  }

  lemma FullPrefixGrows<R>(pages: seq<PageResponse<R>>, i: nat)
    requires i < |pages| && Accepted(pages[i]) && PageLimit <= |pages[i].items|
    requires forall k :: 0 <= k < i ==> Full(pages[k])
    ensures forall k :: 0 <= k < i + 1 ==> Full(pages[k])
  {
  }

  /** Paginate when the walk stops at response i. */
  lemma StopsAt<R>(path: string, token: string, since: UtcTime,
                   pages: seq<PageResponse<R>>, prior: seq<R>, i: nat)
    requires i < |pages| && !Full(pages[i])
    requires forall k :: 0 <= k < i ==> Full(pages[k])
    ensures Paginate(path, token, since, pages, prior) ==
      Fetched(prior + FlattenUpTo(pages, i) + (if Accepted(pages[i]) then pages[i].items else []),
              Requests(path, token, since, i + 1),
              if Accepted(pages[i]) then Pass else Fail(PageError(path, pages[i])))
  {
    StopIndexAt(pages, i);
  }

  /** Paginate when every response is a full page. */
  lemma Exhausted<R>(path: string, token: string, since: UtcTime,
                     pages: seq<PageResponse<R>>, prior: seq<R>)
    requires forall k :: 0 <= k < |pages| ==> Full(pages[k])
    ensures Paginate(path, token, since, pages, prior) ==
      Fetched(prior + FlattenUpTo(pages, |pages|), Requests(path, token, since, |pages| + 1), Fail(RequestFailed(path)))
  {
    var n := StopIndex(pages);
    assert n == |pages|;
    var f := Paginate(path, token, since, pages, prior);
    assert f.items == prior + FlattenUpTo(pages, n) + [];
    assert f.requests == Requests(path, token, since, |pages| + 1);
    assert f.outcome == Fail(RequestFailed(path));
  }

  /** What a getter returns for a fetch: its records, or no records and the
      wrapped error (the partly filled slice is dropped). */
  function Collect<R>(what: string, f: Fetched<R>): (r: Result<seq<R>, Error>)
    ensures r.Success? <==> f.outcome.Pass?
  {
    if f.outcome.Pass? then Success(f.items) else Failure(GetterFailed(what, f.outcome.error))
  }

  /** The endpoint of each category. */
  function PathOf(c: Category): (p: string)
    ensures 1 < |p| && p[0] == '/'
  {
    match c
    case Supplies => "/supplies"
    case ProductSales => "/product/sales"
    case Products => "/products"
    case FuelTypes => "/fuel/types"
    case Vehicles => "/vehicles"
    case Drivers => "/drivers"
    case Employees => "/employees"
  }

  method GetSupplies(token: string, since: UtcTime, pages: seq<PageResponse<Supply>>)
    returns (r: Result<seq<Supply>, Error>, requests: seq<PageRequest>)
    ensures var f := Paginate(PathOf(Supplies), token, since, pages, []);
      r == Collect("supplies", f) && requests == f.requests
  {
    var all, rs, err := FetchAndAggregate(token, PathOf(Supplies), since, pages, []);
    requests := rs;
    r := Collect("supplies", Fetched(all, rs, err));
  }

  method GetProductSales(token: string, since: UtcTime, pages: seq<PageResponse<ProductSale>>)
    returns (r: Result<seq<ProductSale>, Error>, requests: seq<PageRequest>)
    ensures var f := Paginate(PathOf(ProductSales), token, since, pages, []);
      r == Collect("product sales", f) && requests == f.requests
  {
    var all, rs, err := FetchAndAggregate(token, PathOf(ProductSales), since, pages, []);
    requests := rs;
    r := Collect("product sales", Fetched(all, rs, err));
  }

  method GetProducts(token: string, pages: seq<PageResponse<Product>>)
    returns (r: Result<seq<Product>, Error>, requests: seq<PageRequest>)
    ensures var f := Paginate(PathOf(Products), token, ZeroTime, pages, []);
      r == Collect("products", f) && requests == f.requests
  {
    var all, rs, err := FetchAndAggregate(token, PathOf(Products), ZeroTime, pages, []);
    requests := rs;
    r := Collect("products", Fetched(all, rs, err));
  }

  method GetFuelTypes(token: string, pages: seq<PageResponse<FuelType>>)
    returns (r: Result<seq<FuelType>, Error>, requests: seq<PageRequest>)
    ensures var f := Paginate(PathOf(FuelTypes), token, ZeroTime, pages, []);
      r == Collect("fuel types", f) && requests == f.requests
  {
    var all, rs, err := FetchAndAggregate(token, PathOf(FuelTypes), ZeroTime, pages, []);
    requests := rs;
    r := Collect("fuel types", Fetched(all, rs, err));
  }

  method GetVehicles(token: string, pages: seq<PageResponse<Vehicle>>)
    returns (r: Result<seq<Vehicle>, Error>, requests: seq<PageRequest>)
    ensures var f := Paginate(PathOf(Vehicles), token, ZeroTime, pages, []);
      r == Collect("vehicles", f) && requests == f.requests
  {
    var all, rs, err := FetchAndAggregate(token, PathOf(Vehicles), ZeroTime, pages, []);
    requests := rs;
    r := Collect("vehicles", Fetched(all, rs, err));
  }

  method GetDrivers(token: string, pages: seq<PageResponse<Driver>>)
    returns (r: Result<seq<Driver>, Error>, requests: seq<PageRequest>)
    ensures var f := Paginate(PathOf(Drivers), token, ZeroTime, pages, []);
      r == Collect("drivers", f) && requests == f.requests
  {
    var all, rs, err := FetchAndAggregate(token, PathOf(Drivers), ZeroTime, pages, []);
    requests := rs;
    r := Collect("drivers", Fetched(all, rs, err));
  }

  method GetEmployees(token: string, pages: seq<PageResponse<Employee>>)
    returns (r: Result<seq<Employee>, Error>, requests: seq<PageRequest>)
    ensures var f := Paginate(PathOf(Employees), token, ZeroTime, pages, []);
      r == Collect("employees", f) && requests == f.requests
  {
    var all, rs, err := FetchAndAggregate(token, PathOf(Employees), ZeroTime, pages, []);
    requests := rs;
    r := Collect("employees", Fetched(all, rs, err));
  }

  // ---------------------------------------------------------------------
  // Properties of the pagination specification

  /** The k-th request asks for offset 100 * k with limit 100 and sort=true,
      on the fetch's own path with the bearer token; consecutive offsets
      differ by exactly 100, and every request but the last followed a full
      page. */
  lemma RequestOffsets<R>(path: string, token: string, since: UtcTime,
                          pages: seq<PageResponse<R>>, prior: seq<R>, k: nat)
    requires k < |Paginate(path, token, since, pages, prior).requests|
    requires PageLimit * k <= Int64Max
    ensures var rq := Paginate(path, token, since, pages, prior).requests[k];
      && rq.path == path && rq.authorization == Bearer(token) && rq.start == PageLimit * k
      && Atoi(Query(rq)["start"]) == Success(PageLimit * k)
      && Atoi(Query(rq)["limit"]) == Success(PageLimit)
      && Query(rq)["sort"] == "true"
    ensures 0 < k ==> Full(pages[k - 1])
  {
    QueryParameters(PageLimit * k, since);
    QueryNumbers(PageLimit * k, since);
  }

  /** startDate is sent exactly when since is not the zero time, on every
      request; the five reference getters pass the zero time, so they never
      send it. */
  lemma StartDateIffSince<R>(path: string, token: string, since: UtcTime,
                             pages: seq<PageResponse<R>>, prior: seq<R>)
    ensures forall rq :: rq in Paginate(path, token, since, pages, prior).requests ==>
      ("startDate" in Query(rq) <==> !IsZero(since)) &&
      (!IsZero(since) ==> Query(rq)["startDate"] == FormatStartDate(since))
    ensures forall rq :: rq in Paginate(path, token, ZeroTime, pages, prior).requests ==>
      "startDate" !in Query(rq)
  {
  }

  lemma {:induction false} FlattenLength<R>(pages: seq<PageResponse<R>>, n: nat)
    requires n <= |pages|
    ensures |FlattenUpTo(pages, n)| == TotalItems(pages[..n])
  {
    if n != 0 {
      FlattenLength(pages, n - 1);
      TotalItemsSnoc(pages[..n - 1], pages[n - 1]);
      assert pages[..n - 1] + [pages[n - 1]] == pages[..n];
    }
  }

  /** FlattenUpTo(pages, n) depends on the first n responses only. */
  lemma {:induction false} FlattenPrefix<R>(pages: seq<PageResponse<R>>, other: seq<PageResponse<R>>, n: nat)
    requires n <= |pages| && n <= |other| && pages[..n] == other[..n]
    ensures FlattenUpTo(pages, n) == FlattenUpTo(other, n)
  {
    if n != 0 {
      assert pages[..n - 1] == other[..n - 1] by {
        assert pages[..n - 1] == pages[..n][..n - 1] && other[..n - 1] == other[..n][..n - 1];
      }
      assert pages[n - 1] == pages[..n][n - 1] == other[..n][n - 1] == other[n - 1];
      FlattenPrefix(pages, other, n - 1);
    }
  }

  /** The number of records in a sequence of responses, counted from the front. */
  function TotalItems<R>(pages: seq<PageResponse<R>>): nat {
    if pages == [] then 0 else |ItemsOf(pages[0])| + TotalItems(pages[1..])
  }

  lemma {:induction false} TotalItemsSnoc<R>(pages: seq<PageResponse<R>>, p: PageResponse<R>)
    ensures TotalItems(pages + [p]) == TotalItems(pages) + |ItemsOf(p)|
  {
    if pages != [] {
      assert (pages + [p])[1..] == pages[1..] + [p];
      TotalItemsSnoc(pages[1..], p);
    }
  }

  /** On success the result is the prior contents followed by every page
      that was fetched, in request order, so its length is the prior length
      plus the sum of the page lengths. */
  lemma SuccessCollectsEveryPage<R>(path: string, token: string, since: UtcTime,
                                    pages: seq<PageResponse<R>>, prior: seq<R>)
    requires Paginate(path, token, since, pages, prior).outcome.Pass?
    ensures var f := Paginate(path, token, since, pages, prior);
      var n := |f.requests|;
      && n <= |pages|
      && f.items == prior + FlattenUpTo(pages, n)
      && |f.items| == |prior| + TotalItems(pages[..n])
      && (forall k :: 0 <= k < n ==> Accepted(pages[k]))
      && |pages[n - 1].items| < PageLimit
  {
    FlattenLength(pages, StopIndex(pages) + 1);
  }

  /** A rejected response ends the fetch with its error; no later response
      is looked at, whatever it holds. */
  lemma FailureStopsTheWalk<R>(path: string, token: string, since: UtcTime,
                               pages: seq<PageResponse<R>>, prior: seq<R>, j: nat)
    requires j < |pages| && !Accepted(pages[j])
    requires forall k :: 0 <= k < j ==> Full(pages[k])
    ensures var f := Paginate(path, token, since, pages, prior);
      && f.outcome == Fail(PageError(path, pages[j]))
      && |f.requests| == j + 1
      && f.items == prior + FlattenUpTo(pages, j)
      && Paginate(path, token, since, pages[..j + 1], prior) == f
  {
    StopIndexAt(pages, j);
    StopIndexAt(pages[..j + 1], j);
    FlattenPrefix(pages, pages[..j + 1], j);
  }

  /** StopIndex is the first index that is not a full page. */
  lemma StopIndexAt<R>(pages: seq<PageResponse<R>>, j: nat)
    requires j < |pages| && !Full(pages[j])
    requires forall k :: 0 <= k < j ==> Full(pages[k])
    ensures StopIndex(pages) == j
  {
  }

  /** An empty first page is a successful empty result after one request. */
  lemma EmptyFirstPage<R>(path: string, token: string, since: UtcTime,
                          pages: seq<PageResponse<R>>)
    requires 0 < |pages| && Accepted(pages[0]) && pages[0].items == []
    ensures Paginate(path, token, since, pages, []) ==
      Fetched([], [RequestAt(path, token, since, 0)], Pass)
  {
    assert StopIndex(pages) == 0;
  }

  function OkPage<R>(items: seq<R>): PageResponse<R> {
    Page(200, true, true, true, true, items)
  }

  /** Pages of 100, 100 and 37 records: exactly three requests, at offsets 0,
      100 and 200, and 237 records. */
  lemma ThreePages<R>(path: string, token: string, since: UtcTime,
                      a: seq<R>, b: seq<R>, c: seq<R>, rest: seq<PageResponse<R>>)
    requires |a| == 100 && |b| == 100 && |c| == 37
    ensures var f := Paginate(path, token, since, [OkPage(a), OkPage(b), OkPage(c)] + rest, []);
      && f.outcome == Pass
      && f.items == a + b + c && |f.items| == 237
      && f.requests == [RequestAt(path, token, since, 0),
                        RequestAt(path, token, since, 100),
                        RequestAt(path, token, since, 200)]
  {
    var pages := [OkPage(a), OkPage(b), OkPage(c)] + rest;
    assert pages[0] == OkPage(a) && pages[1] == OkPage(b) && pages[2] == OkPage(c);
    StopsAt(path, token, since, pages, [], 2);
    assert FlattenUpTo(pages, 1) == a by {
      assert FlattenUpTo(pages, 1) == FlattenUpTo(pages, 0) + a;
    }
    assert FlattenUpTo(pages, 2) == a + b;
    RequestsSnoc(path, token, since, 0);
    RequestsSnoc(path, token, since, 1);
    RequestsSnoc(path, token, since, 2);
  }

  /** A getter's records are exactly the fetch's, and a failed fetch leaves
      the getter with no records at all. */
  lemma GetterDropsPartialResults<R>(what: string, path: string, token: string, since: UtcTime,
                                     pages: seq<PageResponse<R>>)
    ensures var f := Paginate(path, token, since, pages, []);
      var r := Collect(what, f);
      && (r.Success? ==> r.value == FlattenUpTo(pages, |f.requests|))
      && (r.Failure? ==> r.error == GetterFailed(what, f.outcome.error))
  {
  }

  /** Each getter has an endpoint of its own. */
  lemma PathsAreDistinct(c: Category, d: Category)
    requires c != d
    ensures PathOf(c) != PathOf(d)
  {
  }

  // ---------------------------------------------------------------------
  // Authentication

  /** The server's answer to POST /sessions: the HTTP status, whether the
      body decoded, its success flag and its `access` token (the empty
      string when the body carried none). AuthNoResponse is a failed call. */
  datatype AuthResponse =
    | AuthNoResponse
    | AuthReply(status: int, decodes: bool, success: bool, access: string)

  /** The only responses that authenticate. */
  predicate AuthAccepted(resp: AuthResponse) {
    resp.AuthReply? && resp.status == 200 && resp.decodes && resp.success
  }

  /** `Authenticate`: the access token when the status is 200, the body
      decodes and success is true; in every other case an error saying
      which check failed. */
  function Authenticate(resp: AuthResponse): (r: Result<string, Error>)
    ensures r.Success? <==> AuthAccepted(resp)
    ensures r.Success? ==> r.value == resp.access
    ensures resp.AuthNoResponse? ==> r == Failure(AuthRequestFailed)
    ensures resp.AuthReply? && resp.status != 200 ==> r == Failure(AuthBadStatus(resp.status))
    ensures resp.AuthReply? && resp.status == 200 && !resp.decodes ==> r == Failure(AuthUndecodable)
    ensures resp.AuthReply? && resp.status == 200 && resp.decodes && !resp.success ==> r == Failure(AuthRejected)
  {
    if resp.AuthNoResponse? then Failure(AuthRequestFailed)
    else if resp.status != 200 then Failure(AuthBadStatus(resp.status))
    else if !resp.decodes then Failure(AuthUndecodable)
    else if !resp.success then Failure(AuthRejected)
    else Success(resp.access)
  }

  /** A 2xx status other than 200 does not authenticate. */
  lemma AuthNeeds200(status: int, access: string)
    requires 200 < status < 300
    ensures Authenticate(AuthReply(status, true, true, access)).Failure?
  {
  }
}
