/** The relay client: paginated order fetching, the two-sided order reads
    with their fail-soft 401 policy, the collectible-order read and the
    best-ask selection. The HTTP client and the login endpoint are function
    parameters; every rate-limit acquisition and every request the client
    sends is reported in a returned sequence of events. */
module Relay {
  import opened Wrappers
  import opened Session

  /** A signed order; only the two amounts matter to this client. */
  datatype SignedOrder = SignedOrder(makerAssetAmount: nat, takerAssetAmount: nat, signature: string)

  /** An order as listed by the relay: the signed order plus relay metadata. */
  datatype OrderRecord = OrderRecord(order: SignedOrder, metaData: string)

  /** One page of a listing, with the server's pagination envelope. */
  datatype PageResponse = PageResponse(records: seq<OrderRecord>, total: nat, perPage: nat)

  /** The options fixed once per paginated read. */
  datatype OrdersQuery = OrdersQuery(makerAssetData: string, takerAssetData: string,
                                     makerAddress: Option<string>, auth: AuthOpts)

  /** One page request: the fixed options plus the page number. */
  datatype OrdersRequest = OrdersRequest(query: OrdersQuery, page: nat)

  datatype AssetProxyId = ERC20 | ERC721

  /** The single request of the collectible-order read. */
  datatype CollectibleQuery = CollectibleQuery(makerAssetProxyId: AssetProxyId, takerAssetProxyId: AssetProxyId,
                                               makerAssetAddress: string, takerAssetAddress: string, auth: AuthOpts)

  /** The single request of the price read. */
  datatype OrderbookQuery = OrderbookQuery(baseAssetData: string, quoteAssetData: string, auth: AuthOpts)

  datatype Orderbook = Orderbook(bids: PageResponse, asks: PageResponse)

  datatype Token = Token(address: string, decimals: nat)

  /** What the client does that the outside world can observe. */
  datatype Event =
    | Acquire
    | FetchOrders(request: OrdersRequest)
    | FetchCollectibles(query: CollectibleQuery)
    | FetchOrderbook(orderbook: OrderbookQuery)
    | Login(credentials: LoginRequest)

  // ---------------------------------------------------------------------
  // Pagination arithmetic

  /** `Math.ceil(total / perPage)` on naturals: the least page count whose
      pages hold `total` records. */
  function CeilDiv(total: nat, perPage: nat): (r: nat)
    requires perPage > 0
    ensures r * perPage >= total
    ensures r == 0 || (r - 1) * perPage < total
    ensures r <= total
    decreases total
  {
    if total == 0 then 0
    else if total <= perPage then 1
    else
      var rest := CeilDiv(total - perPage, perPage);
      OnePageMore(rest, perPage);
      rest + 1
  }

  lemma OnePageMore(pages: nat, perPage: nat)
    ensures (pages + 1) * perPage == pages * perPage + perPage
  {
  }

  /** Whether the loop asks for another page after `page`: `page + 1` is
      still within the last page the response announces. */
  predicate HasMorePages(page: nat, response: PageResponse)
    requires response.perPage > 0
  {
    page + 1 <= CeilDiv(response.total, response.perPage)
  }

  /** The orders of a page's records, in the same order (`records.map(r => r.order)`). */
  function MapOrders(records: seq<OrderRecord>): (orders: seq<SignedOrder>)
    ensures |orders| == |records|
    ensures forall i :: 0 <= i < |records| ==> orders[i] == records[i].order
  {
    if records == [] then [] else [records[0].order] + MapOrders(records[1..])
  }

  /** The termination assumption on the HTTP client: every page it returns
      has a positive page size and a total of at most `bound`. */
  ghost predicate Bounded(client: OrdersRequest -> Result<PageResponse>, bound: nat)
  {
    forall req :: client(req).Success? ==> client(req).value.perPage > 0 && client(req).value.total <= bound
  }

  // ---------------------------------------------------------------------
  // The paginated read as a function

  /** The requests a paginated read issued and what it produced. */
  datatype Crawl = Crawl(requests: seq<OrdersRequest>, outcome: Result<seq<SignedOrder>>)

  /** `c`, preceded by requests `reqs` whose pages contributed `orders`. */
  function Resume(reqs: seq<OrdersRequest>, orders: seq<SignedOrder>, c: Crawl): Crawl
  {
    Crawl(reqs + c.requests,
          match c.outcome
          case Success(rest) => Success(orders + rest)
          case Failure(m) => Failure(m))
  }

  lemma ResumeResume(a: seq<OrdersRequest>, x: seq<SignedOrder>, b: seq<OrdersRequest>, y: seq<SignedOrder>, c: Crawl)
    ensures Resume(a, x, Resume(b, y, c)) == Resume(a + b, x + y, c)
  {
    assert a + (b + c.requests) == (a + b) + c.requests;
    if c.outcome.Success? {
      assert x + (y + c.outcome.value) == (x + y) + c.outcome.value;
    }
  }

  /** One turn of the read loop whose request fails: the read ends with its error. */
  lemma ResumeFails(client: OrdersRequest -> Result<PageResponse>, q: OrdersQuery, page: nat, bound: nat,
                    reqs: seq<OrdersRequest>, orders: seq<SignedOrder>)
    requires Bounded(client, bound)
    requires client(OrdersRequest(q, page)).Failure?
    ensures Resume(reqs, orders, Paginate(client, q, page, bound))
         == Crawl(reqs + [OrdersRequest(q, page)], Failure(client(OrdersRequest(q, page)).message))
  {
  }

  /** One turn of the read loop whose response announces a further page. */
  lemma ResumeContinues(client: OrdersRequest -> Result<PageResponse>, q: OrdersQuery, page: nat, bound: nat,
                        reqs: seq<OrdersRequest>, orders: seq<SignedOrder>, response: PageResponse)
    requires Bounded(client, bound)
    requires client(OrdersRequest(q, page)) == Success(response)
    requires HasMorePages(page, response)
    ensures Resume(reqs, orders, Paginate(client, q, page, bound))
         == Resume(reqs + [OrdersRequest(q, page)], orders + MapOrders(response.records), Paginate(client, q, page + 1, bound))
  {
    ResumeResume(reqs, orders, [OrdersRequest(q, page)], MapOrders(response.records), Paginate(client, q, page + 1, bound));
  }

  /** One turn of the read loop whose response is the last page. */
  lemma ResumeEnds(client: OrdersRequest -> Result<PageResponse>, q: OrdersQuery, page: nat, bound: nat,
                   reqs: seq<OrdersRequest>, orders: seq<SignedOrder>, response: PageResponse)
    requires Bounded(client, bound)
    requires client(OrdersRequest(q, page)) == Success(response)
    requires !HasMorePages(page, response)
    ensures Resume(reqs, orders, Paginate(client, q, page, bound))
         == Crawl(reqs + [OrdersRequest(q, page)], Success(orders + MapOrders(response.records)))
  {
  }

  /** The paginated read from `page` on: request the page, keep its orders,
      and go on while the response announces a further page. A failing
      request ends the read with that request's error. */
  function Paginate(client: OrdersRequest -> Result<PageResponse>, q: OrdersQuery, page: nat, ghost bound: nat): (c: Crawl)
    requires Bounded(client, bound)
    ensures |c.requests| >= 1 && c.requests[0] == OrdersRequest(q, page)
    decreases bound - page
  {
    var req := OrdersRequest(q, page);
    match client(req)
    case Failure(m) => Crawl([req], Failure(m))
    case Success(response) =>
      var mapped := MapOrders(response.records);
      if HasMorePages(page, response) then
        Resume([req], mapped, Paginate(client, q, page + 1, bound))
      else
        Crawl([req], Success(mapped))
  }

  /** Whether the response to `req` makes the read go on. */
  ghost predicate Continues(client: OrdersRequest -> Result<PageResponse>, req: OrdersRequest)
  {
    client(req).Success? && client(req).value.perPage > 0 && HasMorePages(req.page, client(req).value)
  }

  /** The orders the pages of `reqs` hold, concatenated in request order. */
  function Harvest(client: OrdersRequest -> Result<PageResponse>, reqs: seq<OrdersRequest>): seq<SignedOrder>
  {
    if reqs == [] then []
    else
      (match client(reqs[0]) case Success(r) => MapOrders(r.records) case Failure(_) => [])
      + Harvest(client, reqs[1..])
  }

  /** The pages requested are `page`, `page + 1`, ... in order, and every
      request carries the same query options. */
  lemma {:induction false} PaginateRequestsConsecutivePages(client: OrdersRequest -> Result<PageResponse>, q: OrdersQuery, page: nat, bound: nat)
    requires Bounded(client, bound)
    ensures forall i :: 0 <= i < |Paginate(client, q, page, bound).requests| ==>
      Paginate(client, q, page, bound).requests[i] == OrdersRequest(q, page + i)
    decreases bound - page
  {
    var req := OrdersRequest(q, page);
    if client(req).Success? && HasMorePages(page, client(req).value) {
      var rest := Paginate(client, q, page + 1, bound);
      PaginateRequestsConsecutivePages(client, q, page + 1, bound);
      var c := Paginate(client, q, page, bound);
      assert c.requests == [req] + rest.requests;
      forall i | 1 <= i < |c.requests| ensures c.requests[i] == OrdersRequest(q, page + i) {
        assert c.requests[i] == rest.requests[i - 1];
      }
    }
  }

  /** The read stops right after the first response that fails or announces
      no further page, judged by that response's own total and page size. */
  lemma {:induction false} PaginateStopsAtLastPage(client: OrdersRequest -> Result<PageResponse>, q: OrdersQuery, page: nat, bound: nat)
    requires Bounded(client, bound)
    ensures forall i :: 0 <= i < |Paginate(client, q, page, bound).requests| - 1 ==>
      Continues(client, Paginate(client, q, page, bound).requests[i])
    ensures !Continues(client, Paginate(client, q, page, bound).requests[|Paginate(client, q, page, bound).requests| - 1])
    decreases bound - page
  {
    var req := OrdersRequest(q, page);
    var c := Paginate(client, q, page, bound);
    if client(req).Success? && HasMorePages(page, client(req).value) {
      var rest := Paginate(client, q, page + 1, bound);
      PaginateStopsAtLastPage(client, q, page + 1, bound);
      assert c.requests == [req] + rest.requests;
      assert Continues(client, req);
      forall i | 1 <= i < |c.requests| - 1 ensures Continues(client, c.requests[i]) {
        assert c.requests[i] == rest.requests[i - 1];
      }
      assert c.requests[|c.requests| - 1] == rest.requests[|rest.requests| - 1];
    } else {
      assert c.requests == [req];
    }
  }

  /** The read fails exactly when its last request failed, with that error,
      and otherwise returns every page's orders in page order. */
  lemma {:induction false} PaginateOutcome(client: OrdersRequest -> Result<PageResponse>, q: OrdersQuery, page: nat, bound: nat)
    requires Bounded(client, bound)
    ensures var c := Paginate(client, q, page, bound);
      var last := c.requests[|c.requests| - 1];
      && (c.outcome.Failure? <==> client(last).Failure?)
      && (c.outcome.Failure? ==> c.outcome.message == client(last).message)
      && (c.outcome.Success? ==> c.outcome.value == Harvest(client, c.requests))
    decreases bound - page
  {
    var req := OrdersRequest(q, page);
    var c := Paginate(client, q, page, bound);
    if client(req).Success? && HasMorePages(page, client(req).value) {
      var rest := Paginate(client, q, page + 1, bound);
      PaginateOutcome(client, q, page + 1, bound);
      assert c.requests == [req] + rest.requests;
      assert c.requests[1..] == rest.requests;
    } else {
      assert c.requests[1..] == [];
    }
  }

  /** A first response with `total = 0` ends the read after one request,
      whose page's orders are the whole result. */
  lemma EmptyTotalSingleRequest(client: OrdersRequest -> Result<PageResponse>, q: OrdersQuery, bound: nat, response: PageResponse)
    requires Bounded(client, bound)
    requires client(OrdersRequest(q, 1)) == Success(response) && response.total == 0
    ensures Paginate(client, q, 1, bound) == Crawl([OrdersRequest(q, 1)], Success(MapOrders(response.records)))
  {
    assert !HasMorePages(1, response);
  }

  /** Against a server whose pages from `page` on all succeed with the same
      total and page size, the read issues one request per page up to the
      last page (and at least one). */
  lemma {:induction false} SteadyServerPageCount(client: OrdersRequest -> Result<PageResponse>, q: OrdersQuery, page: nat, bound: nat,
                                                 total: nat, perPage: nat)
    requires Bounded(client, bound)
    requires perPage > 0
    requires forall p: nat :: p >= page ==>
               && client(OrdersRequest(q, p)).Success?
               && client(OrdersRequest(q, p)).value.total == total
               && client(OrdersRequest(q, p)).value.perPage == perPage
    ensures var last := CeilDiv(total, perPage);
      |Paginate(client, q, page, bound).requests| == if last > page then last - page + 1 else 1
    decreases bound - page
  {
    var req := OrdersRequest(q, page);
    var last := CeilDiv(total, perPage);
    assert client(req).Success? && client(req).value.total == total && client(req).value.perPage == perPage;
    if HasMorePages(page, client(req).value) {
      SteadyServerPageCount(client, q, page + 1, bound, total, perPage);
    }
  }

  /** The worked case: a server reporting 25 records at 10 per page is read
      in three requests. */
  lemma TwentyFiveRecordsThreeRequests(client: OrdersRequest -> Result<PageResponse>, q: OrdersQuery, bound: nat)
    requires Bounded(client, bound)
    requires forall p: nat :: p >= 1 ==>
               && client(OrdersRequest(q, p)).Success?
               && client(OrdersRequest(q, p)).value.total == 25
               && client(OrdersRequest(q, p)).value.perPage == 10
    ensures |Paginate(client, q, 1, bound).requests| == 3
  {
    SteadyServerPageCount(client, q, 1, bound, 25, 10);
    assert CeilDiv(25, 10) == 3;
  }

  // ---------------------------------------------------------------------
  // The events of a paginated read

  /** Each request preceded by its own rate-limit acquisition. */
  function Gated(reqs: seq<OrdersRequest>): (es: seq<Event>)
    ensures |es| == 2 * |reqs|
    ensures forall i :: 0 <= i < |reqs| ==> es[2 * i] == Acquire && es[2 * i + 1] == FetchOrders(reqs[i])
  {
    if reqs == [] then []
    else
      var init := reqs[..|reqs| - 1];
      var es := Gated(init) + [Acquire, FetchOrders(reqs[|reqs| - 1])];
      assert forall i :: 0 <= i < |init| ==> reqs[i] == init[i];
      es
  }

  lemma GatedSnoc(reqs: seq<OrdersRequest>, req: OrdersRequest)
    ensures Gated(reqs + [req]) == Gated(reqs) + [Acquire, FetchOrders(req)]
  {
    assert (reqs + [req])[..|reqs|] == reqs;
  }

  // ---------------------------------------------------------------------
  // Substring search, as used on error messages

  predicate OccursAt(s: string, pattern: string, i: nat)
  {
    i + |pattern| <= |s| && s[i..i + |pattern|] == pattern
  }

  /** `s.search(pattern)` for a pattern free of regular-expression syntax:
      the first index where `pattern` occurs in `s`, or -1. */
  function Search(s: string, pattern: string): (r: int)
    ensures r == -1 <==> forall i: nat :: !OccursAt(s, pattern, i)
    ensures r != -1 ==> 0 <= r && OccursAt(s, pattern, r) && forall i: nat :: i < r ==> !OccursAt(s, pattern, i)
  {
    if |s| < |pattern| then
      assert forall i: nat :: !OccursAt(s, pattern, i);
      -1
    else if s[..|pattern|] == pattern then
      assert OccursAt(s, pattern, 0);
      0
    else
      var k := Search(s[1..], pattern);
      assert forall i: nat :: OccursAt(s, pattern, i + 1) <==> OccursAt(s[1..], pattern, i) by {
        forall i: nat ensures OccursAt(s, pattern, i + 1) <==> OccursAt(s[1..], pattern, i) {
          if i + 1 + |pattern| <= |s| {
            assert s[i + 1..i + 1 + |pattern|] == s[1..][i..i + |pattern|];
          }
        }
      }
      assert !OccursAt(s, pattern, 0);
      assert forall i: nat :: OccursAt(s, pattern, i) ==> i >= 1 && OccursAt(s[1..], pattern, i - 1);
      if k == -1 then -1 else k + 1
  }

  /** Whether an error message reports an HTTP 401. */
  predicate Unauthorized(message: string)
  {
    Search(message, "401") != -1
  }

  // ---------------------------------------------------------------------
  // The fail-soft settlement of a two-sided read

  /** How a two-sided read settles: its result, the session afterwards and
      whether the fallback login was sent. */
  datatype ReadStep = ReadStep(result: Settlement<seq<SignedOrder>>, token: UserToken, loginSent: bool)

  /** Both sides succeeded: the sell orders then the buy orders. Otherwise the
      first side's error decides: a message mentioning 401 sends the fallback
      login, whose token replaces the session when it resolves; the read
      resolves with no orders unless that login rejects (the read rejects with
      its status) or never settles (nor does the read). */
  function SettleRead(sell: Result<seq<SignedOrder>>, buy: Result<seq<SignedOrder>>,
                      login: Settlement<UserToken>, current: UserToken): (s: ReadStep)
    ensures sell.Success? && buy.Success? ==>
      s == ReadStep(Resolved(sell.value + buy.value), current, false)
    ensures s.loginSent <==>
      (sell.Failure? && Unauthorized(sell.message)) || (sell.Success? && buy.Failure? && Unauthorized(buy.message))
    ensures s.token != current ==> s.loginSent && login == Resolved(s.token)
    ensures s.loginSent && login.Resolved? ==> s.token == login.value
    ensures s.result.Resolved? && (sell.Failure? || buy.Failure?) ==> s.result.value == []
    ensures s.result.Rejected? ==> s.loginSent && login == Rejected(s.result.status)
    ensures s.result.Unsettled? ==> s.loginSent && login.Unsettled?
    ensures s.loginSent && login.Rejected? ==> s.result == Rejected(login.status)
    ensures s.loginSent && login.Unsettled? ==> s.result.Unsettled?
  {
    if sell.Success? && buy.Success? then
      ReadStep(Resolved(sell.value + buy.value), current, false)
    else
      var error := if sell.Failure? then sell.message else buy.message;
      if !Unauthorized(error) then
        ReadStep(Resolved([]), current, false)
      else
        match login
        case Resolved(t) => ReadStep(Resolved([]), t, true)
        case Rejected(status) => ReadStep(Rejected(status), current, true)
        case Unsettled => ReadStep(Unsettled, current, true)
  }

  /** What a two-sided read over `baseAssetData` and `quoteAssetData` does
      from session `session`: the settlement, and every event in order (the
      sell side's gated requests, the buy side's, then the fallback login if
      it was sent). */
  ghost function TwoSidedRead(client: OrdersRequest -> Result<PageResponse>, bound: nat,
                              baseAssetData: string, quoteAssetData: string, makerAddress: Option<string>,
                              session: UserToken, fallback: LoginRequest,
                              loginEndpoint: LoginRequest -> LoginReply): (ReadStep, seq<Event>)
    requires Bounded(client, bound)
  {
    var auth := AuthOptsOf(session);
    var sell := Paginate(client, OrdersQuery(baseAssetData, quoteAssetData, makerAddress, auth), 1, bound);
    var buy := Paginate(client, OrdersQuery(quoteAssetData, baseAssetData, makerAddress, auth), 1, bound);
    var login := SendLoginData(fallback.name, fallback.email, fallback.password, loginEndpoint);
    var s := SettleRead(sell.outcome, buy.outcome, login, session);
    (s, Gated(sell.requests) + Gated(buy.requests) + if s.loginSent then [Login(fallback)] else [])
  }

  // ---------------------------------------------------------------------
  // Best ask

  /** The operands of the price division: the taker amount in the quote
      token's decimals over the maker amount in the base token's decimals. */
  datatype PriceRatio = PriceRatio(takerAssetAmount: nat, takerDecimals: nat,
                                   makerAssetAmount: nat, makerDecimals: nat)

  /** No price without asks; otherwise the price of the first-listed ask. */
  function BestAskPrice(asks: seq<OrderRecord>, baseToken: Token, quoteToken: Token): (p: Option<PriceRatio>)
    ensures p.None? <==> asks == []
    ensures p.Some? ==> p.value == PriceRatio(asks[0].order.takerAssetAmount, quoteToken.decimals,
                                              asks[0].order.makerAssetAmount, baseToken.decimals)
  {
    if |asks| > 0 then
      var lowestPriceAsk := asks[0].order;
      Some(PriceRatio(lowestPriceAsk.takerAssetAmount, quoteToken.decimals,
                      lowestPriceAsk.makerAssetAmount, baseToken.decimals))
    else
      None
  }

  /** Asks after the first one never influence the price. */
  lemma LaterAsksIgnored(best: OrderRecord, rest1: seq<OrderRecord>, rest2: seq<OrderRecord>, baseToken: Token, quoteToken: Token)
    ensures BestAskPrice([best] + rest1, baseToken, quoteToken) == BestAskPrice([best] + rest2, baseToken, quoteToken)
  {
  }

  // ---------------------------------------------------------------------
  // The client

  class Relayer {
    /** The request rate the limiter admits per second. */
    const rps: nat
    var userToken: UserToken

    /** A new client starts anonymous. */
    constructor (rps: nat)
      ensures this.rps == rps && userToken == Anonymous
    {
      this.rps := rps;
      userToken := Anonymous;
    }

    /** The auth options of the held session: `"Bearer " + token` and its user id. */
    function GetAuthOpts(): (o: AuthOpts)
      reads this
      ensures o.authorization == BearerPrefix + userToken.token && o.userId == userToken.userId
    {
      AuthOptsOf(userToken)
    }

    /** The paginated read of one market side. The options are captured once;
        each page is requested after its own rate-limit acquisition; the loop
        runs until a response announces no further page, and a failing
        request fails the whole read. */
    method GetOrders(makerAssetData: string, takerAssetData: string, makerAddress: Option<string>,
                     client: OrdersRequest -> Result<PageResponse>, ghost bound: nat)
      returns (result: Result<seq<SignedOrder>>, events: seq<Event>)
      requires Bounded(client, bound)
      ensures var c := Paginate(client, OrdersQuery(makerAssetData, takerAssetData, makerAddress, GetAuthOpts()), 1, bound);
        result == c.outcome && events == Gated(c.requests)
    {
      var recordsToReturn: seq<SignedOrder> := [];
      var requestOpts := OrdersQuery(makerAssetData, takerAssetData, makerAddress, GetAuthOpts());
      ghost var whole := Paginate(client, requestOpts, 1, bound);
      ghost var requests: seq<OrdersRequest> := [];
      var hasMorePages := true;
      var page: nat := 1;
      events := [];
      assert Resume([], [], whole) == whole by {
        assert [] + whole.requests == whole.requests;
        if whole.outcome.Success? {
          assert [] + whole.outcome.value == whole.outcome.value;
        }
      }
      while hasMorePages
        invariant 1 <= page
        invariant hasMorePages ==> page <= bound + 1
        invariant events == Gated(requests)
        invariant hasMorePages ==> whole == Resume(requests, recordsToReturn, Paginate(client, requestOpts, page, bound))
        invariant !hasMorePages ==> whole == Crawl(requests, Success(recordsToReturn))
        decreases if hasMorePages then bound + 2 - page else 0
      {
        var request := OrdersRequest(requestOpts, page);
        events := events + [Acquire, FetchOrders(request)];
        GatedSnoc(requests, request);
        var response := client(request);
        if response.Failure? {
          ResumeFails(client, requestOpts, page, bound, requests, recordsToReturn);
          requests := requests + [request];
          result := Failure(response.message);
          return;
        }
        if HasMorePages(page, response.value) {
          ResumeContinues(client, requestOpts, page, bound, requests, recordsToReturn, response.value);
        } else {
          ResumeEnds(client, requestOpts, page, bound, requests, recordsToReturn, response.value);
        }
        requests := requests + [request];
        var recordsMapped := MapOrders(response.value.records);
        recordsToReturn := recordsToReturn + recordsMapped;
        page := page + 1;
        var lastPage := CeilDiv(response.value.total, response.value.perPage);
        hasMorePages := page <= lastPage;
      }
      result := Success(recordsToReturn);
    }

    /** Both sides of a market read, then the fail-soft policy of `SettleRead`. */
    method ReadBothSides(baseAssetData: string, quoteAssetData: string, makerAddress: Option<string>,
                         client: OrdersRequest -> Result<PageResponse>, ghost bound: nat,
                         fallback: LoginRequest, loginEndpoint: LoginRequest -> LoginReply)
      returns (r: Settlement<seq<SignedOrder>>, events: seq<Event>)
      requires Bounded(client, bound)
      modifies this
      ensures var (s, es) := TwoSidedRead(client, bound, baseAssetData, quoteAssetData, makerAddress,
                                          old(userToken), fallback, loginEndpoint);
        r == s.result && userToken == s.token && events == es
    {
      var sellOrders, sellEvents := GetOrders(baseAssetData, quoteAssetData, makerAddress, client, bound);
      var buyOrders, buyEvents := GetOrders(quoteAssetData, baseAssetData, makerAddress, client, bound);
      events := sellEvents + buyEvents;
      if sellOrders.Success? && buyOrders.Success? {
        r := Resolved(sellOrders.value + buyOrders.value);
        return;
      }
      var error := if sellOrders.Failure? then sellOrders.message else buyOrders.message;
      r := Resolved([]);
      if Search(error, "401") != -1 {
        events := events + [Login(fallback)];
        var login := SendLoginData(fallback.name, fallback.email, fallback.password, loginEndpoint);
        match login {
          case Resolved(t) =>
            userToken := t;
          case Rejected(status) =>
            r := Rejected(status);
          case Unsettled =>
            r := Unsettled;
        }
      }
    }

    /** The full book of a pair: base-to-quote orders then quote-to-base orders. */
    method GetAllOrders(baseTokenAssetData: string, quoteTokenAssetData: string,
                        client: OrdersRequest -> Result<PageResponse>, ghost bound: nat,
                        fallback: LoginRequest, loginEndpoint: LoginRequest -> LoginReply)
      returns (r: Settlement<seq<SignedOrder>>, events: seq<Event>)
      requires Bounded(client, bound)
      modifies this
      ensures var (s, es) := TwoSidedRead(client, bound, baseTokenAssetData, quoteTokenAssetData, None,
                                          old(userToken), fallback, loginEndpoint);
        r == s.result && userToken == s.token && events == es
    {
      r, events := ReadBothSides(baseTokenAssetData, quoteTokenAssetData, None, client, bound, fallback, loginEndpoint);
    }

    /** The same two-sided read restricted to orders made by `account`. */
    method GetUserOrders(account: string, baseTokenAssetData: string, quoteTokenAssetData: string,
                         client: OrdersRequest -> Result<PageResponse>, ghost bound: nat,
                         fallback: LoginRequest, loginEndpoint: LoginRequest -> LoginReply)
      returns (r: Settlement<seq<SignedOrder>>, events: seq<Event>)
      requires Bounded(client, bound)
      modifies this
      ensures var (s, es) := TwoSidedRead(client, bound, baseTokenAssetData, quoteTokenAssetData, Some(account),
                                          old(userToken), fallback, loginEndpoint);
        r == s.result && userToken == s.token && events == es
    {
      r, events := ReadBothSides(baseTokenAssetData, quoteTokenAssetData, Some(account), client, bound, fallback, loginEndpoint);
    }

    /** ERC-721 sell orders of a collectible for WETH: one rate-limited
        request (no pagination), its records mapped to their orders. */
    method GetSellCollectibleOrders(collectibleAddress: string, wethAddress: string,
                                    client: CollectibleQuery -> Result<PageResponse>)
      returns (r: Result<seq<SignedOrder>>, events: seq<Event>)
      ensures var q := CollectibleQuery(ERC721, ERC20, collectibleAddress, wethAddress, GetAuthOpts());
        && events == [Acquire, FetchCollectibles(q)]
        && (r.Failure? <==> client(q).Failure?)
        && (r.Failure? ==> r.message == client(q).message)
        && (r.Success? ==> r.value == MapOrders(client(q).value.records))
    {
      events := [Acquire];
      var requestOpts := GetAuthOpts();
      var query := CollectibleQuery(ERC721, ERC20, collectibleAddress, wethAddress, requestOpts);
      events := events + [FetchCollectibles(query)];
      var result := client(query);
      if result.Failure? {
        r := Failure(result.message);
        return;
      }
      r := Success(MapOrders(result.value.records));
    }

    /** The price of a pair from its order book: absent without asks,
        otherwise the first ask's amounts; a failing request fails the read. */
    method GetCurrencyPairPrice(baseToken: Token, quoteToken: Token, encodeERC20AssetData: string -> string,
                                client: OrderbookQuery -> Result<Orderbook>)
      returns (r: Result<Option<PriceRatio>>, events: seq<Event>)
      ensures var q := OrderbookQuery(encodeERC20AssetData(baseToken.address), encodeERC20AssetData(quoteToken.address), GetAuthOpts());
        && events == [Acquire, FetchOrderbook(q)]
        && (r.Failure? <==> client(q).Failure?)
        && (r.Failure? ==> r.message == client(q).message)
        && (r.Success? ==> r.value == BestAskPrice(client(q).value.asks.records, baseToken, quoteToken))
    {
      events := [Acquire];
      var requestOpts := GetAuthOpts();
      var query := OrderbookQuery(encodeERC20AssetData(baseToken.address), encodeERC20AssetData(quoteToken.address), requestOpts);
      events := events + [FetchOrderbook(query)];
      var book := client(query);
      if book.Failure? {
        r := Failure(book.message);
        return;
      }
      r := Success(BestAskPrice(book.value.asks.records, baseToken, quoteToken));
    }
  }
}
