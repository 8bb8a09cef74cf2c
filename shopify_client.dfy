/**
  The upstream client: the classifier that turns a failed GraphQL request into the shared
  error record, the `query` envelope, the cursor-pagination loop of `getAllOrders` and the
  single-order lookup. Every request's outcome is an input value.
 */
module ShopifyClient {
  import opened Wrappers
  import opened Http
  import opened OrderModel

  /** One entry of a GraphQL `errors` array: `extensions.code` and `message`. */
  datatype GraphQLError = GraphQLError(code: Option<string>, message: Option<string>)

  /**
    What a request that raised carries: `error.response?.status`, the body's `errors` array,
    the transport code (`error.code`) and `error.message`.
   */
  datatype RequestFailure = RequestFailure(
    status: Option<int>,
    bodyErrors: seq<GraphQLError>,
    code: Option<string>,
    message: Option<string>)

  /** `SHOPIFY_ERROR_CODES` */
  const ShopifyErrorCodes: map<int, CodeEntry> := map[
    400 := CodeEntry("BAD_REQUEST", "The request is malformed or invalid.",
                     "Invalid request. Please check your parameters."),
    401 := CodeEntry("UNAUTHORIZED", "Authentication failed.",
                     "Authentication failed. Please check your access token."),
    403 := CodeEntry("FORBIDDEN", "Access denied.", "Access denied. Check your permissions."),
    404 := CodeEntry("NOT_FOUND", "Resource not found.", "The requested resource was not found."),
    422 := CodeEntry("UNPROCESSABLE_ENTITY", "The request cannot be processed.",
                     "The request cannot be processed. Please check your data."),
    429 := CodeEntry("RATE_LIMIT_EXCEEDED", "Rate limit exceeded.",
                     "Too many requests. Please wait and try again."),
    500 := CodeEntry("INTERNAL_SERVER_ERROR", "Shopify server error.",
                     "Shopify server error. Please try again later."),
    502 := CodeEntry("BAD_GATEWAY", "Shopify gateway error.", "Shopify service temporarily unavailable."),
    503 := CodeEntry("SERVICE_UNAVAILABLE", "Shopify service unavailable.",
                     "Shopify service is temporarily unavailable.")
  ]

  /** `parseShopifyError`: body GraphQL error, then status table, then transport code, then unknown. */
  function ParseShopifyError(e: RequestFailure): (r: ErrorInfo)
    ensures r.message != "" && r.userMessage != ""
    ensures r.status == 0 || r.status == StatusOrZero(e.status)
  {
    var status := StatusOrZero(e.status);
    if |e.bodyErrors| > 0 then
      var g := e.bodyErrors[0];
      ErrorInfo(OrElse(g.code, "GRAPHQL_ERROR"),
                OrElse(g.message, "GraphQL error occurred"),
                OrElse(g.message, "An error occurred while processing your request."),
                status)
    else if status in ShopifyErrorCodes then
      FromEntry(ShopifyErrorCodes[status], status)
    else if e.code == Some("ECONNABORTED") then
      ErrorInfo("TIMEOUT", "Request timeout", "Request timed out. Please try again.", 0)
    else if e.code == Some("ENOTFOUND") || e.code == Some("ECONNREFUSED") then
      ErrorInfo("NETWORK_ERROR", "Network connection error",
                "Unable to connect to Shopify. Please check your internet connection.", 0)
    else
      ErrorInfo("UNKNOWN_ERROR", OrElse(e.message, "Unknown error occurred"),
                "An unexpected error occurred. Please try again.", status)
  }

  /** The statuses the table maps: 400, 401, 403, 404, 422, 429, 500, 502 and 503. */
  lemma ShopifyTableDomain()
    ensures ShopifyErrorCodes.Keys == {400, 401, 403, 404, 422, 429, 500, 502, 503}
    ensures ShopifyErrorCodes[429].kind == "RATE_LIMIT_EXCEEDED"
  {
  }

  /**
    The decision table of the classifier: a GraphQL error in the body wins over the status, and
    a mapped status (429 among them) wins over the transport code.
   */
  lemma ParseShopifyErrorCases(e: RequestFailure)
    ensures |e.bodyErrors| > 0 ==>
              ParseShopifyError(e).kind == OrElse(e.bodyErrors[0].code, "GRAPHQL_ERROR") &&
              ParseShopifyError(e).status == StatusOrZero(e.status)
    ensures |e.bodyErrors| == 0 && StatusOrZero(e.status) in ShopifyErrorCodes ==>
              ParseShopifyError(e) == FromEntry(ShopifyErrorCodes[StatusOrZero(e.status)], StatusOrZero(e.status))
    ensures |e.bodyErrors| == 0 && StatusOrZero(e.status) == 429 ==>
              ParseShopifyError(e).kind == "RATE_LIMIT_EXCEEDED" && ParseShopifyError(e).status == 429
  {
  }

  /**
    An unmapped status without a body error falls to the transport code, and everything else is
    UNKNOWN_ERROR.
   */
  lemma ParseShopifyErrorFallback(e: RequestFailure)
    ensures |e.bodyErrors| == 0 && StatusOrZero(e.status) !in ShopifyErrorCodes ==>
              (e.code == Some("ECONNABORTED") ==> ParseShopifyError(e).kind == "TIMEOUT" && ParseShopifyError(e).status == 0) &&
              (e.code == Some("ENOTFOUND") || e.code == Some("ECONNREFUSED") ==>
                 ParseShopifyError(e).kind == "NETWORK_ERROR" && ParseShopifyError(e).status == 0) &&
              (e.code != Some("ECONNABORTED") && e.code != Some("ENOTFOUND") && e.code != Some("ECONNREFUSED") ==>
                 ParseShopifyError(e).kind == "UNKNOWN_ERROR" && ParseShopifyError(e).status == StatusOrZero(e.status))
  {
  }

  // ---------------------------------------------------------------------------------------
  // The query envelope
  // ---------------------------------------------------------------------------------------

  /**
    The outcome of one POST to the GraphQL endpoint: a response (status, the body's `errors`
    array, `data`) or a raised request failure.
   */
  datatype Reply<D> = Responded(httpStatus: int, errors: seq<GraphQLError>, data: Option<D>)
                    | Failed(failure: RequestFailure)

  /** `{errors, data, status, success}` */
  datatype QueryResult<D> = QueryResult(errors: seq<ErrorInfo>, data: Option<D>, status: int, success: bool)

  /** `shopifyWrapper.query`: never raises; GraphQL errors in a response are classified as a 422. */
  function Query<D>(reply: Reply<D>): (r: QueryResult<D>)
    ensures r.success <==> r.errors == []
    ensures |r.errors| <= 1
    ensures !r.success ==> r.data.None? && r.status == r.errors[0].status && r.errors[0].userMessage != ""
    ensures reply.Responded? && reply.errors != [] ==>
              !r.success && r.errors[0].status == 422 && r.errors[0].kind == OrElse(reply.errors[0].code, "GRAPHQL_ERROR")
    ensures reply.Responded? && reply.errors == [] ==>
              r.success && r.data == reply.data && r.status == reply.httpStatus
    ensures reply.Failed? ==> r.errors == [ParseShopifyError(reply.failure)]
  {
    match reply
    case Responded(httpStatus, errors, data) =>
      if |errors| > 0 then
        var parsed := ParseShopifyError(RequestFailure(Some(422), errors, None, None));
        QueryResult([parsed], None, parsed.status, false)
      else
        QueryResult([], data, httpStatus, true)
    case Failed(failure) =>
      var parsed := ParseShopifyError(failure);
      QueryResult([parsed], None, parsed.status, false)
  }

  // ---------------------------------------------------------------------------------------
  // getAllOrders: the cursor-pagination loop
  // ---------------------------------------------------------------------------------------

  datatype PageInfo = PageInfo(hasNextPage: bool, endCursor: Option<string>)
  /** `orders { nodes pageInfo }` */
  datatype Connection = Connection(nodes: Option<seq<UpstreamOrder>>, pageInfo: Option<PageInfo>)
  /** The `data` of an orders query. */
  datatype OrdersData = OrdersData(orders: Option<Connection>)

  /**
    What `query` returned for one request of the loop (see `Query`): the loop reads only the
    envelope's `errors` and `data`.
   */
  type PageReply = QueryResult<OrdersData>

  datatype FetchedOrders = FetchedOrders(orders: seq<UpstreamOrder>, totalCount: nat, batchSize: nat, totalBatches: nat)
  datatype FetchResult = FetchResult(errors: seq<ErrorInfo>, data: Option<FetchedOrders>, success: bool)

  /** The error returned when the loop itself raises (a page without `pageInfo`). */
  const PaginationError := ErrorInfo("PAGINATION_ERROR", "Error during pagination",
                                     "Failed to fetch all orders due to pagination error.", 0)

  /** The page's connection, when the query succeeded and `data.orders` is present. */
  predicate HasConnection(reply: PageReply)
  {
    reply.errors == [] && reply.data.Some? && reply.data.value.orders.Some?
  }

  function ConnectionOf(reply: PageReply): Connection
    requires HasConnection(reply)
  {
    reply.data.value.orders.value
  }

  /** A page after which the loop requests another one. */
  predicate Continues(reply: PageReply)
  {
    HasConnection(reply) && ConnectionOf(reply).pageInfo.Some? && ConnectionOf(reply).pageInfo.value.hasNextPage
  }

  function EndCursor(reply: PageReply): Option<string>
    requires Continues(reply)
  {
    ConnectionOf(reply).pageInfo.value.endCursor
  }

  /** `data.orders.nodes || []` of a page, or nothing when the page has no connection. */
  function PageOrders(reply: PageReply): seq<UpstreamOrder>
  {
    if HasConnection(reply) then ConnectionOf(reply).nodes.GetOr([]) else []
  }

  /** The pages' orders, concatenated in order. */
  function AllPageOrders(replies: seq<PageReply>): seq<UpstreamOrder>
  {
    if replies == [] then [] else AllPageOrders(replies[..|replies| - 1]) + PageOrders(replies[|replies| - 1])
  }

  lemma AllPageOrdersStep(replies: seq<PageReply>, i: nat)
    requires i < |replies|
    ensures AllPageOrders(replies[..i + 1]) == AllPageOrders(replies[..i]) + PageOrders(replies[i])
  {
    assert replies[..i + 1][..i] == replies[..i];
  }

  function SumOfPageSizes(replies: seq<PageReply>): nat
  {
    if replies == [] then 0 else |PageOrders(replies[0])| + SumOfPageSizes(replies[1..])
  }

  /** The number of orders fetched is the sum of the page sizes. */
  lemma {:induction false} TotalIsSumOfPageSizes(replies: seq<PageReply>)
    ensures |AllPageOrders(replies)| == SumOfPageSizes(replies)
  {
    if replies != [] {
      var n := |replies| - 1;
      if n > 0 {
        TotalIsSumOfPageSizes(replies[..n]);
        TotalIsSumOfPageSizes(replies[1..]);
        TotalIsSumOfPageSizes(replies[1..][..n - 1]);
        assert replies[1..][..n - 1] == replies[..n][1..];
        SumOfPageSizesFront(replies[..n]);
        assert replies[1..][n - 1] == replies[n];
        assert replies[..n][0] == replies[0];
        SumOfPageSizesFront(replies);
      } else {
        assert replies[..0] == [];
        assert replies[1..] == [];
      }
    }
  }

  lemma SumOfPageSizesFront(replies: seq<PageReply>)
    requires replies != []
    ensures SumOfPageSizes(replies) == |PageOrders(replies[0])| + SumOfPageSizes(replies[1..])
  {
  }

  /**
    The upstream's replies end with a page after which the loop requests no other: without
    one the loop would go on asking.
   */
  predicate Ends(replies: seq<PageReply>)
  {
    |replies| > 0 && !Continues(replies[|replies| - 1])
  }

  /** The index of the page at which the loop stops. */
  function StopPage(replies: seq<PageReply>): (k: nat)
    requires Ends(replies)
    ensures k < |replies| && !Continues(replies[k])
    ensures forall i :: 0 <= i < k ==> Continues(replies[i])
  {
    StopPageFrom(replies, 0)
  }

  /** The first page at or after `from` that does not continue. */
  function StopPageFrom(replies: seq<PageReply>, from: nat): (k: nat)
    requires Ends(replies) && from < |replies|
    ensures from <= k < |replies| && !Continues(replies[k])
    ensures forall i :: from <= i < k ==> Continues(replies[i])
    decreases |replies| - from
  {
    if !Continues(replies[from]) then from
    else StopPageFrom(replies, from + 1)
  }

  /** The envelope of a loop that ended normally with the orders collected. */
  function Done(orders: seq<UpstreamOrder>, batchSize: nat): FetchResult
    requires batchSize > 0
  {
    FetchResult([], Some(FetchedOrders(orders, |orders|, batchSize, CeilDiv(|orders|, batchSize))), true)
  }

  /**
    The rest of the pagination loop from request `i`, with `acc` the orders collected so far:
    a page error or a missing `pageInfo` ends it with a failure, a page without `data.orders`
    or without a next page ends it with the orders.
   */
  function FetchFrom(replies: seq<PageReply>, batchSize: nat, i: nat, acc: seq<UpstreamOrder>): (r: FetchResult)
    requires batchSize > 0
    requires Ends(replies) && i < |replies|
    ensures r.success <==> r.errors == []
    ensures r.success <==> r.data.Some?
    ensures !r.success ==> r.errors != []
    ensures !r.success && (forall j :: i <= j < |replies| ==> |replies[j].errors| <= 1) ==> |r.errors| == 1
    ensures r.success ==> r.data.value.totalCount == |r.data.value.orders| &&
                          r.data.value.totalBatches * batchSize >= r.data.value.totalCount
    decreases |replies| - i
  {
    var q := replies[i];
    if |q.errors| > 0 then FetchResult(q.errors, None, false)
    else if q.data.Some? && q.data.value.orders.Some? then
      var conn := q.data.value.orders.value;
      var acc' := acc + conn.nodes.GetOr([]);
      if conn.pageInfo.None? then FetchResult([PaginationError], None, false)
      else if conn.pageInfo.value.hasNextPage then FetchFrom(replies, batchSize, i + 1, acc')
      else Done(acc', batchSize)
    else Done(acc, batchSize)
  }

  /** What `getAllOrders(batchSize)` returns for the upstream's replies. */
  function FetchAll(replies: seq<PageReply>, batchSize: nat): FetchResult
    requires batchSize > 0
    requires Ends(replies)
  {
    FetchFrom(replies, batchSize, 0, [])
  }

  /**
    The loop's outcome is decided by the page it stops at: that page's error, a pagination
    error when it has no `pageInfo`, and otherwise every page's orders up to it, in order.
   */
  lemma FetchAllCases(replies: seq<PageReply>, batchSize: nat)
    requires batchSize > 0
    requires Ends(replies)
    ensures var k := StopPage(replies);
            && (replies[k].errors != [] ==> FetchAll(replies, batchSize) == FetchResult(replies[k].errors, None, false))
            && (HasConnection(replies[k]) && ConnectionOf(replies[k]).pageInfo.None? ==>
                  FetchAll(replies, batchSize) == FetchResult([PaginationError], None, false))
            && ((!HasConnection(replies[k]) && replies[k].errors == []) ||
                (HasConnection(replies[k]) && ConnectionOf(replies[k]).pageInfo.Some?) ==>
                  FetchAll(replies, batchSize) == Done(AllPageOrders(replies[..k + 1]), batchSize))
  {
    assert replies[..0] == [];
    FetchFromCases(replies, batchSize, 0);
  }

  lemma {:induction false} FetchFromCases(replies: seq<PageReply>, batchSize: nat, i: nat)
    requires batchSize > 0
    requires Ends(replies)
    requires i <= StopPage(replies)
    ensures var k := StopPage(replies);
            var r := FetchFrom(replies, batchSize, i, AllPageOrders(replies[..i]));
            && (replies[k].errors != [] ==> r == FetchResult(replies[k].errors, None, false))
            && (HasConnection(replies[k]) && ConnectionOf(replies[k]).pageInfo.None? ==>
                  r == FetchResult([PaginationError], None, false))
            && ((!HasConnection(replies[k]) && replies[k].errors == []) ||
                (HasConnection(replies[k]) && ConnectionOf(replies[k]).pageInfo.Some?) ==>
                  r == Done(AllPageOrders(replies[..k + 1]), batchSize))
    decreases StopPage(replies) - i
  {
    var k := StopPage(replies);
    if i < k {
      FetchFromStep(replies, batchSize, i);
      FetchFromCases(replies, batchSize, i + 1);
    } else {
      FetchFromAtStop(replies, batchSize, k, AllPageOrders(replies[..k]));
      AllPageOrdersStep(replies, k);
    }
  }

  /** A page the loop continues after adds its orders and moves on. */
  lemma FetchFromStep(replies: seq<PageReply>, batchSize: nat, i: nat)
    requires batchSize > 0
    requires Ends(replies)
    requires i < |replies| && Continues(replies[i])
    ensures i + 1 < |replies|
    ensures FetchFrom(replies, batchSize, i, AllPageOrders(replies[..i])) ==
            FetchFrom(replies, batchSize, i + 1, AllPageOrders(replies[..i + 1]))
  {
    AllPageOrdersStep(replies, i);
  }

  /** At a page the loop stops after, its kind decides the outcome. */
  lemma FetchFromAtStop(replies: seq<PageReply>, batchSize: nat, i: nat, acc: seq<UpstreamOrder>)
    requires batchSize > 0 && Ends(replies)
    requires i < |replies| && !Continues(replies[i])
    ensures replies[i].errors != [] ==> FetchFrom(replies, batchSize, i, acc) == FetchResult(replies[i].errors, None, false)
    ensures HasConnection(replies[i]) && ConnectionOf(replies[i]).pageInfo.None? ==>
              FetchFrom(replies, batchSize, i, acc) == FetchResult([PaginationError], None, false)
    ensures (!HasConnection(replies[i]) && replies[i].errors == []) ||
            (HasConnection(replies[i]) && ConnectionOf(replies[i]).pageInfo.Some?) ==>
              FetchFrom(replies, batchSize, i, acc) == Done(acc + PageOrders(replies[i]), batchSize)
  {
    if !HasConnection(replies[i]) {
      assert acc + [] == acc;
    }
  }

  /** A page that does not continue, reached without passing the stop page, is the stop page. */
  lemma StopsAt(replies: seq<PageReply>, i: nat)
    requires Ends(replies)
    requires i <= StopPage(replies) && !Continues(replies[i])
    ensures i == StopPage(replies)
  {
  }

  /**
    The cursors sent with the first `n` requests: none with the first, and with each later one
    the `endCursor` of the page before it.
   */
  function SentCursors(replies: seq<PageReply>, n: nat): seq<Option<string>>
    requires n <= |replies| + 1
    requires forall j :: 0 <= j < n - 1 ==> Continues(replies[j])
  {
    if n == 0 then [] else if n == 1 then [None] else SentCursors(replies, n - 1) + [EndCursor(replies[n - 2])]
  }

  /** The loop sends one cursor per request: none first, then each page's `endCursor` in turn. */
  lemma {:induction false} SentCursorsAre(replies: seq<PageReply>, n: nat)
    requires 0 < n <= |replies| + 1
    requires forall j :: 0 <= j < n - 1 ==> Continues(replies[j])
    ensures |SentCursors(replies, n)| == n && SentCursors(replies, n)[0] == None
    ensures forall j :: 0 <= j < n - 1 ==> SentCursors(replies, n)[j + 1] == EndCursor(replies[j])
  {
    if n > 1 {
      SentCursorsAre(replies, n - 1);
    }
  }

  /**
    One request of the loop, for page `i` with `allOrders` collected so far: the envelope to
    return when the page fails (its error, or a pagination error when it has no `pageInfo`),
    and otherwise the page's orders, whether another page follows and the cursor to send.
   */
  method RequestPage(replies: seq<PageReply>, batchSize: nat, i: nat, ghost allOrders: seq<UpstreamOrder>)
    returns (failure: Option<FetchResult>, orders: seq<UpstreamOrder>, hasNextPage: bool, cursor: Option<string>)
    requires batchSize > 0
    requires Ends(replies) && i <= StopPage(replies)
    ensures failure.Some? ==> i == StopPage(replies) && failure.value == FetchFrom(replies, batchSize, i, allOrders)
    ensures failure.None? && hasNextPage ==>
              i < StopPage(replies) && cursor == EndCursor(replies[i]) &&
              FetchFrom(replies, batchSize, i + 1, allOrders + orders) == FetchFrom(replies, batchSize, i, allOrders)
    ensures failure.None? && !hasNextPage ==>
              i == StopPage(replies) && Done(allOrders + orders, batchSize) == FetchFrom(replies, batchSize, i, allOrders)
  {
    var q := replies[i];
    if |q.errors| > 0 {
      StopsAt(replies, i);
      return Some(FetchResult(q.errors, None, false)), [], false, None;
    }
    if q.data.Some? && q.data.value.orders.Some? {
      var conn := q.data.value.orders.value;
      orders := conn.nodes.GetOr([]);
      if conn.pageInfo.None? {
        StopsAt(replies, i);
        return Some(FetchResult([PaginationError], None, false)), orders, false, None;
      }
      failure := None;
      hasNextPage := conn.pageInfo.value.hasNextPage;
      cursor := conn.pageInfo.value.endCursor;
      if hasNextPage {
        assert Continues(replies[i]) && cursor == EndCursor(replies[i]);
        assert i < StopPage(replies) < |replies|;
      } else {
        StopsAt(replies, i);
      }
    } else {
      StopsAt(replies, i);
      assert allOrders + [] == allOrders;
      return None, [], false, None;
    }
  }

  /**
    `shopifyWrapper.getAllOrders(batchSize)` over the upstream's replies, the i-th request
    receiving `replies[i]`. Returns the envelope, the cursor sent with each request and the
    number of 100 ms delays taken. The upstream must eventually report a last page.
   */
  method GetAllOrders(replies: seq<PageReply>, batchSize: nat)
    returns (r: FetchResult, cursors: seq<Option<string>>, delays: nat)
    requires batchSize > 0
    requires Ends(replies)
    ensures r == FetchAll(replies, batchSize)
    ensures cursors == SentCursors(replies, StopPage(replies) + 1) && delays == StopPage(replies)
  {
    var allOrders: seq<UpstreamOrder> := [];
    var hasNextPage := true;
    var cursor: Option<string> := None;
    var totalFetched := 0;
    cursors := [];
    delays := 0;
    var i := 0;
    ghost var k := StopPage(replies);
    while hasNextPage
      invariant 0 <= i <= k + 1
      invariant hasNextPage <==> i <= k
      invariant cursors == SentCursors(replies, i) && delays == (if i == 0 then 0 else i - 1)
      invariant hasNextPage ==> cursor == (if i == 0 then None else EndCursor(replies[i - 1]))
      invariant totalFetched == |allOrders|
      invariant hasNextPage ==> FetchFrom(replies, batchSize, i, allOrders) == FetchAll(replies, batchSize)
      invariant !hasNextPage ==> Done(allOrders, batchSize) == FetchAll(replies, batchSize)
      decreases k + 1 - i
    {
      cursors := cursors + [cursor];
      if i > 0 { delays := delays + 1; }
      assert cursors == SentCursors(replies, i + 1);
      var failure, orders;
      failure, orders, hasNextPage, cursor := RequestPage(replies, batchSize, i, allOrders);
      if failure.Some? {
        return failure.value, cursors, delays;
      }
      allOrders := allOrders + orders;
      totalFetched := totalFetched + |orders|;
      i := i + 1;
    }
    r := FetchResult([], Some(FetchedOrders(allOrders, |allOrders|, batchSize, CeilDiv(totalFetched, batchSize))), true);
  }

  // ---------------------------------------------------------------------------------------
  // getOrderById
  // ---------------------------------------------------------------------------------------

  datatype OrderData = OrderData(order: Option<UpstreamOrder>)
  datatype LookupResult = LookupResult(errors: seq<ErrorInfo>, data: Option<UpstreamOrder>, success: bool)

  const OrderNotFound := ErrorInfo("ORDER_NOT_FOUND", "Order not found", "The specified order was not found.", 404)

  /** `shopifyWrapper.getOrderById`: the query's errors, the order, or ORDER_NOT_FOUND (404). */
  function GetOrderById(reply: Reply<OrderData>): (r: LookupResult)
    ensures r.success <==> r.errors == []
    ensures r.success <==> r.data.Some?
    ensures Query(reply).errors != [] ==> r.errors == Query(reply).errors
    ensures Query(reply).errors == [] && (Query(reply).data.None? || Query(reply).data.value.order.None?) ==>
              r.errors == [OrderNotFound]
    ensures r.success ==> r.data == Query(reply).data.value.order
  {
    var q := Query(reply);
    if |q.errors| > 0 then LookupResult(q.errors, None, false)
    else if q.data.Some? && q.data.value.order.Some? then LookupResult([], q.data.value.order, true)
    else LookupResult([OrderNotFound], None, false)
  }
}
