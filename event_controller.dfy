/** GET /events: query-parameter validation, one call to the event service, and the JSON reply. */
module EventController {
  import opened Wrappers
  import opened GoInt
  import opened Decimal
  import opened EventTypes
  import opened EventStore

  /** The query string: each parameter is absent (None) or present with a possibly empty value. */
  datatype ListEventsRequest = ListEventsRequest(namespace: Option<string>, limit: Option<string>)

  datatype Body =
    | ErrorBody(error: string)
    | EventsBody(events: seq<Event>, total: int)

  datatype Response = Response(status: int, body: Body)

  const StatusOK := 200
  const StatusBadRequest := 400
  const StatusInternalServerError := 500

  const DefaultLimit := "100"

  /** `ctx.Query("namespace")`: the value as given, "" when absent. */
  function NamespaceParam(q: ListEventsRequest): string {
    q.namespace.GetOr("")
  }

  /** `ctx.DefaultQuery("limit", "100")`: the value as given (an empty one included), "100" when absent. */
  function LimitParam(q: ListEventsRequest): string {
    q.limit.GetOr(DefaultLimit)
  }

  /** The arguments the handler calls the service with, or the 400 reply it gives instead. */
  function ServiceArguments(q: ListEventsRequest): (r: Result<(string, int), Response>)
    ensures r.Failure? <==> ParseInt64(LimitParam(q)).None? || ParseInt64(LimitParam(q)).value <= 0
    ensures r.Failure? ==> r.error == Response(StatusBadRequest, ErrorBody("invalid limit parameter"))
    ensures r.Success? ==> r.value == (NamespaceParam(q), ParseInt64(LimitParam(q)).value) && r.value.1 > 0
  {
    var limit := ParseInt64(LimitParam(q));
    if limit.None? || limit.value <= 0 then
      Failure(Response(StatusBadRequest, ErrorBody("invalid limit parameter")))
    else
      Success((NamespaceParam(q), limit.value))
  }

  /**
   * ListEvents, with the service's GetEvents as `getEvents`: 400 exactly when the limit is
   * rejected, 500 exactly when the service fails, and otherwise 200 with the service's events
   * unchanged and `total` their number; an error reply carries only its message.
   */
  function ListEvents(q: ListEventsRequest, getEvents: (string, int) -> Result<seq<Event>, StoreError>): (resp: Response)
    ensures resp.status == StatusBadRequest <==> ServiceArguments(q).Failure?
    ensures resp.status == StatusInternalServerError <==>
              ServiceArguments(q).Success? && getEvents(ServiceArguments(q).value.0, ServiceArguments(q).value.1).Failure?
    ensures resp.status == StatusOK <==>
              ServiceArguments(q).Success? && getEvents(ServiceArguments(q).value.0, ServiceArguments(q).value.1).Success?
    ensures resp.status == StatusOK ==>
              && resp.body.EventsBody?
              && resp.body.events == getEvents(ServiceArguments(q).value.0, ServiceArguments(q).value.1).value
              && resp.body.total == |resp.body.events|
    ensures resp.status == StatusBadRequest ==> resp.body == ErrorBody("invalid limit parameter")
    ensures resp.status == StatusInternalServerError ==> resp.body == ErrorBody("failed to list events")
    ensures resp.status != StatusOK ==> resp.body.ErrorBody?
  {
    match ServiceArguments(q)
    case Failure(badRequest) => badRequest
    case Success((namespace, limit)) =>
      match getEvents(namespace, limit)
      case Failure(_) => Response(StatusInternalServerError, ErrorBody("failed to list events"))
      case Success(events) => Response(StatusOK, EventsBody(events, |events|))
  }

  /** A rejected limit is answered without the service: the reply is the same whatever the service would say. */
  lemma RejectedLimitSkipsService(q: ListEventsRequest,
                                  s1: (string, int) -> Result<seq<Event>, StoreError>,
                                  s2: (string, int) -> Result<seq<Event>, StoreError>)
    requires ServiceArguments(q).Failure?
    ensures ListEvents(q, s1) == ListEvents(q, s2)
  {
  }

  /** Without a limit parameter the service is asked for 100 events of the namespace given (or ""). */
  lemma AbsentLimitMeansHundred(namespace: Option<string>)
    ensures ServiceArguments(ListEventsRequest(namespace, None)) == Success((namespace.GetOr(""), 100))
  {
    FormatThenParse(100);
    assert FormatInt(100) == "100" by {
      assert FormatNat(10) == "10" by { assert FormatNat(1) == "1"; }
    }
  }

  /** A present but empty limit parameter does not fall back to the default: it is rejected. */
  lemma EmptyLimitRejected(namespace: Option<string>)
    ensures ListEvents(ListEventsRequest(namespace, Some("")), (_, _) => Success([])).status == StatusBadRequest
  {
  }

  /** Zero and negative limits are rejected even though they parse. */
  lemma NonPositiveLimitRejected(namespace: Option<string>, n: int)
    requires MinInt64 <= n <= 0
    ensures ServiceArguments(ListEventsRequest(namespace, Some(FormatInt(n)))).Failure?
  {
    FormatThenParse(n);
  }

  /**
   * With the events service over the table `rows`, a successful reply lists the namespace's
   * newest events, at most `limit` of them, with `total` their number.
   */
  lemma ReplyFromTable(q: ListEventsRequest, rows: seq<Event>, dbErr: Option<string>)
    requires ServiceArguments(q).Success? && dbErr.None?
    ensures var (namespace, limit) := ServiceArguments(q).value;
            var resp := ListEvents(q, (ns, l) => Select(rows, ns, l, dbErr));
            resp.status == StatusOK
            && resp.body == EventsBody(Query(rows, namespace, limit), |Query(rows, namespace, limit)|)
            && |resp.body.events| <= limit
            && forall i :: 0 <= i < |resp.body.events| ==> resp.body.events[i].namespace == namespace
  {
  }
}
