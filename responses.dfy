/**
 * The success side of the envelope: pagination metadata and the response
 * builders. A builder writes a status and a JSON body to the response; here it
 * returns that pair as a `Reply`. The clock is the `now` parameter; an absent
 * optional argument is `None`.
 */
module Responses {
  import opened Wrappers
  import opened Json

  datatype PaginationMeta = PaginationMeta(
    page: int, limit: int, total: int, totalPages: int, hasNext: bool, hasPrev: bool)

  lemma MulMonotone(x: int, y: int, k: int)
    requires k > 0
    ensures x <= y <==> x * k <= y * k
  {
    assert y * k - x * k == (y - x) * k;
    if x > y {
      assert (x - y) * k > 0;
    }
  }

  /** `Math.ceil(a / b)` for a positive divisor, as the least multiple count covering `a`. */
  function CeilDiv(a: int, b: int): (q: int)
    requires b > 0
    ensures q * b >= a && (q - 1) * b < a
  {
    var d, r := (-a) / b, (-a) % b;
    assert -a == d * b + r && 0 <= r < b;
    assert (-d) * b == -(d * b);
    assert (-d - 1) * b == -(d * b) - b;
    -d
  }

  /** `createPaginationMeta(page, limit, total)`; a limit of zero or less is outside the model. */
  function CreatePaginationMeta(page: int, limit: int, total: int): (m: PaginationMeta)
    requires limit > 0
    ensures m.page == page && m.limit == limit && m.total == total
    ensures m.totalPages * limit >= total && (m.totalPages - 1) * limit < total
    ensures m.hasNext <==> page < m.totalPages
    ensures m.hasPrev <==> page > 1
  {
    var totalPages := CeilDiv(total, limit);
    PaginationMeta(page, limit, total, totalPages, page < totalPages, page > 1)
  }

  /** `totalPages` is the least page count whose pages hold all `total` items. */
  lemma TotalPagesIsLeast(page: int, limit: int, total: int, pages: int)
    requires limit > 0
    requires pages * limit >= total
    ensures CreatePaginationMeta(page, limit, total).totalPages <= pages
  {
    var t := CreatePaginationMeta(page, limit, total).totalPages;
    if pages < t {
      MulMonotone(pages, t - 1, limit);
    }
  }

  /** There is a next page exactly when the items before and on this page do not exhaust the total. */
  lemma HasNextIffMoreItems(page: int, limit: int, total: int)
    requires limit > 0
    ensures CreatePaginationMeta(page, limit, total).hasNext <==> page * limit < total
  {
    var t := CreatePaginationMeta(page, limit, total).totalPages;
    MulMonotone(page, t - 1, limit);
    MulMonotone(t, page, limit);
  }

  /** With no items there are no pages, and no page from 0 on has a successor. */
  lemma EmptyCollection(page: int, limit: int)
    requires limit > 0 && page >= 0
    ensures CreatePaginationMeta(page, limit, 0).totalPages == 0
    ensures !CreatePaginationMeta(page, limit, 0).hasNext
  {
    var t := CreatePaginationMeta(page, limit, 0).totalPages;
    if t > 0 {
      MulMonotone(1, t, limit);
    } else if t < 0 {
      MulMonotone(t, -1, limit);
    }
  }

  /** With at least one item per page there are never more pages than items. */
  lemma TotalPagesAtMostTotal(page: int, limit: int, total: int)
    requires limit > 0 && total >= 0
    ensures CreatePaginationMeta(page, limit, total).totalPages <= total
  {
    var t := CreatePaginationMeta(page, limit, total).totalPages;
    if t > total {
      MulMonotone(total, t - 1, limit);
      MulMonotone(1, limit, total + 1);
    }
  }

  /** A non-empty collection of at most `limit` items fits on exactly one page. */
  lemma SinglePage(page: int, limit: int, total: int)
    requires 0 < total <= limit
    ensures CreatePaginationMeta(page, limit, total).totalPages == 1
  {
    var t := CreatePaginationMeta(page, limit, total).totalPages;
    if t > 1 {
      MulMonotone(2, t, limit);
    } else if t < 1 {
      MulMonotone(t, 0, limit);
    }
  }

  datatype Id = StringId(s: string) | NumberId(n: int)

  datatype Meta = Meta(timestamp: string, requestId: Option<string>)

  datatype HealthStatus = Healthy | Unhealthy

  datatype HealthCheck = HealthCheck(
    status: HealthStatus,
    timestamp: string,
    uptime: int,
    version: Option<string>,
    services: Option<map<string, HealthStatus>>)

  /** What a success envelope carries under `data`. */
  datatype Payload =
    | Data(value: Value)
    | Items(items: seq<Value>)
    | CreatedData(id: Id, data: Value, message: string)
    | UpdatedData(data: Value, message: string)
    | DeletedData(id: Id, message: string)

  datatype Body =
    | SuccessBody(success: bool, data: Payload, message: Option<string>,
                  pagination: Option<PaginationMeta>, meta: Meta)
    | HealthBody(health: HealthCheck)
    | NoBody

  datatype Reply = Reply(status: int, body: Body)

  /** A success envelope stamped at `now` and correlated with `requestId`. */
  predicate IsSuccessEnvelope(b: Body, requestId: Option<string>, now: string) {
    b.SuccessBody? && b.success && b.meta == Meta(now, requestId)
  }

  /** `message || fallback`: an absent or empty message takes the fallback. */
  function MessageOrDefault(message: Option<string>, fallback: string): (m: string)
    requires fallback != ""
    ensures m != ""
    ensures message.Some? && message.value != "" ==> m == message.value
    ensures message.None? || message == Some("") ==> m == fallback
  {
    if message.Some? && message.value != "" then message.value else fallback
  }

  /** The builder bound to one response and one optional request id. */
  datatype ResponseHelper = ResponseHelper(requestId: Option<string>) {

    function CreateMeta(now: string): (m: Meta)
      ensures m.timestamp == now && m.requestId == requestId
    {
      Meta(now, requestId)
    }

    /** 200 unless a status is given; the data and message exactly as passed. */
    function Success(data: Value, message: Option<string>, statusCode: Option<int>, now: string): (r: Reply)
      ensures statusCode.None? ==> r.status == 200
      ensures statusCode.Some? ==> r.status == statusCode.value
      ensures IsSuccessEnvelope(r.body, requestId, now)
      ensures r.body.data == Data(data) && r.body.message == message && r.body.pagination.None?
    {
      Reply(statusCode.GetOr(200), SuccessBody(true, Data(data), message, None, CreateMeta(now)))
    }

    function Paginated(items: seq<Value>, pagination: PaginationMeta, message: Option<string>,
                       statusCode: Option<int>, now: string): (r: Reply)
      ensures statusCode.None? ==> r.status == 200
      ensures statusCode.Some? ==> r.status == statusCode.value
      ensures IsSuccessEnvelope(r.body, requestId, now)
      ensures r.body.data == Items(items) && r.body.message == message
      ensures r.body.pagination == Some(pagination)
    {
      Reply(statusCode.GetOr(200), SuccessBody(true, Items(items), message, Some(pagination), CreateMeta(now)))
    }

    /** 201, carrying the id and the data, with a never-empty message. */
    function Created(id: Id, data: Value, message: Option<string>, now: string): (r: Reply)
      ensures r.status == 201
      ensures IsSuccessEnvelope(r.body, requestId, now)
      ensures r.body.message.None? && r.body.pagination.None?
      ensures r.body.data.CreatedData? && r.body.data.id == id && r.body.data.data == data
      ensures r.body.data.message != ""
      ensures r.body.data.message == MessageOrDefault(message, "Resource created successfully")
    {
      var payload := CreatedData(id, data, MessageOrDefault(message, "Resource created successfully"));
      Reply(201, SuccessBody(true, payload, None, None, CreateMeta(now)))
    }

    function Updated(data: Value, message: Option<string>, now: string): (r: Reply)
      ensures r.status == 200
      ensures IsSuccessEnvelope(r.body, requestId, now)
      ensures r.body.message.None? && r.body.pagination.None?
      ensures r.body.data.UpdatedData? && r.body.data.data == data
      ensures r.body.data.message != ""
      ensures r.body.data.message == MessageOrDefault(message, "Resource updated successfully")
    {
      var payload := UpdatedData(data, MessageOrDefault(message, "Resource updated successfully"));
      Reply(200, SuccessBody(true, payload, None, None, CreateMeta(now)))
    }

    function Deleted(id: Id, message: Option<string>, now: string): (r: Reply)
      ensures r.status == 200
      ensures IsSuccessEnvelope(r.body, requestId, now)
      ensures r.body.message.None? && r.body.pagination.None?
      ensures r.body.data.DeletedData? && r.body.data.id == id
      ensures r.body.data.message != ""
      ensures r.body.data.message == MessageOrDefault(message, "Resource deleted successfully")
    {
      var payload := DeletedData(id, MessageOrDefault(message, "Resource deleted successfully"));
      Reply(200, SuccessBody(true, payload, None, None, CreateMeta(now)))
    }

    /** 204 and no body at all. */
    function NoContent(): (r: Reply)
      ensures r.status == 204 && r.body.NoBody?
    {
      Reply(204, NoBody)
    }

    /** The bare health record (no `success` member): 200 when healthy, 503 otherwise. */
    function Health(status: HealthStatus, uptime: int, version: Option<string>,
                    services: Option<map<string, HealthStatus>>, now: string): (r: Reply)
      ensures r.status == 200 <==> status == Healthy
      ensures r.status == 503 <==> status == Unhealthy
      ensures r.body == HealthBody(HealthCheck(status, now, uptime, version, services))
    {
      Reply(if status == Healthy then 200 else 503, HealthBody(HealthCheck(status, now, uptime, version, services)))
    }
  }

  // The standalone helpers build on a helper without a request id.

  function SendSuccess(data: Value, message: Option<string>, statusCode: Option<int>, now: string): (r: Reply)
    ensures r == ResponseHelper(None).Success(data, message, statusCode, now)
    ensures r.body.meta.requestId.None?
  {
    ResponseHelper(None).Success(data, message, statusCode, now)
  }

  function SendCreated(id: Id, data: Value, message: Option<string>, now: string): (r: Reply)
    ensures r == ResponseHelper(None).Created(id, data, message, now)
    ensures r.body.meta.requestId.None?
  {
    ResponseHelper(None).Created(id, data, message, now)
  }

  function SendUpdated(data: Value, message: Option<string>, now: string): (r: Reply)
    ensures r == ResponseHelper(None).Updated(data, message, now)
    ensures r.body.meta.requestId.None?
  {
    ResponseHelper(None).Updated(data, message, now)
  }

  function SendDeleted(id: Id, message: Option<string>, now: string): (r: Reply)
    ensures r == ResponseHelper(None).Deleted(id, message, now)
    ensures r.body.meta.requestId.None?
  {
    ResponseHelper(None).Deleted(id, message, now)
  }

  /** `sendPaginated` passes no status, so it always answers 200. */
  function SendPaginated(items: seq<Value>, pagination: PaginationMeta, message: Option<string>, now: string): (r: Reply)
    ensures r == ResponseHelper(None).Paginated(items, pagination, message, None, now)
    ensures r.status == 200 && r.body.meta.requestId.None?
  {
    ResponseHelper(None).Paginated(items, pagination, message, None, now)
  }

  /** `sendNoContent`: 204 and no body. */
  function SendNoContent(): (r: Reply)
    ensures r.status == 204 && r.body.NoBody?
  {
    ResponseHelper(None).NoContent()
  }

  /** `sendHealth`: the bare health record, 200 when healthy and 503 otherwise. */
  function SendHealth(status: HealthStatus, uptime: int, version: Option<string>,
                      services: Option<map<string, HealthStatus>>, now: string): (r: Reply)
    ensures r.status == 200 <==> status == Healthy
    ensures r.status == 503 <==> status == Unhealthy
    ensures r.body == HealthBody(HealthCheck(status, now, uptime, version, services))
  {
    ResponseHelper(None).Health(status, uptime, version, services, now)
  }
}
