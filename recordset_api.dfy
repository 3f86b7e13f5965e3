/**
 * The record set API service: the URL, verb and payload of each request it
 * sends to the DNS service through the dashboard's pass-through endpoint.
 */
module RecordSetApi {
  import opened Json
  import opened Http

  /** The collection URL of the record sets of one zone. */
  function RecordSetsUrl(zoneId: Value): (url: string)
    ensures url == ApiPassthroughUrl + "v2/zones/" + ToStr(zoneId) + "/recordsets/"
  {
    ApiPassthroughUrl + "v2/zones/" + ToStr(zoneId) + "/recordsets/"
  }

  /** `list(zoneId, params)`: the params object is passed on as the request config. */
  function List(zoneId: Value, params: Value): (r: Request)
    ensures r.verb == GET && r.url == RecordSetsUrl(zoneId) && r.arg == params
  {
    Request(GET, RecordSetsUrl(zoneId), params)
  }

  /** `get(zoneId, recordSetId)` */
  function Get(zoneId: Value, recordSetId: Value): (r: Request)
    ensures r.verb == GET && r.arg == Undefined
    ensures r.url == RecordSetsUrl(zoneId) + ToStr(recordSetId) + "/"
  {
    Request(GET, RecordSetsUrl(zoneId) + ToStr(recordSetId) + "/", Undefined)
  }

  /** How `get` settles: a failure is masked as an empty object so that the
      details view can still render. */
  function GetSettled(reply: Reply): (h: Handled)
    ensures h.settled.Fulfilled?
    ensures reply.Success? ==> h == Handled(Fulfilled(reply.response), None)
    ensures reply.Failure? ==> h.settled.value == Obj(map[]) && h.toast == Some("Unable to retrieve the record set.")
  {
    match reply
    case Success(response) => Handled(Fulfilled(response), None)
    case Failure => Handled(Fulfilled(Obj(map[])), Some("Unable to retrieve the record set."))
  }

  /** `deleteRecordSet(zoneId, recordSetId)` */
  function DeleteRecordSet(zoneId: Value, recordSetId: Value): (r: Request)
    ensures r.verb == DELETE && r.arg == Undefined
    ensures r.url == Get(zoneId, recordSetId).url
  {
    Request(DELETE, RecordSetsUrl(zoneId) + ToStr(recordSetId) + "/", Undefined)
  }

  /** `create(zoneId, data)`: the data is sent unmodified. */
  function Create(zoneId: Value, data: Value): (r: Request)
    ensures r.verb == POST && r.url == List(zoneId, Undefined).url && r.arg == data
  {
    Request(POST, RecordSetsUrl(zoneId), data)
  }

  /** The only fields the update API accepts. */
  function UpdatePayload(data: Object): (payload: Object)
    ensures payload.Keys == {"ttl", "description", "records"}
    ensures forall k :: k in payload ==> payload[k] == Json.Get(data, k)
  {
    map["ttl" := Json.Get(data, "ttl"), "description" := Json.Get(data, "description"), "records" := Json.Get(data, "records")]
  }

  /** `update(zoneId, recordSetId, data)`: a PUT without the trailing slash
      that `get` and `deleteRecordSet` use. */
  function Update(zoneId: Value, recordSetId: Value, data: Object): (r: Request)
    ensures r.verb == PUT && r.arg == Obj(UpdatePayload(data))
    ensures r.url + "/" == Get(zoneId, recordSetId).url
  {
    Request(PUT, RecordSetsUrl(zoneId) + ToStr(recordSetId), Obj(UpdatePayload(data)))
  }

  /** Fields outside the whitelist never reach the DNS service: two data
      objects that agree on ttl, description and records send the same update. */
  lemma UpdateIgnoresOtherFields(zoneId: Value, recordSetId: Value, data: Object, other: Object)
    requires forall k :: k in {"ttl", "description", "records"} ==> Json.Get(data, k) == Json.Get(other, k)
    ensures Update(zoneId, recordSetId, data) == Update(zoneId, recordSetId, other)
  {
    assert Json.Get(data, "ttl") == Json.Get(other, "ttl");
    assert Json.Get(data, "description") == Json.Get(other, "description");
    assert Json.Get(data, "records") == Json.Get(other, "records");
  }
}
