/**
 * The zone API service: the URL, verb, config and payload of each request
 * it sends to the DNS service through the dashboard's pass-through endpoint.
 */
module ZoneApi {
  import opened Json
  import opened Http

  /** The collection URL of the zones. */
  const ZonesUrl: string := ApiPassthroughUrl + "v2/zones/"

  /** The URL of one zone, with its trailing slash. */
  function ZoneUrl(id: Value): (url: string)
    ensures url == ZonesUrl + ToStr(id) + "/"
  {
    ZonesUrl + ToStr(id) + "/"
  }

  /** `list(params)`: the params are wrapped into a config only when truthy. */
  function List(params: Value): (r: Request)
    ensures r.verb == GET && r.url == ZonesUrl
    ensures Truthy(params) ==> r.arg == Obj(map["params" := params])
    ensures !Truthy(params) ==> r.arg == Obj(map[])
  {
    Request(GET, ZonesUrl, ParamsConfig(params))
  }

  /** `get(id)` */
  function Get(id: Value): (r: Request)
    ensures r == Request(GET, ZonesUrl + ToStr(id) + "/", Undefined)
  {
    Request(GET, ZoneUrl(id), Undefined)
  }

  /** `deleteZone(id)`: the same URL as `get`. */
  function DeleteZone(id: Value): (r: Request)
    ensures r.verb == DELETE && r.url == Get(id).url && r.arg == Undefined
  {
    Request(DELETE, ZoneUrl(id), Undefined)
  }

  /** `create(data)`: the data is posted unmodified to the collection URL. */
  function Create(data: Value): (r: Request)
    ensures r.verb == POST && r.url == List(Undefined).url && r.arg == data
  {
    Request(POST, ZonesUrl, data)
  }

  /** The only fields the zone update API accepts. */
  function UpdatePayload(data: Object): (payload: Object)
    ensures payload.Keys == {"email", "ttl", "description"}
    ensures forall k :: k in payload ==> payload[k] == Json.Get(data, k)
  {
    map["email" := Json.Get(data, "email"), "ttl" := Json.Get(data, "ttl"), "description" := Json.Get(data, "description")]
  }

  /** `update(id, data)`: a PATCH of the whitelisted fields to the zone's URL. */
  function Update(id: Value, data: Object): (r: Request)
    ensures r.verb == PATCH && r.url == Get(id).url && r.arg == Obj(UpdatePayload(data))
  {
    Request(PATCH, ZoneUrl(id), Obj(UpdatePayload(data)))
  }

  /** Fields outside the whitelist never reach the DNS service. */
  lemma UpdateIgnoresOtherFields(id: Value, data: Object, other: Object)
    requires forall k :: k in {"email", "ttl", "description"} ==> Json.Get(data, k) == Json.Get(other, k)
    ensures Update(id, data) == Update(id, other)
  {
    assert Json.Get(data, "email") == Json.Get(other, "email");
    assert Json.Get(data, "ttl") == Json.Get(other, "ttl");
    assert Json.Get(data, "description") == Json.Get(other, "description");
  }
}
