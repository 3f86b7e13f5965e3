/**
 * The floating IP PTR API service: the requests that list, read, set and
 * unset the reverse DNS name of a floating IP.
 */
module FloatingIpApi {
  import opened Json
  import opened Http

  const FloatingIpsUrl: string := ApiPassthroughUrl + "v2/reverse/floatingips"

  /** `list(params)` */
  function List(params: Value): (r: Request)
    ensures r.verb == GET && r.url == FloatingIpsUrl
    ensures r.arg.Obj? && ("params" in r.arg.fields <==> Truthy(params))
    ensures Truthy(params) ==> r.arg == Obj(map["params" := params])
  {
    Request(GET, FloatingIpsUrl, ParamsConfig(params))
  }

  /** `get(id, params)`: '/' and the id, without a trailing slash. */
  function Get(id: Value, params: Value): (r: Request)
    ensures r.verb == GET && r.url == FloatingIpsUrl + "/" + ToStr(id)
    ensures r.arg == List(params).arg
  {
    Request(GET, FloatingIpsUrl + "/" + ToStr(id), ParamsConfig(params))
  }

  /** The only fields the PTR update API accepts. */
  function SetPayload(data: Object): (payload: Object)
    ensures payload.Keys == {"ptrdname", "description", "ttl"}
    ensures forall k :: k in payload ==> payload[k] == Json.Get(data, k)
  {
    map["ptrdname" := Json.Get(data, "ptrdname"), "description" := Json.Get(data, "description"), "ttl" := Json.Get(data, "ttl")]
  }

  /** `set(floatingIpID, data)`: a PATCH of the whitelisted fields to the same URL `get` reads. */
  function Set(floatingIpId: Value, data: Object): (r: Request)
    ensures r.verb == PATCH && r.url == Get(floatingIpId, Undefined).url
    ensures r.arg == Obj(SetPayload(data))
  {
    Request(PATCH, FloatingIpsUrl + "/" + ToStr(floatingIpId), Obj(SetPayload(data)))
  }

  /** The data `unset` hands to `set`. */
  const Cleared: Object := map["ptrdname" := Null, "description" := Null, "ttl" := Null]

  /** `unset(floatingIpID)`: a `set` that clears all three fields. */
  function Unset(floatingIpId: Value): (r: Request)
    ensures r == Set(floatingIpId, Cleared)
    ensures r.arg.Obj? && forall k :: k in r.arg.fields ==> r.arg.fields[k] == Null
  {
    Set(floatingIpId, Cleared)
  }

  /** Fields outside the whitelist never reach the DNS service. */
  lemma SetIgnoresOtherFields(floatingIpId: Value, data: Object, other: Object)
    requires forall k :: k in {"ptrdname", "description", "ttl"} ==> Json.Get(data, k) == Json.Get(other, k)
    ensures Set(floatingIpId, data) == Set(floatingIpId, other)
  {
    assert Json.Get(data, "ptrdname") == Json.Get(other, "ptrdname");
    assert Json.Get(data, "description") == Json.Get(other, "description");
    assert Json.Get(data, "ttl") == Json.Get(other, "ttl");
  }
}
