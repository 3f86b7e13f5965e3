/**
 * The server side REST views in front of the DNS service: how each view
 * turns the request body into the keyword arguments of the DNS SDK call,
 * and how listed or fetched record sets get their zone id. The SDK calls
 * themselves are outside the model.
 */
module RestDesignate {
  import opened Json
  import Http
  import ZoneApi
  import RecordSetApi
  import FloatingIpApi

  /** `if data.get(k, None): build_kwargs[k] = data[k]` */
  function WithTruthy(build: Object, data: Object, k: string): (r: Object)
    ensures r.Keys == if PyTruthy(PyGet(data, k)) then build.Keys + {k} else build.Keys
    ensures forall j :: j in r ==> r[j] == if j == k && PyTruthy(PyGet(data, k)) then data[k] else build[j]
  {
    if PyTruthy(PyGet(data, k)) then build[k := data[k]] else build
  }

  /** The optional keys `data` holds with a truthy value. */
  function TruthyKeys(data: Object, keys: set<string>): set<string>
  {
    set k | k in keys && k in data && PyTruthy(data[k])
  }

  /** One more optional key: its entry is added exactly when it is truthy,
      and every entry is still the request's own. */
  lemma WithTruthyStep(build: Object, data: Object, k: string, fixed: set<string>, done: set<string>)
    requires build.Keys == fixed + TruthyKeys(data, done)
    requires forall j :: j in build ==> j in data && build[j] == data[j]
    ensures WithTruthy(build, data, k).Keys == fixed + TruthyKeys(data, done + {k})
    ensures forall j :: j in WithTruthy(build, data, k) ==> j in data && WithTruthy(build, data, k)[j] == data[j]
  {
    assert TruthyKeys(data, done + {k}) == TruthyKeys(data, done) + TruthyKeys(data, {k});
  }

  /** `create_zone`: name, email and type always (a missing one raises a
      KeyError, the first in that order), description, TTL and masters only
      when truthy. */
  function CreateZoneKwargs(data: Object): (r: PyResult<Object>)
    ensures r.KeyError? <==> !("name" in data && "email" in data && "type" in data)
    ensures r.KeyError? ==> r.key == if "name" !in data then "name" else if "email" !in data then "email" else "type"
    ensures r.Ok? ==> r.value.Keys == {"name", "email", "type"} + TruthyKeys(data, {"description", "ttl", "masters"})
    ensures r.Ok? ==> forall k :: k in r.value ==> k in data && r.value[k] == data[k]
  {
    if "name" !in data then KeyError("name")
    else if "email" !in data then KeyError("email")
    else if "type" !in data then KeyError("type")
    else
      var build := map["name" := data["name"], "email" := data["email"], "type" := data["type"]];
      var fixed := {"name", "email", "type"};
      assert TruthyKeys(data, {}) == {};
      WithTruthyStep(build, data, "description", fixed, {});
      var b1 := WithTruthy(build, data, "description");
      WithTruthyStep(b1, data, "ttl", fixed, {} + {"description"});
      var b2 := WithTruthy(b1, data, "ttl");
      WithTruthyStep(b2, data, "masters", fixed, {} + {"description"} + {"ttl"});
      assert {} + {"description"} + {"ttl"} + {"masters"} == {"description", "ttl", "masters"};
      Ok(WithTruthy(b2, data, "masters"))
  }

  method CreateZone(data: Object) returns (kwargs: PyResult<Object>)
    ensures kwargs == CreateZoneKwargs(data)
  {
    var name := PyIndex(data, "name");
    if name.KeyError? { return KeyError(name.key); }
    var email := PyIndex(data, "email");
    if email.KeyError? { return KeyError(email.key); }
    var zoneType := PyIndex(data, "type");
    if zoneType.KeyError? { return KeyError(zoneType.key); }
    var build := map["name" := name.value, "email" := email.value, "type" := zoneType.value];
    if PyTruthy(PyGet(data, "description")) {
      build := build["description" := data["description"]];
    }
    if PyTruthy(PyGet(data, "ttl")) {
      build := build["ttl" := data["ttl"]];
    }
    if PyTruthy(PyGet(data, "masters")) {
      build := build["masters" := data["masters"]];
    }
    kwargs := Ok(build);
  }

  /** `update_zone`: email, description and TTL, all three always. */
  function UpdateZoneKwargs(data: Object): (r: PyResult<Object>)
    ensures r.KeyError? <==> !("email" in data && "description" in data && "ttl" in data)
    ensures r.KeyError? ==> r.key == if "email" !in data then "email" else if "description" !in data then "description" else "ttl"
    ensures r.Ok? ==> r.value == map["email" := data["email"], "description" := data["description"], "ttl" := data["ttl"]]
  {
    if "email" !in data then KeyError("email")
    else if "description" !in data then KeyError("description")
    else if "ttl" !in data then KeyError("ttl")
    else Ok(map["email" := data["email"], "description" := data["description"], "ttl" := data["ttl"]])
  }

  /** `create_recordset`: name, type, TTL and records always, the
      description only when truthy. */
  function CreateRecordSetKwargs(data: Object): (r: PyResult<Object>)
    ensures r.KeyError? <==> !("name" in data && "type" in data && "ttl" in data && "records" in data)
    ensures r.KeyError? ==> r.key == if "name" !in data then "name" else if "type" !in data then "type" else if "ttl" !in data then "ttl" else "records"
    ensures r.Ok? ==> r.value.Keys == {"name", "type", "ttl", "records"} + TruthyKeys(data, {"description"})
    ensures r.Ok? ==> forall k :: k in r.value ==> k in data && r.value[k] == data[k]
  {
    if "name" !in data then KeyError("name")
    else if "type" !in data then KeyError("type")
    else if "ttl" !in data then KeyError("ttl")
    else if "records" !in data then KeyError("records")
    else
      var build := map["name" := data["name"], "type" := data["type"], "ttl" := data["ttl"], "records" := data["records"]];
      assert TruthyKeys(data, {}) == {};
      WithTruthyStep(build, data, "description", {"name", "type", "ttl", "records"}, {});
      assert {} + {"description"} == {"description"};
      Ok(WithTruthy(build, data, "description"))
  }

  method CreateRecordSet(data: Object) returns (kwargs: PyResult<Object>)
    ensures kwargs == CreateRecordSetKwargs(data)
  {
    var name := PyIndex(data, "name");
    if name.KeyError? { return KeyError(name.key); }
    var rsType := PyIndex(data, "type");
    if rsType.KeyError? { return KeyError(rsType.key); }
    var ttl := PyIndex(data, "ttl");
    if ttl.KeyError? { return KeyError(ttl.key); }
    var records := PyIndex(data, "records");
    if records.KeyError? { return KeyError(records.key); }
    var build := map["name" := name.value, "type" := rsType.value, "ttl" := ttl.value, "records" := records.value];
    if PyTruthy(PyGet(data, "description")) {
      build := build["description" := data["description"]];
    }
    kwargs := Ok(build);
  }

  /** `update_recordset`: description, TTL and records only when truthy,
      and the zone id from the URL always. */
  function UpdateRecordSetKwargs(data: Object, zoneId: Value): (r: Object)
    ensures r.Keys == {"zone_id"} + TruthyKeys(data, {"description", "ttl", "records"})
    ensures r["zone_id"] == zoneId
    ensures forall k :: k in r && k != "zone_id" ==> k in data && r[k] == data[k]
  {
    assert TruthyKeys(data, {}) == {};
    WithTruthyStep(map[], data, "description", {}, {});
    var b1 := WithTruthy(map[], data, "description");
    WithTruthyStep(b1, data, "ttl", {}, {} + {"description"});
    var b2 := WithTruthy(b1, data, "ttl");
    WithTruthyStep(b2, data, "records", {}, {} + {"description"} + {"ttl"});
    assert {} + {"description"} + {"ttl"} + {"records"} == {"description", "ttl", "records"};
    WithTruthy(b2, data, "records")["zone_id" := zoneId]
  }

  method UpdateRecordSet(data: Object, zoneId: Value) returns (kwargs: Object)
    ensures kwargs == UpdateRecordSetKwargs(data, zoneId)
  {
    kwargs := map[];
    if PyTruthy(PyGet(data, "description")) {
      kwargs := kwargs["description" := data["description"]];
    }
    assert kwargs == WithTruthy(map[], data, "description");
    ghost var b1 := kwargs;
    if PyTruthy(PyGet(data, "ttl")) {
      kwargs := kwargs["ttl" := data["ttl"]];
    }
    assert kwargs == WithTruthy(b1, data, "ttl");
    ghost var b2 := kwargs;
    if PyTruthy(PyGet(data, "records")) {
      kwargs := kwargs["records" := data["records"]];
    }
    assert kwargs == WithTruthy(b2, data, "records");
    kwargs := kwargs["zone_id" := zoneId];
  }

  /** `update_dns_floatingip`: the PTR name always, description and TTL
      only when truthy. */
  function UpdateFloatingIpKwargs(data: Object): (r: PyResult<Object>)
    ensures r.KeyError? <==> "ptrdname" !in data
    ensures r.KeyError? ==> r.key == "ptrdname"
    ensures r.Ok? ==> r.value.Keys == {"ptrdname"} + TruthyKeys(data, {"description", "ttl"})
    ensures r.Ok? ==> forall k :: k in r.value ==> k in data && r.value[k] == data[k]
  {
    if "ptrdname" !in data then KeyError("ptrdname")
    else
      var build := map["ptrdname" := data["ptrdname"]];
      assert TruthyKeys(data, {}) == {};
      WithTruthyStep(build, data, "description", {"ptrdname"}, {});
      var b1 := WithTruthy(build, data, "description");
      WithTruthyStep(b1, data, "ttl", {"ptrdname"}, {} + {"description"});
      assert {} + {"description"} + {"ttl"} == {"description", "ttl"};
      Ok(WithTruthy(b1, data, "ttl"))
  }

  method UpdateFloatingIp(data: Object) returns (kwargs: PyResult<Object>)
    ensures kwargs == UpdateFloatingIpKwargs(data)
  {
    var ptrdname := PyIndex(data, "ptrdname");
    if ptrdname.KeyError? { return KeyError(ptrdname.key); }
    var build := map["ptrdname" := ptrdname.value];
    if PyTruthy(PyGet(data, "description")) {
      build := build["description" := data["description"]];
    }
    if PyTruthy(PyGet(data, "ttl")) {
      build := build["ttl" := data["ttl"]];
    }
    kwargs := Ok(build);
  }

  /** The dashboard's zone update reaches the DNS service unless one of the
      three fields it forwards is `undefined` in the form's model, which
      drops it from the JSON body. */
  lemma DashboardZoneUpdateAccepted(id: Value, model: Object)
    ensures var body := Http.Wire(ZoneApi.Update(id, model).arg.fields);
      UpdateZoneKwargs(body).Ok? <==>
        !Get(model, "email").Undefined? && !Get(model, "description").Undefined? && !Get(model, "ttl").Undefined?
  {
  }

  /** The dashboard's unset clears only the PTR name: its `null`
      description and TTL are falsy, so the service leaves them alone. */
  lemma UnsetClearsOnlyPtrName(id: Value)
    ensures UpdateFloatingIpKwargs(Http.Wire(FloatingIpApi.Unset(id).arg.fields)) == Ok(map["ptrdname" := Null])
  {
    var body := Http.Wire(FloatingIpApi.Unset(id).arg.fields);
    assert body == map["ptrdname" := Null, "description" := Null, "ttl" := Null];
  }

  /** `_populate_zone_id(items, zone_id)`: sets `zone_id` on every item in
      place, exactly as `RecordSet.get` does for a single record set, and
      returns the same list. */
  method PopulateZoneId(items: array<Object>, zoneId: Value) returns (result: array<Object>)
    modifies items
    ensures result == items
    ensures forall i :: 0 <= i < items.Length ==> items[i] == GetRecordSet(old(items[i]), zoneId)
  {
    var n := 0;
    while n < items.Length
      invariant 0 <= n <= items.Length
      invariant forall i :: 0 <= i < n ==> items[i] == GetRecordSet(old(items[i]), zoneId)
      invariant forall i :: n <= i < items.Length ==> items[i] == old(items[i])
    {
      items[n] := items[n]["zone_id" := zoneId];
      n := n + 1;
    }
    result := items;
  }

  /** `_sdk_object_to_list(object)`: `to_dict()` of each SDK object, in order. */
  method SdkObjectToList<T>(objects: seq<T>, toDict: T -> Object) returns (resultList: seq<Object>)
    ensures |resultList| == |objects|
    ensures forall i :: 0 <= i < |objects| ==> resultList[i] == toDict(objects[i])
  {
    resultList := [];
    for n := 0 to |objects|
      invariant |resultList| == n
      invariant forall i :: 0 <= i < n ==> resultList[i] == toDict(objects[i])
    {
      resultList := resultList + [toDict(objects[n])];
    }
  }

  /** `RecordSet.get`: the fetched record set with the zone id of the URL. */
  function GetRecordSet(recordSet: Object, zoneId: Value): (r: Object)
    ensures r.Keys == recordSet.Keys + {"zone_id"} && r["zone_id"] == zoneId
    ensures forall k :: k in recordSet && k != "zone_id" ==> r[k] == recordSet[k]
  {
    recordSet["zone_id" := zoneId]
  }
}
