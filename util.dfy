/**
 * The shared helpers of the dashboard's JavaScript resources
 * (util.service.js): status guards, building a form model from an item, and
 * stamping list items with a synthetic `_timestampId`.
 */
module Util {
  import opened Json

  /** `notDeleted(resource)`: the resource's status is not 'DELETED'. */
  predicate NotDeleted(resource: Object)
    ensures NotDeleted(resource) <==> "status" !in resource || resource["status"] != Str("DELETED")
  {
    Get(resource, "status") != Str("DELETED")
  }

  /** `notPending(resource)`: the resource's status is not 'PENDING'. */
  predicate NotPending(resource: Object)
    ensures NotPending(resource) <==> "status" !in resource || resource["status"] != Str("PENDING")
  {
    Get(resource, "status") != Str("PENDING")
  }

  /** The property name `formItem.key` stands for when used as `item[formItem.key]`. */
  function KeyOf(formItem: Object): string
  {
    ToStr(Get(formItem, "key"))
  }

  /** Every property name some entry of the form refers to. */
  function FormKeys(form: seq<Object>): set<string>
  {
    set i | 0 <= i < |form| :: KeyOf(form[i])
  }

  /**
   * What `getModel(form, item)` returns: the item's truthy values under the
   * form's keys, and nothing else.
   */
  function ModelOf(form: seq<Object>, item: Object): (model: Object)
    ensures forall k :: k in model <==> k in FormKeys(form) && Truthy(Get(item, k))
    ensures forall k :: k in model ==> k in item && model[k] == item[k]
  {
    map k | k in FormKeys(form) && Truthy(Get(item, k)) :: item[k]
  }

  /** `getModel(form, item)`: walk the form entries, copying each truthy value. */
  method GetModel(form: seq<Object>, item: Object) returns (result: Object)
    ensures result.Keys <= FormKeys(form)
    ensures forall k :: k in result <==> k in FormKeys(form) && Truthy(Get(item, k))
    ensures forall k :: k in result ==> k in item && result[k] == item[k]
    ensures result == ModelOf(form, item)
  {
    result := map[];
    var i := 0;
    while i < |form|
      invariant 0 <= i <= |form|
      invariant forall k :: k in result <==>
        (exists j :: 0 <= j < i && KeyOf(form[j]) == k) && Truthy(Get(item, k))
      invariant forall k :: k in result ==> k in item && result[k] == item[k]
    {
      var key := KeyOf(form[i]);
      var value := Get(item, key);
      if Truthy(value) {
        result := result[key := item[key]];
      }
      i := i + 1;
    }
  }

  /** The property `addTimestampIds` reads the id from: `idField || 'id'`. */
  function IdKey(idField: Value): string
  {
    if Truthy(idField) then ToStr(idField) else "id"
  }

  /** The timestamp an item is stamped with: its own `item[timestampField]`
      when a timestamp field is given, otherwise the shared current time. */
  function TimestampFor(item: Object, timestampField: Value, now: int): Value
  {
    if timestampField != Undefined then Get(item, ToStr(timestampField)) else Num(now)
  }

  /** One item after `addTimestampIds`: only `_timestampId` is written. */
  function Stamped(item: Object, idField: Value, timestampField: Value, now: int): (r: Object)
    ensures r.Keys == item.Keys + {"_timestampId"}
    ensures r["_timestampId"] ==
      Plus(Get(item, IdKey(idField)), TimestampFor(item, timestampField, now))
    ensures forall k :: k in item && k != "_timestampId" ==> r[k] == item[k]
  {
    item["_timestampId" := Plus(Get(item, IdKey(idField)), TimestampFor(item, timestampField, now))]
  }

  /**
   * `addTimestampIds(items, idField, timestampField)`, with `Date.now()`
   * passed in as `now`. An omitted optional argument is `Undefined`.
   */
  method AddTimestampIds(items: array<Object>, idField: Value, timestampField: Value, now: int)
    modifies items
    ensures forall i :: 0 <= i < items.Length ==>
      items[i] == Stamped(old(items[i]), idField, timestampField, now)
  {
    var idKey := IdKey(idField);
    var timestamp := Num(now);
    var i := 0;
    while i < items.Length
      invariant 0 <= i <= items.Length
      invariant forall j :: 0 <= j < i ==> items[j] == Stamped(old(items[j]), idField, timestampField, now)
      invariant forall j :: i <= j < items.Length ==> items[j] == old(items[j])
      invariant timestampField == Undefined ==> timestamp == Num(now)
    {
      var item := items[i];
      if timestampField != Undefined {
        timestamp := Get(item, ToStr(timestampField));
      }
      items[i] := item["_timestampId" := Plus(Get(item, idKey), timestamp)];
      i := i + 1;
    }
  }
}
