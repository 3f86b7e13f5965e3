/**
 * What the create, update, set and unset actions share: the wrapping of a
 * list into single-property objects (the form library cannot edit a list of
 * plain strings) and back, and how an action's promise ends once its modal
 * form and its API call have settled.
 */
module FormActions {
  import opened Json
  import opened ActionResults
  import opened I18n
  import Http

  /** `values.map(function (x) { return {key: x}; })` */
  function Wrap(key: string, values: seq<Value>): (r: seq<Value>)
    ensures |r| == |values|
    ensures forall i :: 0 <= i < |values| ==> r[i] == Obj(map[key := values[i]])
  {
    seq(|values|, i requires 0 <= i < |values| => Obj(map[key := values[i]]))
  }

  /** `items.map(function (item) { return item.key; })`, or `None` where an
      element is `null` or `undefined` and reading its property throws. */
  function Unwrap(key: string, items: seq<Value>): (r: Option<seq<Value>>)
    ensures r.None? <==> exists i :: 0 <= i < |items| && IsNullish(items[i])
    ensures r.Some? ==> |r.value| == |items|
    ensures r.Some? ==> forall i :: 0 <= i < |items| ==> Prop(items[i], key) == Some(r.value[i])
  {
    if items == [] then Some([])
    else match (Prop(items[0], key), Unwrap(key, items[1..]))
      case (Some(v), Some(rest)) =>
        assert forall i :: 1 <= i < |items| ==> items[i] == items[1..][i - 1];
        Some([v] + rest)
      case (None, _) => None
      case (_, None) =>
        assert forall i :: 0 <= i < |items| - 1 ==> items[1..][i] == items[i + 1];
        None
  }

  /** Unwrapping undoes wrapping: `unwrap(wrap(values)) == values`. */
  lemma UnwrapWrap(key: string, values: seq<Value>)
    ensures Unwrap(key, Wrap(key, values)) == Some(values)
  {
    var w := Wrap(key, values);
    assert forall i :: 0 <= i < |w| ==> !IsNullish(w[i]);
    var r := Unwrap(key, w);
    assert forall i :: 0 <= i < |values| ==> Prop(w[i], key) == Some(values[i]);
    assert r.value == values;
  }

  /** `v.map(wrap)`: only an array has `map`; anything else throws. */
  function MapWrap(key: string, v: Value): (r: Option<Value>)
    ensures r.Some? <==> v.Arr?
    ensures r.Some? ==> r.value == Arr(Wrap(key, v.items))
  {
    if v.Arr? then Some(Arr(Wrap(key, v.items))) else None
  }

  /** `v.map(unwrap)`: throws unless `v` is an array without `null` or `undefined` elements. */
  function MapUnwrap(key: string, v: Value): (r: Option<Value>)
    ensures r.Some? ==> v.Arr? && r.value.Arr? && |r.value.items| == |v.items|
  {
    if v.Arr? then
      match Unwrap(key, v.items)
      case Some(values) => Some(Arr(values))
      case None => None
    else None
  }

  /** A wrapped array unwraps to the array it came from. */
  lemma MapRoundTrip(key: string, v: Value)
    requires v.Arr?
    ensures MapWrap(key, v).Some? && MapUnwrap(key, MapWrap(key, v).value) == Some(v)
  {
    UnwrapWrap(key, v.items);
  }

  /** `var copy = angular.copy(model); if (model.hasOwnProperty(field))
      copy[field] = model[field].map(function (item) { return item[key]; });`
      -- `None` where the map throws. */
  function UnwrapOwn(model: Object, field: string, key: string): (m: Option<Object>)
    ensures field !in model ==> m == Some(model)
    ensures field in model ==> (m.Some? <==> MapUnwrap(key, model[field]).Some?)
    ensures m.Some? ==> m.value.Keys == model.Keys
    ensures m.Some? ==> forall k :: k in model && k != field ==> m.value[k] == model[k]
    ensures m.Some? && field in model ==> m.value[field] == MapUnwrap(key, model[field]).value
  {
    if field in model then
      match MapUnwrap(key, model[field])
      case None => None
      case Some(values) => Some(model[field := values])
    else Some(model)
  }

  /** How an action's promise ends: the form was cancelled; the API call
      rejected and `onFailure` ran; `onSuccess` threw a TypeError; or
      `onSuccess` showed a success toast and returned an action result. */
  datatype Outcome = Cancelled | Failed | Crashed | Done(toast: string, result: ActionResult)

  /** The modal form's answer: dismissed, or submitted with the model the user edited. */
  datatype FormReply = Dismiss | Submit(model: Object)

  /** What an action reports about the resource the API returned. */
  datatype Change = Created | Updated

  /**
   * The `onSuccess(response)` of the create, update and set actions: with
   * `data` the response's `data`, a success toast interpolating
   * `data[nameKey]` into `message`, and a result reporting `data.id` as
   * created or updated. Reading a property of `response` or `data` throws
   * when it is `null` or `undefined`.
   */
  function Reported(response: Value, nameKey: string, message: string, resourceType: string, change: Change): (o: Outcome)
    ensures o.Crashed? <==> IsNullish(response) || IsNullish(Prop(response, "data").value)
    ensures o.Done? ==> var data := Prop(response, "data").value;
      && o.toast == Interpolate(message, [ToStr(Prop(data, nameKey).value)])
      && o.result == (if change == Created then CreatedOne(resourceType, Prop(data, "id").value)
                      else UpdatedOne(resourceType, Prop(data, "id").value))
    ensures !o.Cancelled? && !o.Failed?
  {
    match Prop(response, "data")
    case None => Crashed
    case Some(data) =>
      match Prop(data, nameKey)
      case None => Crashed
      case Some(name) =>
        var id := Prop(data, "id").value;
        Done(Interpolate(message, [ToStr(name)]),
             if change == Created then CreatedOne(resourceType, id) else UpdatedOne(resourceType, id))
  }

  /** `.then(onSuccess, onFailure)` on an API promise, for the actions whose
      `onSuccess` is `Reported`. */
  function Settle(settled: Http.Settled, nameKey: string, message: string, resourceType: string, change: Change): (o: Outcome)
    ensures settled.Rejected? <==> o == Failed
    ensures settled.Fulfilled? ==> o == Reported(settled.value, nameKey, message, resourceType, change)
  {
    match settled
    case Rejected => Failed
    case Fulfilled(response) => Reported(response, nameKey, message, resourceType, change)
  }

  /**
   * As written, the API services' `.catch` handlers turn a failed call into
   * a promise fulfilled with `undefined`: `onSuccess` runs on it and throws
   * reading `response.data`, and `onFailure` is never reached.
   */
  lemma FailureCrashesAsWritten(apiMessage: string, nameKey: string, message: string, resourceType: string, change: Change)
    ensures Settle(Http.Caught(Http.Failure, apiMessage).settled, nameKey, message, resourceType, change) == Crashed
  {
  }

  /**
   * With the `.catch` handlers rethrowing after their toast, an action's
   * `onFailure` runs exactly when the API call failed, and on success the
   * outcome is `onSuccess`'s as before.
   */
  lemma FailureReachesOnFailureWhenRethrown(reply: Http.Reply, apiMessage: string, nameKey: string, message: string, resourceType: string, change: Change)
    ensures Settle(Http.Rethrown(reply, apiMessage).settled, nameKey, message, resourceType, change) == Failed <==> reply.Failure?
    ensures reply.Success? ==>
      Settle(Http.Rethrown(reply, apiMessage).settled, nameKey, message, resourceType, change)
      == Settle(Http.Caught(reply, apiMessage).settled, nameKey, message, resourceType, change)
  {
  }
}
