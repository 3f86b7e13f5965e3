/**
 * The zone update action: a row action that opens the update form on a
 * zone, unwraps the masters list on submit and sends the update.
 */
module ZoneUpdate {
  import opened Json
  import I18n
  import opened ActionResults
  import opened FormActions
  import Util
  import Http
  import SchemaForm
  import ZoneForms
  import ZoneApi

  const ResourceType: string := "OS::Designate::Zone"
  const Title: string := "Update Zone"
  const SuccessMessage: string := "Zone %s was successfully updated."

  /** The update form's entries, as the objects `getModel` walks. */
  function UpdateForm(): seq<Object>
  {
    SchemaForm.AsObjects(ZoneForms.UpdateFormConfig().form)
  }

  /** What `perform(item)` opens: the form configuration, and the masters
      wrapped as `{address: …}` objects, which it stores on the
      configuration itself (`formConfig.masters`), beside the model. */
  datatype Opened = Opened(config: ZoneForms.FormConfig, masters: Option<Value>)

  /** The model `perform(item)` opens the form on: the form's fields the
      zone holds with a truthy value, plus its id. */
  function PerformModel(item: Object): (m: Object)
    ensures m.Keys == Util.ModelOf(UpdateForm(), item).Keys + {"id"}
    ensures m["id"] == Get(item, "id")
    ensures forall k :: k in m && k != "id" ==> k in item && m[k] == item[k] && Truthy(item[k])
  {
    Util.ModelOf(UpdateForm(), item)["id" := Get(item, "id")]
  }

  /** The payload `onSubmit` hands to the API: a copy of the form's model
      with its masters unwrapped; `None` where unwrapping throws. Zone
      create submits the same way. */
  function SubmitModel(contextModel: Object): (r: Option<Object>)
    ensures r.None? <==> "masters" in contextModel && MapUnwrap("address", contextModel["masters"]).None?
    ensures r.Some? ==> r.value.Keys == contextModel.Keys
    ensures r.Some? ==> forall k :: k in contextModel && k != "masters" ==> r.value[k] == contextModel[k]
    ensures r.Some? && "masters" in contextModel ==> r.value["masters"] == MapUnwrap("address", contextModel["masters"]).value
  {
    UnwrapOwn(contextModel, "masters", "address")
  }

  /**
   * As written, the masters never reach the form's model wrapped: the model
   * holds the zone's own address strings, and unwrapping a string's
   * `address` gives `undefined`, so submitting the unedited form turns every
   * master into `undefined`.
   */
  lemma {:induction false} MastersLostAsWritten(item: Object, addresses: seq<string>)
    requires "masters" in item && item["masters"] == Arr(seq(|addresses|, i requires 0 <= i < |addresses| => Str(addresses[i])))
    ensures var r := SubmitModel(PerformModel(item));
      r.Some? && "masters" in r.value && r.value["masters"] == Arr(seq(|addresses|, i => Undefined))
  {
    MastersInUpdateForm();
    var m := PerformModel(item);
    assert "masters" in m && m["masters"] == item["masters"];
    SubmitStrings(m, addresses);
  }

  /** Submitting a model whose masters are plain strings turns each into `undefined`. */
  lemma SubmitStrings(m: Object, addresses: seq<string>)
    requires "masters" in m && m["masters"] == Arr(seq(|addresses|, i requires 0 <= i < |addresses| => Str(addresses[i])))
    ensures var r := SubmitModel(m);
      r.Some? && "masters" in r.value && r.value["masters"] == Arr(seq(|addresses|, i => Undefined))
  {
    UnwrapStrings(addresses);
  }

  /** `masters` is one of the update form's keys. */
  lemma MastersInUpdateForm()
    ensures "masters" in Util.FormKeys(UpdateForm())
  {
    assert UpdateForm()[5] == map["key" := Str("masters")];
    assert Util.KeyOf(UpdateForm()[5]) == "masters";
  }

  /** Unwrapping the `address` of plain strings succeeds, giving `undefined` for each. */
  lemma UnwrapStrings(addresses: seq<string>)
    ensures var items := seq(|addresses|, i requires 0 <= i < |addresses| => Str(addresses[i]));
      Unwrap("address", items) == Some(seq(|addresses|, i => Undefined))
  {
    var items := seq(|addresses|, i requires 0 <= i < |addresses| => Str(addresses[i]));
    var u := Unwrap("address", items);
    assert u.Some? by {
      forall i | 0 <= i < |items| ensures !IsNullish(items[i]) {
        assert items[i] == Str(addresses[i]);
      }
    }
    forall i | 0 <= i < |items| ensures u.value[i] == Undefined {
      assert items[i] == Str(addresses[i]);
      assert Prop(items[i], "address") == Some(u.value[i]);
    }
    assert u.value == seq(|addresses|, i => Undefined);
  }

  /** The evidently intended `perform`: the wrapped masters in the model,
      where the form reads them. */
  function PerformModelCorrected(item: Object): (m: Option<Object>)
    ensures m.None? <==> "masters" in item && !item["masters"].Arr?
    ensures m.Some? ==> m.value.Keys == PerformModel(item).Keys + (if "masters" in item then {"masters"} else {})
  {
    var model := PerformModel(item);
    if "masters" in item then
      match MapWrap("address", item["masters"])
      case None => None
      case Some(masters) => Some(model["masters" := masters])
    else Some(model)
  }

  /** With the masters in the model, the unedited form round-trips them. */
  lemma MastersRoundTripCorrected(item: Object)
    requires "masters" in item && item["masters"].Arr?
    ensures PerformModelCorrected(item).Some?
    ensures SubmitModel(PerformModelCorrected(item).value).Some?
    ensures SubmitModel(PerformModelCorrected(item).value).value["masters"] == item["masters"]
  {
    MapRoundTrip("address", item["masters"]);
  }

  /** Either way the update sends the same request: the zone update API
      forwards only the email, TTL and description, so two models that
      differ only in their masters submit the same update. */
  lemma SubmitIgnoresMasters(model: Object, masters: Value)
    requires SubmitModel(model).Some? && SubmitModel(model["masters" := masters]).Some?
    ensures var a := SubmitModel(model).value;
      var b := SubmitModel(model["masters" := masters]).value;
      ZoneApi.Update(Get(a, "id"), a) == ZoneApi.Update(Get(b, "id"), b)
  {
    var a := SubmitModel(model).value;
    var b := SubmitModel(model["masters" := masters]).value;
    assert Get(a, "id") == Get(model, "id") == Get(b, "id");
    assert Get(a, "email") == Get(model, "email") == Get(b, "email");
    assert Get(a, "ttl") == Get(model, "ttl") == Get(b, "ttl");
    assert Get(a, "description") == Get(model, "description") == Get(b, "description");
    ZoneApi.UpdateIgnoresOtherFields(Get(model, "id"), a, b);
  }

  /** `onSubmit`'s promise once the update request has settled: a
      rejection reaches `onFailure`; a reply without `data` crashes; any
      other reply toasts the `name` of the returned data and reports its
      id as updated. */
  function Finish(settled: Http.Settled): (o: Outcome)
    ensures o == Failed <==> settled.Rejected?
    ensures o == Crashed <==> settled.Fulfilled? && (IsNullish(settled.value) || IsNullish(Prop(settled.value, "data").value))
    ensures settled.Fulfilled? && settled.value.Obj? && Get(settled.value.fields, "data").Obj? ==>
              var data := Get(settled.value.fields, "data").fields;
              o == Done(I18n.Interpolate(SuccessMessage, [ToStr(Get(data, "name"))]), UpdatedOne(ResourceType, Get(data, "id")))
  {
    Settle(settled, "name", SuccessMessage, ResourceType, Updated)
  }

  class UpdateAction {
    /** How the update_zone policy check made by `initAction` settled; `None` before it runs. */
    var updatePolicy: Option<bool>

    constructor ()
      ensures updatePolicy == None
    {
      updatePolicy := None;
    }

    /** `initAction()` */
    method InitAction(policy: bool)
      modifies this
      ensures updatePolicy == Some(policy)
    {
      updatePolicy := Some(policy);
    }

    /** `allowed(zone)`: a row action only, on a zone neither deleted nor pending. */
    predicate Allowed(zone: Option<Object>)
      reads this
      ensures zone.None? ==> !Allowed(zone)
      ensures zone.Some? ==>
                (Allowed(zone) <==>
                   (updatePolicy != Some(false)
                    && Get(zone.value, "status") != Str("DELETED") && Get(zone.value, "status") != Str("PENDING")))
    {
      match zone
      case None => false
      case Some(z) => Passes(updatePolicy) && Util.NotDeleted(z) && Util.NotPending(z)
    }

    /** `perform(item)`: the form configuration and the wrapped masters
        beside it; `None` where the zone's `masters` is not an array and
        `map` throws. */
    method Perform(item: Object) returns (shown: Option<Opened>)
      ensures shown.None? <==> "masters" in item && !item["masters"].Arr?
      ensures shown.Some? ==> shown.value.config == ZoneForms.UpdateFormConfig().(title := Some(Title), model := PerformModel(item))
      ensures shown.Some? ==> shown.value.masters == if "masters" in item then MapWrap("address", item["masters"]) else None
    {
      var formConfig := ZoneForms.UpdateFormConfig();
      formConfig := formConfig.(title := Some(Title));
      var model := Util.GetModel(UpdateForm(), item);
      model := model["id" := Get(item, "id")];
      formConfig := formConfig.(model := model);
      var masters: Option<Value> := None;
      if "masters" in item {
        masters := MapWrap("address", item["masters"]);
        if masters.None? {
          return None;
        }
      }
      shown := Some(Opened(formConfig, masters));
    }

    /** `onSubmit(context)`: the update request for the zone the model
        names; `None` where unwrapping the masters throws. */
    method OnSubmit(contextModel: Object) returns (request: Option<Http.Request>)
      ensures request.Some? <==> SubmitModel(contextModel).Some?
      ensures request.Some? ==> request.value == ZoneApi.Update(Get(contextModel, "id"), SubmitModel(contextModel).value)
    {
      var zoneModel := contextModel;
      if "masters" in contextModel {
        var masters := MapUnwrap("address", contextModel["masters"]);
        if masters.None? {
          return None;
        }
        zoneModel := zoneModel["masters" := masters.value];
      }
      request := Some(ZoneApi.Update(Get(zoneModel, "id"), zoneModel));
    }
  }
}
