/**
 * The record set update action: a row action that opens the update form on
 * a record set (its records wrapped for the form library), unwraps the
 * records again on submit and sends the update to the record set's zone.
 */
module RecordSetUpdate {
  import opened Json
  import I18n
  import opened ActionResults
  import opened FormActions
  import Util
  import Http
  import SchemaForm
  import RecordSetTypes
  import RecordSetForms
  import RecordSetApi

  const Title: string := "Update Record Set"
  const SuccessMessage: string := "Record Set %s was successfully updated."

  /** The update form's entries, as the objects `getModel` walks. */
  function UpdateForm(): seq<Object>
  {
    SchemaForm.AsObjects(RecordSetForms.UpdateFormConfig().form)
  }

  /** The model `perform(item)` opens the form on; `None` where the item has
      `records` that are not an array and `map` throws. */
  function PerformModel(item: Object): (m: Option<Object>)
    ensures m.None? <==> "records" in item && !item["records"].Arr?
    ensures m.Some? ==> "id" in m.value && m.value["id"] == Get(item, "id")
    ensures m.Some? ==> "zoneId" in m.value && m.value["zoneId"] == Get(item, "zone_id")
    ensures m.Some? ==> ("records" in m.value <==> "records" in item || "records" in Util.ModelOf(UpdateForm(), item))
    ensures m.Some? && "records" in item ==> m.value["records"] == Arr(Wrap("record", item["records"].items))
    ensures m.Some? ==> forall k :: k in m.value && k != "id" && k != "zoneId" && k != "records" ==>
      k in Util.FormKeys(UpdateForm()) && Truthy(Get(item, k)) && k in item && m.value[k] == item[k]
  {
    var model := Util.ModelOf(UpdateForm(), item)["id" := Get(item, "id")]["zoneId" := Get(item, "zone_id")];
    if "records" in item then
      match MapWrap("record", item["records"])
      case None => None
      case Some(records) => Some(model["records" := records])
    else Some(model)
  }

  /** The payload `onSubmit` hands to the API: a copy of the form's model
      with its records unwrapped; `None` where unwrapping throws. */
  function SubmitModel(contextModel: Object): (r: Option<Object>)
    ensures r.None? <==> "records" in contextModel && MapUnwrap("record", contextModel["records"]).None?
    ensures r.Some? ==> r.value.Keys == contextModel.Keys
    ensures r.Some? ==> forall k :: k in contextModel && k != "records" ==> r.value[k] == contextModel[k]
    ensures r.Some? && "records" in contextModel ==> r.value["records"] == MapUnwrap("record", contextModel["records"]).value
  {
    UnwrapOwn(contextModel, "records", "record")
  }

  /**
   * The round trip through the form: submitting the model `perform` built,
   * unedited, sends the item's own records back, to the item's zone and id.
   */
  lemma SubmitUneditedRestoresRecords(item: Object)
    requires "records" in item ==> item["records"].Arr?
    ensures PerformModel(item).Some?
    ensures SubmitModel(PerformModel(item).value).Some?
    ensures var sent := SubmitModel(PerformModel(item).value).value;
      && Get(sent, "zoneId") == Get(item, "zone_id") && Get(sent, "id") == Get(item, "id")
      && ("records" in item ==> sent["records"] == item["records"])
      && ("records" !in item ==> "records" !in sent)
  {
    var m := PerformModel(item).value;
    if "records" in item {
      MapRoundTrip("record", item["records"]);
    }
  }

  /** `onSubmit`'s promise once the update request has settled: a
      rejection reaches `onFailure`; a reply without `data` crashes; any
      other reply toasts the `name` of the returned data and reports its
      id as updated. */
  function Finish(settled: Http.Settled): (o: Outcome)
    ensures o == Failed <==> settled.Rejected?
    ensures o == Crashed <==> settled.Fulfilled? && (IsNullish(settled.value) || IsNullish(Prop(settled.value, "data").value))
    ensures settled.Fulfilled? && settled.value.Obj? && Get(settled.value.fields, "data").Obj? ==>
              var data := Get(settled.value.fields, "data").fields;
              o == Done(I18n.Interpolate(SuccessMessage, [ToStr(Get(data, "name"))]), UpdatedOne(RecordSetTypes.ResourceType, Get(data, "id")))
  {
    Settle(settled, "name", SuccessMessage, RecordSetTypes.ResourceType, Updated)
  }

  class UpdateAction {
    /** How the update_recordset policy check made by `initAction` settled; `None` before it runs. */
    var updatePolicy: Option<bool>

    constructor ()
      ensures updatePolicy == None
    {
      updatePolicy := None;
    }

    /** `initAction()` */
    method InitAction(policy: bool)
      modifies this
      ensures updatePolicy == Some(policy)
    {
      updatePolicy := Some(policy);
    }

    /** `allowed(recordset)`: a row action only; the record set must be
        neither deleted nor pending and of an editable type. */
    predicate Allowed(recordset: Option<Object>)
      reads this
      ensures recordset.None? ==> !Allowed(recordset)
      ensures recordset.Some? ==> var rs := recordset.value;
                (Allowed(recordset) <==>
                   (updatePolicy != Some(false)
                    && Get(rs, "status") != Str("DELETED") && Get(rs, "status") != Str("PENDING")
                    && RecordSetTypes.IsEditableType(Get(rs, "type"))
                    && !(Get(rs, "type") == Str("NS") && Get(rs, "name") == Get(rs, "zone_name"))))
    {
      match recordset
      case None => false
      case Some(rs) =>
        Passes(updatePolicy) && Util.NotDeleted(rs) && Util.NotPending(rs) && RecordSetTypes.EditableRecordType(rs)
    }

    /** `perform(item)`: the form configuration the modal opens, built field
        by field; `None` where wrapping the records throws. */
    method Perform(item: Object) returns (config: Option<RecordSetForms.FormConfig>)
      ensures config.Some? <==> PerformModel(item).Some?
      ensures config.Some? ==> config.value == RecordSetForms.UpdateFormConfig().(title := Some(Title), model := PerformModel(item).value)
    {
      var formConfig := RecordSetForms.UpdateFormConfig();
      formConfig := formConfig.(title := Some(Title));
      var model := Util.GetModel(UpdateForm(), item);
      model := model["id" := Get(item, "id")];
      model := model["zoneId" := Get(item, "zone_id")];
      if "records" in item {
        var records := MapWrap("record", item["records"]);
        if records.None? {
          return None;
        }
        model := model["records" := records.value];
      }
      formConfig := formConfig.(model := model);
      config := Some(formConfig);
    }

    /** `onSubmit(context)`: the update request for the record set the model
        names, with the records unwrapped in a copy of the model (the form's
        own model is a value here and cannot change); `None` where unwrapping
        throws. */
    method OnSubmit(contextModel: Object) returns (request: Option<Http.Request>)
      ensures request.Some? <==> SubmitModel(contextModel).Some?
      ensures request.Some? ==> var model := SubmitModel(contextModel).value;
        request.value == RecordSetApi.Update(Get(contextModel, "zoneId"), Get(contextModel, "id"), model)
    {
      var model := contextModel;
      if "records" in contextModel {
        var records := MapUnwrap("record", contextModel["records"]);
        if records.None? {
          return None;
        }
        model := model["records" := records.value];
      }
      request := Some(RecordSetApi.Update(Get(model, "zoneId"), Get(model, "id"), model));
    }
  }
}
