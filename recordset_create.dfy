/**
 * The record set create action: an action on a zone that opens the create
 * form with the zone's id in the model, and on submit sends the model,
 * without that id and with its records unwrapped, to the zone's record sets.
 */
module RecordSetCreate {
  import opened Json
  import I18n
  import opened ActionResults
  import opened FormActions
  import Http
  import RecordSetTypes
  import RecordSetForms
  import RecordSetApi

  const Title: string := "Create Record Set"
  const SuccessMessage: string := "Record Set %s was successfully created."

  /** The model `perform(item)` opens the form on: the form's defaults plus
      the zone's id. */
  function PerformModel(zone: Object): (m: Object)
    ensures m.Keys == {"type", "ttl", "zoneId"}
    ensures m["zoneId"] == Get(zone, "id")
    ensures m["type"] == Str("A") && m["ttl"] == Num(3600)
  {
    RecordSetForms.CreateFormConfig().model["zoneId" := Get(zone, "id")]
  }

  /** What `onSubmit(context)` sends: the zone id taken from the model, and a
      copy of the model without it and with its records unwrapped; `None`
      where `context.model.records` is not an array or holds `null` or
      `undefined`, so that unwrapping throws. */
  function SubmitModel(contextModel: Object): (r: Option<(Value, Object)>)
    ensures r.Some? <==> MapUnwrap("record", Get(contextModel, "records")).Some?
    ensures r.Some? ==> r.value.0 == Get(contextModel, "zoneId")
    ensures r.Some? ==> r.value.1.Keys == contextModel.Keys - {"zoneId"} + {"records"}
    ensures r.Some? ==> r.value.1["records"] == MapUnwrap("record", Get(contextModel, "records")).value
    ensures r.Some? ==> forall k :: k in contextModel && k != "zoneId" && k != "records" ==> r.value.1[k] == contextModel[k]
  {
    match MapUnwrap("record", Get(contextModel, "records"))
    case None => None
    case Some(records) =>
      Some((Get(contextModel, "zoneId"), (contextModel - {"zoneId"})["records" := records]))
  }

  /**
   * The round trip through the form: whatever records the user enters
   * (none of them `null` or `undefined`), the request goes to the zone the
   * action was performed on and carries exactly those records, with the
   * form's default type and TTL and without the zone id.
   */
  lemma SubmitSendsEnteredRecords(zone: Object, records: seq<Value>)
    requires forall i :: 0 <= i < |records| ==> !IsNullish(records[i])
    ensures var filled := PerformModel(zone)["records" := Arr(Wrap("record", records))];
      && SubmitModel(filled).Some?
      && SubmitModel(filled).value.0 == Get(zone, "id")
      && SubmitModel(filled).value.1 == map["type" := Str("A"), "ttl" := Num(3600), "records" := Arr(records)]
  {
    var filled := PerformModel(zone)["records" := Arr(Wrap("record", records))];
    MapRoundTrip("record", Arr(records));
    var sent := SubmitModel(filled).value.1;
    assert sent.Keys == {"type", "ttl", "records"};
  }

  /** Submitting the form as `perform` opened it, before any record was
      entered, throws: the model has no `records` to map over. */
  lemma SubmitWithoutRecordsThrows(zone: Object)
    ensures SubmitModel(PerformModel(zone)) == None
  {
    assert Get(PerformModel(zone), "records") == Undefined;
  }

  /** `onSubmit`'s promise once the create request has settled: a
      rejection reaches `onFailure`; a reply without `data` crashes; any
      other reply toasts the `name` of the returned data and reports its
      id as created. */
  function Finish(settled: Http.Settled): (o: Outcome)
    ensures o == Failed <==> settled.Rejected?
    ensures o == Crashed <==> settled.Fulfilled? && (IsNullish(settled.value) || IsNullish(Prop(settled.value, "data").value))
    ensures settled.Fulfilled? && settled.value.Obj? && Get(settled.value.fields, "data").Obj? ==>
              var data := Get(settled.value.fields, "data").fields;
              o == Done(I18n.Interpolate(SuccessMessage, [ToStr(Get(data, "name"))]), CreatedOne(RecordSetTypes.ResourceType, Get(data, "id")))
  {
    Settle(settled, "name", SuccessMessage, RecordSetTypes.ResourceType, Created)
  }

  class CreateAction {
    /** How the create_recordset policy check made by `initAction` settled; `None` before it runs. */
    var createPolicy: Option<bool>
    /** Whether the service catalog listed a DNS service; `None` before `initAction` runs. */
    var dnsServiceEnabled: Option<bool>

    constructor ()
      ensures createPolicy == None && dnsServiceEnabled == None
    {
      createPolicy := None;
      dnsServiceEnabled := None;
    }

    /** `initAction()` */
    method InitAction(policy: bool, dnsEnabled: bool)
      modifies this
      ensures createPolicy == Some(policy) && dnsServiceEnabled == Some(dnsEnabled)
    {
      createPolicy := Some(policy);
      dnsServiceEnabled := Some(dnsEnabled);
    }

    /** `allowed()`: whatever the zone, the policy and the DNS service decide. */
    predicate Allowed()
      reads this
      ensures Allowed() <==> createPolicy != Some(false) && dnsServiceEnabled != Some(false)
    {
      Passes(createPolicy) && Passes(dnsServiceEnabled)
    }

    /** `perform(item)`: the form configuration the modal opens. */
    method Perform(zone: Object) returns (config: RecordSetForms.FormConfig)
      ensures config == RecordSetForms.CreateFormConfig().(title := Some(Title), model := PerformModel(zone))
      ensures config.form == RecordSetForms.CreateFormConfig().form
    {
      config := RecordSetForms.CreateFormConfig();
      config := config.(model := config.model["zoneId" := Get(zone, "id")]);
      config := config.(title := Some(Title));
    }

    /** `onSubmit(context)`: the create request; `None` where unwrapping the
        records throws. */
    method OnSubmit(contextModel: Object) returns (request: Option<Http.Request>)
      ensures request.Some? <==> SubmitModel(contextModel).Some?
      ensures request.Some? ==> request.value == RecordSetApi.Create(SubmitModel(contextModel).value.0, Obj(SubmitModel(contextModel).value.1))
    {
      var model := contextModel;
      var zoneId := Get(model, "zoneId");
      model := model - {"zoneId"};
      var records := MapUnwrap("record", Get(contextModel, "records"));
      if records.None? {
        return None;
      }
      model := model["records" := records.value];
      request := Some(RecordSetApi.Create(zoneId, Obj(model)));
    }
  }
}
