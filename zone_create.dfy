/**
 * The zone create action: a global action that opens the create form and
 * submits the zone, with its masters unwrapped, to the zone list.
 */
module ZoneCreate {
  import opened Json
  import I18n
  import opened ActionResults
  import opened FormActions
  import Http
  import ZoneForms
  import ZoneApi
  import ZoneUpdate

  const Title: string := "Create Zone"
  const SuccessMessage: string := "Zone %s was successfully created."

  /** A secondary zone's masters, entered as `{address: …}` objects, are
      created as the plain list of addresses; the rest of the model is sent
      as entered. */
  lemma SubmitSendsEnteredMasters(model: Object, addresses: seq<Value>)
    requires forall i :: 0 <= i < |addresses| ==> !IsNullish(addresses[i])
    ensures ZoneUpdate.SubmitModel(model["masters" := Arr(Wrap("address", addresses))]) == Some(model["masters" := Arr(addresses)])
  {
    MapRoundTrip("address", Arr(addresses));
    var entered := model["masters" := Arr(Wrap("address", addresses))];
    var sent := ZoneUpdate.SubmitModel(entered).value;
    assert sent == model["masters" := Arr(addresses)];
  }

  /** A primary zone's form has no masters to unwrap: it is created as entered. */
  lemma PrimarySentAsEntered(model: Object)
    requires "masters" !in model
    ensures ZoneUpdate.SubmitModel(model) == Some(model)
  {
  }

  /** `onSubmit`'s promise once the create request has settled: a
      rejection reaches `onFailure`; a reply without `data` crashes; any
      other reply toasts the `name` of the returned data and reports its
      id as created. */
  function Finish(settled: Http.Settled): (o: Outcome)
    ensures o == Failed <==> settled.Rejected?
    ensures o == Crashed <==> settled.Fulfilled? && (IsNullish(settled.value) || IsNullish(Prop(settled.value, "data").value))
    ensures settled.Fulfilled? && settled.value.Obj? && Get(settled.value.fields, "data").Obj? ==>
              var data := Get(settled.value.fields, "data").fields;
              o == Done(I18n.Interpolate(SuccessMessage, [ToStr(Get(data, "name"))]), CreatedOne(ZoneUpdate.ResourceType, Get(data, "id")))
  {
    Settle(settled, "name", SuccessMessage, ZoneUpdate.ResourceType, Created)
  }

  class CreateAction {
    /** How the create_zone policy check made by `initAction` settled; `None` before it runs. */
    var createPolicy: Option<bool>
    /** Whether the service catalog listed a DNS service; `None` before `initAction` runs. */
    var dnsServiceEnabled: Option<bool>

    constructor ()
      ensures createPolicy == None && dnsServiceEnabled == None
    {
      createPolicy := None;
      dnsServiceEnabled := None;
    }

    /** `initAction()` */
    method InitAction(policy: bool, dnsEnabled: bool)
      modifies this
      ensures createPolicy == Some(policy) && dnsServiceEnabled == Some(dnsEnabled)
    {
      createPolicy := Some(policy);
      dnsServiceEnabled := Some(dnsEnabled);
    }

    /** `allowed()`: the policy and the DNS service decide. */
    predicate Allowed()
      reads this
      ensures Allowed() <==> createPolicy != Some(false) && dnsServiceEnabled != Some(false)
    {
      Passes(createPolicy) && Passes(dnsServiceEnabled)
    }

    /** `perform()`: the create form with the action's title; its model is
        the form's defaults, a primary zone with a TTL of one hour. */
    method Perform() returns (config: ZoneForms.FormConfig)
      ensures config == ZoneForms.CreateFormConfig().(title := Some(Title))
      ensures config.model == map["type" := Str("PRIMARY"), "ttl" := Num(3600)]
    {
      config := ZoneForms.CreateFormConfig();
      config := config.(title := Some(Title));
    }

    /** `onSubmit(context)`: the create request; `None` where unwrapping
        the masters throws. */
    method OnSubmit(contextModel: Object) returns (request: Option<Http.Request>)
      ensures request.Some? <==> ZoneUpdate.SubmitModel(contextModel).Some?
      ensures request.Some? ==> request.value == ZoneApi.Create(Obj(ZoneUpdate.SubmitModel(contextModel).value))
    {
      var zoneModel := contextModel;
      if "masters" in contextModel {
        var masters := MapUnwrap("address", contextModel["masters"]);
        if masters.None? {
          return None;
        }
        zoneModel := zoneModel["masters" := masters.value];
      }
      request := Some(ZoneApi.Create(Obj(zoneModel)));
    }
  }
}
