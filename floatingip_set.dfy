/**
 * The floating IP "set domain name PTR" action. Its form configuration is
 * one object held by the action and reused by every `perform`: `perform`
 * overwrites its title and model, and `onSubmit` reads the floating IP id
 * back from that shared model rather than from the submitted one.
 */
module FloatingIpSet {
  import opened Json
  import I18n
  import opened ActionResults
  import opened FormActions
  import Util
  import Http
  import SchemaForm
  import FloatingIpApi

  const ResourceType: string := "OS::Designate::FloatingIp"
  const TitlePrefix: string := "Set Domain Name PTR for "
  const SuccessMessage: string := "Domain name PTR %s was successfully set."
  const DefaultTtl: int := 3600

  /** The form's entries: the PTR name, a description and the TTL. */
  const Form: seq<SchemaForm.Entry> := [
    SchemaForm.Entry("ptrdname", "text", None, true, None, []),
    SchemaForm.Entry("description", "textarea", None, false, None, []),
    SchemaForm.Entry("ttl", "number", None, false, None, [])
  ]

  /** The schema's constraints on the fields the model holds: a PTR name
      ending in '.', and an integer TTL from 0 to 2^31 - 1. */
  predicate ModelValid(model: Object)
  {
    && ("ptrdname" in model ==> model["ptrdname"].Str? && SchemaForm.EndsInDot(model["ptrdname"].s))
    && ("description" in model ==> model["description"].Str?)
    && ("ttl" in model ==> SchemaForm.IntegerIn(model["ttl"], 0, SchemaForm.MaxTtl))
  }

  /** The model `perform(item)` leaves in the shared form configuration:
      the floating IP's truthy PTR name and description, its TTL or one hour
      when it has none, and its id. */
  function PerformModel(item: Object): (m: Object)
    ensures forall k :: k in m <==> k == "ttl" || k == "floatingIpId" || ((k == "ptrdname" || k == "description") && Truthy(Get(item, k)))
    ensures m["floatingIpId"] == Get(item, "id")
    ensures m["ttl"] == if Truthy(Get(item, "ttl")) then item["ttl"] else Num(DefaultTtl)
    ensures forall k :: k in m && (k == "ptrdname" || k == "description") ==> k in item && m[k] == item[k]
  {
    var model := Util.ModelOf(SchemaForm.AsObjects(Form), item);
    FormModel(item);
    var ttl := Get(model, "ttl");
    var m := model["ttl" := if Truthy(ttl) then ttl else Num(DefaultTtl)]["floatingIpId" := Get(item, "id")];
    assert m.Keys == model.Keys + {"ttl", "floatingIpId"};
    assert Truthy(ttl) <==> Truthy(Get(item, "ttl"));
    m
  }

  /** The form's keys: the PTR name, the description and the TTL. */
  lemma FormKeys()
    ensures Util.FormKeys(SchemaForm.AsObjects(Form)) == {"ptrdname", "description", "ttl"}
  {
    var objs := SchemaForm.AsObjects(Form);
    assert Util.KeyOf(objs[0]) == "ptrdname" && Util.KeyOf(objs[1]) == "description" && Util.KeyOf(objs[2]) == "ttl";
  }

  /** `getModel` on the form: the floating IP's truthy PTR name, description and TTL. */
  lemma FormModel(item: Object)
    ensures var model := Util.ModelOf(SchemaForm.AsObjects(Form), item);
      forall k :: k in model <==> (k == "ptrdname" || k == "description" || k == "ttl") && Truthy(Get(item, k))
  {
    FormKeys();
  }

  /** A floating IP whose own fields satisfy the schema (or are missing)
      opens a form whose model already satisfies it: in particular the
      default TTL is within range. */
  lemma PerformModelValid(item: Object)
    requires ModelValid(item)
    ensures ModelValid(PerformModel(item))
  {
    var m := PerformModel(item);
    assert SchemaForm.IntegerIn(m["ttl"], 0, SchemaForm.MaxTtl) by {
      if !Truthy(Get(item, "ttl")) {
        assert m["ttl"] == Num(DefaultTtl);
      }
    }
  }

  /** `onSubmit`'s promise once the PTR request has settled: a
      rejection reaches `onFailure`; a reply without `data` crashes; any
      other reply toasts the `ptrdname` of the returned data and reports its
      id as updated. */
  function Finish(settled: Http.Settled): (o: Outcome)
    ensures o == Failed <==> settled.Rejected?
    ensures o == Crashed <==> settled.Fulfilled? && (IsNullish(settled.value) || IsNullish(Prop(settled.value, "data").value))
    ensures settled.Fulfilled? && settled.value.Obj? && Get(settled.value.fields, "data").Obj? ==>
              var data := Get(settled.value.fields, "data").fields;
              o == Done(I18n.Interpolate(SuccessMessage, [ToStr(Get(data, "ptrdname"))]), UpdatedOne(ResourceType, Get(data, "id")))
  {
    Settle(settled, "ptrdname", SuccessMessage, ResourceType, Updated)
  }

  class SetAction {
    /** Whether the service catalog listed a DNS service; `None` before `initAction` runs. */
    var dnsServiceEnabled: Option<bool>
    /** The shared form configuration's title; `None` until the first `perform`. */
    var title: Option<string>
    /** The shared form configuration's model; `None` until the first `perform`. */
    var model: Option<Object>

    constructor ()
      ensures dnsServiceEnabled == None && title == None && model == None
    {
      dnsServiceEnabled := None;
      title := None;
      model := None;
    }

    /** `initAction()` */
    method InitAction(dnsEnabled: bool)
      modifies this
      ensures dnsServiceEnabled == Some(dnsEnabled)
      ensures title == old(title) && model == old(model)
    {
      dnsServiceEnabled := Some(dnsEnabled);
    }

    /** `allowed(item)`: there is no floating IP policy; the DNS service and
        a floating IP that is not pending decide. */
    predicate Allowed(item: Object)
      reads this
      ensures Allowed(item) <==> dnsServiceEnabled != Some(false) && Get(item, "status") != Str("PENDING")
    {
      Passes(dnsServiceEnabled) && Util.NotPending(item)
    }

    /** `perform(item)`: titles the form after the floating IP's address and
        opens it on `PerformModel(item)`, replacing whatever an earlier
        `perform` left. */
    method Perform(item: Object)
      modifies this
      ensures title == Some(TitlePrefix + ToStr(Get(item, "address")))
      ensures model == Some(PerformModel(item))
      ensures dnsServiceEnabled == old(dnsServiceEnabled)
    {
      title := Some(TitlePrefix + ToStr(Get(item, "address")));
      var m := Util.GetModel(SchemaForm.AsObjects(Form), item);
      var ttl := Get(m, "ttl");
      m := m["ttl" := if Truthy(ttl) then ttl else Num(DefaultTtl)];
      m := m["floatingIpId" := Get(item, "id")];
      model := Some(m);
    }

    /** `onSubmit(context)`: sets the PTR fields of the submitted model on the
        floating IP whose id the last `perform` stored in the shared model. */
    method OnSubmit(contextModel: Object) returns (request: Http.Request)
      requires model.Some?
      ensures request == FloatingIpApi.Set(Get(model.value, "floatingIpId"), contextModel)
      ensures request.arg == Obj(map["ptrdname" := Get(contextModel, "ptrdname"),
                                     "description" := Get(contextModel, "description"),
                                     "ttl" := Get(contextModel, "ttl")])
    {
      var submitted := contextModel;
      var floatingIpId := Get(model.value, "floatingIpId");
      request := FloatingIpApi.Set(floatingIpId, submitted);
    }
  }

  /** Submitting the form `perform(item)` opened, unedited, sets the PTR
      fields the floating IP already had (a missing one as `undefined`, and
      the default TTL) on that same floating IP. */
  lemma UneditedSetKeepsFields(item: Object)
    ensures var m := PerformModel(item);
      FloatingIpApi.Set(Get(m, "floatingIpId"), m) ==
        FloatingIpApi.Set(Get(item, "id"), map[
          "ptrdname" := (if Truthy(Get(item, "ptrdname")) then item["ptrdname"] else Undefined),
          "description" := (if Truthy(Get(item, "description")) then item["description"] else Undefined),
          "ttl" := (if Truthy(Get(item, "ttl")) then item["ttl"] else Num(DefaultTtl))])
  {
    var m := PerformModel(item);
    var expected := map[
      "ptrdname" := (if Truthy(Get(item, "ptrdname")) then item["ptrdname"] else Undefined),
      "description" := (if Truthy(Get(item, "description")) then item["description"] else Undefined),
      "ttl" := (if Truthy(Get(item, "ttl")) then item["ttl"] else Num(DefaultTtl))];
    assert Get(m, "ptrdname") == Get(expected, "ptrdname");
    assert Get(m, "description") == Get(expected, "description");
    assert Get(m, "ttl") == Get(expected, "ttl");
    FloatingIpApi.SetIgnoresOtherFields(Get(item, "id"), m, expected);
  }
}
