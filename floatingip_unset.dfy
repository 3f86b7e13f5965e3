/**
 * The floating IP "unset domain name PTR" action: a confirmation form with
 * no fields whose submit clears the PTR record of the floating IP the last
 * `perform` stored. The id is remembered on the action because the API's
 * answer does not carry it.
 */
module FloatingIpUnset {
  import opened Json
  import opened ActionResults
  import opened FormActions
  import Util
  import Http
  import FloatingIpApi
  import FloatingIpSet

  const TitlePrefix: string := "Unset Domain Name PTR for "
  const SuccessMessage: string := "Domain name PTR successfully unset."

  /** `domainNameSet(item)`: the floating IP has a PTR name (any string). */
  predicate DomainNameSet(item: Object)
    ensures DomainNameSet(item) ==> "ptrdname" in item
    ensures Get(item, "ptrdname") == Str("") ==> DomainNameSet(item)
    ensures Get(item, "ptrdname") == Null ==> !DomainNameSet(item)
  {
    Get(item, "ptrdname").Str?
  }

  /**
   * `.then(onSuccess, onFailure)` on the unset request: `onSuccess` ignores
   * the response, toasts a fixed message and reports the remembered id as
   * updated.
   */
  function Finish(settled: Http.Settled, currentFloatingIpId: Value): (o: Outcome)
    ensures o == Failed <==> settled.Rejected?
    ensures o.Done? <==> settled.Fulfilled?
    ensures o.Done? ==> o.toast == SuccessMessage && o.result == UpdatedOne(FloatingIpSet.ResourceType, currentFloatingIpId)
  {
    match settled
    case Rejected => Failed
    case Fulfilled(_) => Done(SuccessMessage, UpdatedOne(FloatingIpSet.ResourceType, currentFloatingIpId))
  }

  /** As written, the API's `.catch` fulfils a failed unset with
      `undefined`, and the action reports a successful unset anyway. */
  lemma FailedUnsetReportedAsSuccess(apiMessage: string, currentFloatingIpId: Value)
    ensures Finish(Http.Caught(Http.Failure, apiMessage).settled, currentFloatingIpId)
      == Done(SuccessMessage, UpdatedOne(FloatingIpSet.ResourceType, currentFloatingIpId))
  {
  }

  /** With the failure rethrown, the action reports success exactly when the
      unset succeeded. */
  lemma UnsetSuccessReportedOnlyWhenRethrown(reply: Http.Reply, apiMessage: string, currentFloatingIpId: Value)
    ensures Finish(Http.Rethrown(reply, apiMessage).settled, currentFloatingIpId).Done? <==> reply.Success?
    ensures Finish(Http.Rethrown(reply, apiMessage).settled, currentFloatingIpId) == Failed <==> reply.Failure?
  {
  }

  class UnsetAction {
    /** Whether the service catalog listed a DNS service; `None` before `initAction` runs. */
    var dnsServiceEnabled: Option<bool>
    /** The shared form configuration's title; `None` until the first `perform`. */
    var title: Option<string>
    /** The shared form configuration's model; it starts empty. */
    var model: Object
    /** The floating IP the last submit unset; `undefined` before. */
    var currentFloatingIpId: Value

    constructor ()
      ensures dnsServiceEnabled == None && title == None && model == map[] && currentFloatingIpId == Undefined
    {
      dnsServiceEnabled := None;
      title := None;
      model := map[];
      currentFloatingIpId := Undefined;
    }

    /** `initAction()` */
    method InitAction(dnsEnabled: bool)
      modifies this
      ensures dnsServiceEnabled == Some(dnsEnabled)
      ensures title == old(title) && model == old(model) && currentFloatingIpId == old(currentFloatingIpId)
    {
      dnsServiceEnabled := Some(dnsEnabled);
    }

    /** `allowed(item)`: the DNS service, a PTR name to unset and a floating
        IP that is not pending. */
    predicate Allowed(item: Object)
      reads this
      ensures Allowed(item) <==> dnsServiceEnabled != Some(false) && "ptrdname" in item && item["ptrdname"].Str?
                                 && Get(item, "status") != Str("PENDING")
    {
      Passes(dnsServiceEnabled) && DomainNameSet(item) && Util.NotPending(item)
    }

    /** `perform(item)`: titles the form after the floating IP's address and
        stores its id in the shared model. */
    method Perform(item: Object)
      modifies this
      ensures title == Some(TitlePrefix + ToStr(Get(item, "address")))
      ensures model == old(model)["floatingIpId" := Get(item, "id")]
      ensures dnsServiceEnabled == old(dnsServiceEnabled) && currentFloatingIpId == old(currentFloatingIpId)
    {
      title := Some(TitlePrefix + ToStr(Get(item, "address")));
      model := model["floatingIpId" := Get(item, "id")];
    }

    /** `onSubmit(context)`: remembers the submitted model's floating IP and
        asks the API to clear its PTR record. */
    method OnSubmit(contextModel: Object) returns (request: Http.Request)
      modifies this
      ensures currentFloatingIpId == Get(contextModel, "floatingIpId")
      ensures request == FloatingIpApi.Unset(currentFloatingIpId)
      ensures dnsServiceEnabled == old(dnsServiceEnabled) && title == old(title) && model == old(model)
    {
      currentFloatingIpId := Get(contextModel, "floatingIpId");
      request := FloatingIpApi.Unset(currentFloatingIpId);
    }
  }

  /** Perform, then submit the shared model unedited: the request clears the
      PTR record of the floating IP performed on, and a success reports that
      floating IP. */
  method PerformThenSubmit(action: UnsetAction, item: Object, settled: Http.Settled) returns (request: Http.Request, outcome: Outcome)
    modifies action
    ensures request == FloatingIpApi.Unset(Get(item, "id"))
    ensures settled.Fulfilled? ==> outcome == Done(SuccessMessage, UpdatedOne(FloatingIpSet.ResourceType, Get(item, "id")))
  {
    action.Perform(item);
    request := action.OnSubmit(action.model);
    outcome := Finish(settled, action.currentFloatingIpId);
  }
}
