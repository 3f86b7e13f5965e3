/**
 * The zone delete action: a service object whose `initAction` and
 * `perform` reassign its module-level state (the policy check and the
 * modal context).
 */
module ZoneDelete {
  import opened Json
  import opened ActionResults
  import opened BulkDelete
  import Util
  import ZoneApi
  import Http

  const ResourceType: string := "OS::Designate::Zone"

  const NotAllowedMessage: string := "You are not allowed to delete zones: %s"

  const Wordings: LabelWording := LabelWording(
    Wording("Confirm Delete Zone", "Confirm Delete Zones"),
    Wording("You have selected \"%s\". Deleted zone is not recoverable.",
            "You have selected \"%s\". Deleted zones are not recoverable."),
    Wording("Delete Zone", "Delete Zones"),
    Wording("Deleted Zone: %s.", "Deleted Zones: %s."),
    Wording("Unable to delete Zone: %s.", "Unable to delete Zones: %s."))

  /** A zone row may be deleted when the policy allows it and the zone is
      neither deleted nor pending. */
  predicate Deletable(deletePolicy: Option<bool>, zone: Object)
    ensures Deletable(deletePolicy, zone) ==> deletePolicy != Some(false)
    ensures deletePolicy != Some(false) && "status" !in zone ==> Deletable(deletePolicy, zone)
  {
    Passes(deletePolicy) && Util.NotDeleted(zone) && Util.NotPending(zone)
  }

  /** A zone whose status is DELETED or PENDING is never deletable, whatever the policy. */
  lemma StatusBlocksDelete(deletePolicy: Option<bool>, zone: Object)
    ensures Get(zone, "status") in {Str("DELETED"), Str("PENDING")} ==> !Deletable(deletePolicy, zone)
    ensures Deletable(deletePolicy, zone) <==>
      Passes(deletePolicy) && Get(zone, "status") != Str("DELETED") && Get(zone, "status") != Str("PENDING")
  {
  }

  /** The permission check of every selected zone under a policy outcome. */
  function Checked(deletePolicy: Option<bool>, zones: seq<Object>): (r: (seq<Object>, seq<Object>))
    ensures multiset(r.0) + multiset(r.1) == multiset(zones)
    ensures forall z :: z in r.0 ==> Deletable(deletePolicy, z)
    ensures forall z :: z in r.1 ==> !Deletable(deletePolicy, z)
  {
    Partition(zones, z => Deletable(deletePolicy, z))
  }

  /** `deleteZone(zone)`, the delete function the modal calls with each
      zone's id. The second argument it passes to the API service is
      ignored there. */
  function DeleteZone(id: Value): (r: Http.Request)
    ensures r == ZoneApi.DeleteZone(id)
    ensures r.verb == Http.DELETE && r.url == ZoneApi.ZoneUrl(id)
  {
    ZoneApi.DeleteZone(id)
  }

  class DeleteAction {
    /** Whether `initAction` has run: it creates the context. */
    var initialised: bool
    /** How the delete_zone policy check made by `initAction` settled; `None` before it runs. */
    var deletePolicy: Option<bool>
    /** `context.labels` */
    var labels: Option<Labels>
    /** The toasts shown and the modals opened, oldest first. */
    var events: seq<Event>

    /** The service as the factory returns it. */
    constructor ()
      ensures !initialised && deletePolicy == None && labels == None && events == []
    {
      initialised := false;
      deletePolicy := None;
      labels := None;
      events := [];
    }

    /** `initAction()`: a fresh context and a new policy check. */
    method InitAction(policy: bool)
      modifies this
      ensures initialised && deletePolicy == Some(policy) && labels == None && events == old(events)
    {
      initialised := true;
      deletePolicy := Some(policy);
      labels := None;
    }

    /** `allowed(zone)`: a row needs the policy from `initAction` and a zone
        that is neither deleted nor pending; without a row (a batch action)
        only a fresh policy check counts. */
    predicate Allowed(zone: Option<Object>, policyNow: bool)
      reads this
      ensures zone.None? ==> (Allowed(zone, policyNow) <==> policyNow)
      ensures zone.Some? ==>
                (Allowed(zone, policyNow) <==>
                   (deletePolicy != Some(false)
                    && Get(zone.value, "status") != Str("DELETED") && Get(zone.value, "status") != Str("PENDING")))
    {
      match zone
      case Some(z) => Deletable(deletePolicy, z)
      case None => policyNow
    }

    /**
     * `perform(items, scope)` with the modal's reply: wrap a single zone,
     * label the modal by the number of zones, check every zone and hand
     * the settled checks to `afterCheck`.
     */
    method Perform(items: Selection, reply: ModalReply) returns (outcome: Outcome)
      requires initialised
      modifies this
      ensures initialised && deletePolicy == old(deletePolicy)
      ensures labels == Some(Labelize(Wordings, |Entities(items)|))
      ensures items.One? ==> labels == Some(Singular(Wordings))
      ensures var (pass, fail) := Checked(deletePolicy, Entities(items));
        && events == old(events) + AfterCheckEvents(NotAllowedMessage, labels.value, pass, fail)
        && outcome == AfterCheckOutcome(ResourceType, pass, reply)
    {
      var zones := Entities(items);
      labels := Some(Labelize(Wordings, |zones|));
      var settled := Checked(deletePolicy, zones);
      outcome := AfterCheck(settled.0, settled.1, reply);
    }

    /** `afterCheck(scope, result)` */
    method AfterCheck(pass: seq<Object>, fail: seq<Object>, reply: ModalReply) returns (outcome: Outcome)
      requires labels.Some?
      modifies this
      ensures initialised == old(initialised) && deletePolicy == old(deletePolicy) && labels == old(labels)
      ensures events == old(events) + AfterCheckEvents(NotAllowedMessage, labels.value, pass, fail)
      ensures outcome == AfterCheckOutcome(ResourceType, pass, reply)
    {
      outcome := Swallowed;
      if |fail| > 0 {
        events := events + [Toast("error", GetMessage(NotAllowedMessage, fail))];
        outcome := Swallowed;
      }
      if |pass| > 0 {
        events := events + [ModalOpened(pass, labels.value)];
        match DeleteModal(pass, reply) {
          case Dismissed =>
            outcome := Rejected;
          case Settled(modalPass, modalFail) =>
            var result := CreateResult(ResourceType, modalPass, modalFail);
            outcome := Resolved(result);
        }
      }
    }
  }
}
