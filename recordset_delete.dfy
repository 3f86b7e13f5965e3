/**
 * The record set delete action: a service object whose `initAction`,
 * `perform` and `afterCheck` reassign its module-level state (the policy
 * check, the modal context and the record sets the modal may delete).
 */
module RecordSetDelete {
  import opened Json
  import opened ActionResults
  import opened BulkDelete
  import RecordSetTypes
  import RecordSetApi
  import Http

  const NotAllowedMessage: string := "You are not allowed to delete record sets: %s"

  const Wordings: LabelWording := LabelWording(
    Wording("Confirm Delete Record Set", "Confirm Delete Record Sets"),
    Wording("You have selected \"%s\". Deleted record set is not recoverable.",
            "You have selected \"%s\". Deleted record sets are not recoverable."),
    Wording("Delete Record Set", "Delete Record Sets"),
    Wording("Deleted Record Set: %s.", "Deleted Record Sets: %s."),
    Wording("Unable to delete Record Set: %s.", "Unable to delete Record Sets: %s."))

  /** The permission check of every selected row under a policy outcome. */
  function Checked(deletePolicy: Option<bool>, entities: seq<Object>): (r: (seq<Object>, seq<Object>))
    ensures multiset(r.0) + multiset(r.1) == multiset(entities)
    ensures forall e :: e in r.0 ==> Passes(deletePolicy) && RecordSetTypes.EditableRecordType(e)
    ensures forall e :: e in r.1 ==> !(Passes(deletePolicy) && RecordSetTypes.EditableRecordType(e))
  {
    Partition(entities, e => Passes(deletePolicy) && RecordSetTypes.EditableRecordType(e))
  }

  /** `Array.prototype.find` on the ids: the first record set with that id. */
  function FindById(recordsets: seq<Object>, id: Value): (r: Option<nat>)
    ensures r.None? <==> forall i :: 0 <= i < |recordsets| ==> Get(recordsets[i], "id") != id
    ensures r.Some? ==> r.value < |recordsets| && Get(recordsets[r.value], "id") == id
    ensures r.Some? ==> forall j :: 0 <= j < r.value ==> Get(recordsets[j], "id") != id
  {
    if recordsets == [] then None
    else if Get(recordsets[0], "id") == id then Some(0)
    else match FindById(recordsets[1..], id)
      case None => None
      case Some(i) => Some(i + 1)
  }

  class DeleteAction {
    /** Whether `initAction` has run: it creates the context. */
    var initialised: bool
    /** How the delete_recordset policy check made by `initAction` settled; `None` before it runs. */
    var deletePolicy: Option<bool>
    /** `context.labels` */
    var labels: Option<Labels>
    /** The record sets the modal was last opened on. */
    var allowedRecordsets: seq<Object>
    /** The toasts shown and the modals opened, oldest first. */
    var events: seq<Event>

    /** The service as the factory returns it. */
    constructor ()
      ensures !initialised && deletePolicy == None && labels == None && allowedRecordsets == [] && events == []
    {
      initialised := false;
      deletePolicy := None;
      labels := None;
      allowedRecordsets := [];
      events := [];
    }

    /** `initAction()`: a fresh context and a new policy check. */
    method InitAction(policy: bool)
      modifies this
      ensures initialised && deletePolicy == Some(policy) && labels == None
      ensures allowedRecordsets == old(allowedRecordsets) && events == old(events)
    {
      initialised := true;
      deletePolicy := Some(policy);
      labels := None;
    }

    /** `allowed(recordset)`: a row needs the policy from `initAction` and an
        editable type; without a row (a batch action) only a fresh policy
        check counts. */
    predicate Allowed(recordset: Option<Object>, policyNow: bool)
      reads this
      ensures recordset.None? ==> (Allowed(recordset, policyNow) <==> policyNow)
      ensures recordset.Some? ==> var rs := recordset.value;
                (Allowed(recordset, policyNow) <==>
                   (deletePolicy != Some(false)
                    && RecordSetTypes.IsEditableType(Get(rs, "type"))
                    && !(Get(rs, "type") == Str("NS") && Get(rs, "name") == Get(rs, "zone_name"))))
    {
      match recordset
      case Some(rs) => Passes(deletePolicy) && RecordSetTypes.EditableRecordType(rs)
      case None => policyNow
    }

    /** `deleteRecordSet(recordSetId)`, the delete function the modal calls
        with each entity's id: the request for the first remembered record
        set with that id, in its own zone; `None` where the lookup finds
        nothing and the call throws. */
    function DeleteRecordSet(recordSetId: Value): (r: Option<Http.Request>)
      reads this
      ensures r.None? <==> forall rs :: rs in allowedRecordsets ==> Get(rs, "id") != recordSetId
      ensures r.Some? ==>
        exists i :: 0 <= i < |allowedRecordsets| && Get(allowedRecordsets[i], "id") == recordSetId
          && r.value == RecordSetApi.DeleteRecordSet(Get(allowedRecordsets[i], "zone_id"), recordSetId)
    {
      match FindById(allowedRecordsets, recordSetId)
      case None => None
      case Some(i) =>
        var rs := allowedRecordsets[i];
        Some(RecordSetApi.DeleteRecordSet(Get(rs, "zone_id"), Get(rs, "id")))
    }

    /**
     * `perform(items, scope)` with the modal's reply: wrap a single row,
     * label the modal by the number of rows, check every row and hand the
     * settled checks to `afterCheck`.
     */
    method Perform(items: Selection, reply: ModalReply) returns (outcome: Outcome)
      requires initialised
      modifies this
      ensures initialised && deletePolicy == old(deletePolicy)
      ensures labels == Some(Labelize(Wordings, |Entities(items)|))
      ensures items.One? ==> labels == Some(Singular(Wordings))
      ensures var (pass, fail) := Checked(deletePolicy, Entities(items));
        && events == old(events) + AfterCheckEvents(NotAllowedMessage, labels.value, pass, fail)
        && allowedRecordsets == (if pass == [] then old(allowedRecordsets) else pass)
        && outcome == AfterCheckOutcome(RecordSetTypes.ResourceType, pass, reply)
      ensures forall rs :: rs in allowedRecordsets ==> DeleteRecordSet(Get(rs, "id")).Some?
    {
      var recordsets := Entities(items);
      labels := Some(Labelize(Wordings, |recordsets|));
      var settled := Checked(deletePolicy, recordsets);
      outcome := AfterCheck(settled.0, settled.1, reply);
    }

    /** `afterCheck(scope, result)` */
    method AfterCheck(pass: seq<Object>, fail: seq<Object>, reply: ModalReply) returns (outcome: Outcome)
      requires labels.Some?
      modifies this
      ensures initialised == old(initialised) && deletePolicy == old(deletePolicy) && labels == old(labels)
      ensures events == old(events) + AfterCheckEvents(NotAllowedMessage, labels.value, pass, fail)
      ensures allowedRecordsets == (if pass == [] then old(allowedRecordsets) else pass)
      ensures outcome == AfterCheckOutcome(RecordSetTypes.ResourceType, pass, reply)
    {
      outcome := Swallowed;
      if |fail| > 0 {
        events := events + [Toast("error", GetMessage(NotAllowedMessage, fail))];
        outcome := Swallowed;
      }
      if |pass| > 0 {
        allowedRecordsets := pass;
        events := events + [ModalOpened(allowedRecordsets, labels.value)];
        match DeleteModal(allowedRecordsets, reply) {
          case Dismissed =>
            outcome := Rejected;
          case Settled(modalPass, modalFail) =>
            var result := CreateResult(RecordSetTypes.ResourceType, modalPass, modalFail);
            outcome := Resolved(result);
        }
      }
    }
  }
}
