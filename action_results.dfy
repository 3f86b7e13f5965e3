/**
 * The normalised result every dashboard action hands back to the host
 * framework's resource registry: which (resource type, id) pairs were
 * created, updated, deleted or failed.
 */
module ActionResults {
  import opened Json

  datatype Entry = Entry(resourceType: string, id: Value)

  datatype ActionResult = ActionResult(
    created: seq<Entry>,
    updated: seq<Entry>,
    deleted: seq<Entry>,
    failed: seq<Entry>)

  /** The ids of a list of entries, in order. */
  function Ids(entries: seq<Entry>): (ids: seq<Value>)
    ensures |ids| == |entries|
    ensures forall i :: 0 <= i < |entries| ==> ids[i] == entries[i].id
  {
    seq(|entries|, i requires 0 <= i < |entries| => entries[i].id)
  }

  /** The fixed-shape result of a create action: one created entry. */
  function CreatedOne(resourceType: string, id: Value): (r: ActionResult)
    ensures r.created == [Entry(resourceType, id)]
    ensures r.updated == [] && r.deleted == [] && r.failed == []
  {
    ActionResult([Entry(resourceType, id)], [], [], [])
  }

  /** The fixed-shape result of an update, set or unset action: one updated entry. */
  function UpdatedOne(resourceType: string, id: Value): (r: ActionResult)
    ensures r.updated == [Entry(resourceType, id)]
    ensures r.created == [] && r.deleted == [] && r.failed == []
  {
    ActionResult([], [Entry(resourceType, id)], [], [])
  }

  /** Whether a policy or service check an action stored in `initAction`
      lets `$q.all` resolve. Before `initAction` runs the variable is still
      `undefined` (`None`), which `$q.all` treats as already resolved. */
  predicate Passes(check: Option<bool>)
  {
    check != Some(false)
  }
}
