/**
 * The permission-gated bulk delete workflow that the zone and the record
 * set delete actions share: the selection is wrapped into a list, every
 * entity is checked against an allow predicate, the checked entities are
 * partitioned into pass and fail, the failures are reported in one error
 * toast, the confirmation modal is opened for the passed entities only, and
 * the modal's own pass/fail report becomes an action result.
 *
 * Promises are replaced by values: a settled permission check is a boolean,
 * the confirmation modal is an oracle reply (cancelled, or submitted with
 * the set of ids whose delete call failed), and the toast service and the
 * modal are recorded in an event log.
 */
module BulkDelete {
  import opened Json
  import opened I18n
  import opened ActionResults

  /** What `perform(items)` receives: a single row item, or the checked rows of a batch. */
  datatype Selection = One(item: Object) | Many(items: seq<Object>)

  /** `angular.isArray(items) ? items : [items]` */
  function Entities(sel: Selection): (es: seq<Object>)
    ensures sel.One? ==> es == [sel.item]
    ensures sel.Many? ==> es == sel.items
  {
    match sel
    case One(item) => [item]
    case Many(items) => items
  }

  /** A singular and a plural message, as handed to `ngettext`. */
  datatype Wording = Wording(singular: string, plural: string)

  datatype LabelWording = LabelWording(title: Wording, message: Wording, submit: Wording, success: Wording, error: Wording)

  /** The labels the confirmation modal shows. */
  datatype Labels = Labels(title: string, message: string, submit: string, success: string, error: string)

  function Singular(w: LabelWording): Labels
  {
    Labels(w.title.singular, w.message.singular, w.submit.singular, w.success.singular, w.error.singular)
  }

  function Plural(w: LabelWording): Labels
  {
    Labels(w.title.plural, w.message.plural, w.submit.plural, w.success.plural, w.error.plural)
  }

  /** `labelize(count)`: every label in the singular form for one entity, in the plural otherwise. */
  function Labelize(w: LabelWording, count: int): (l: Labels)
    ensures count == 1 ==> l == Singular(w)
    ensures count != 1 ==> l == Plural(w)
  {
    Labels(NGettext(w.title.singular, w.title.plural, count),
           NGettext(w.message.singular, w.message.plural, count),
           NGettext(w.submit.singular, w.submit.plural, count),
           NGettext(w.success.singular, w.success.plural, count),
           NGettext(w.error.singular, w.error.plural, count))
  }

  /**
   * `$qExtensions.allSettled(entities.map(checkPermission))`: the entities whose
   * check passed and those whose check failed, each in selection order.
   */
  function Partition(entities: seq<Object>, allowed: Object -> bool): (r: (seq<Object>, seq<Object>))
    ensures multiset(r.0) + multiset(r.1) == multiset(entities)
    ensures forall e :: e in r.0 ==> allowed(e)
    ensures forall e :: e in r.1 ==> !allowed(e)
    decreases |entities|
  {
    if entities == [] then ([], [])
    else
      var rest := Partition(entities[1..], allowed);
      assert entities == [entities[0]] + entities[1..];
      if allowed(entities[0]) then ([entities[0]] + rest.0, rest.1)
      else (rest.0, [entities[0]] + rest.1)
  }

  /** Partitioning keeps the selection order: the buckets of a concatenation are
      the concatenations of the buckets. */
  lemma PartitionAppend(a: seq<Object>, b: seq<Object>, allowed: Object -> bool)
    ensures Partition(a + b, allowed).0 == Partition(a, allowed).0 + Partition(b, allowed).0
    ensures Partition(a + b, allowed).1 == Partition(a, allowed).1 + Partition(b, allowed).1
  {
    PassAppend(a, b, allowed);
    FailAppend(a, b, allowed);
  }

  lemma {:induction false} PassAppend(a: seq<Object>, b: seq<Object>, allowed: Object -> bool)
    ensures Partition(a + b, allowed).0 == Partition(a, allowed).0 + Partition(b, allowed).0
    decreases |a|
  {
    if a == [] {
      assert a + b == b;
    } else {
      assert (a + b)[1..] == a[1..] + b;
      PassAppend(a[1..], b, allowed);
      if allowed(a[0]) {
        assert [a[0]] + (Partition(a[1..], allowed).0 + Partition(b, allowed).0)
            == ([a[0]] + Partition(a[1..], allowed).0) + Partition(b, allowed).0;
      }
    }
  }

  lemma {:induction false} FailAppend(a: seq<Object>, b: seq<Object>, allowed: Object -> bool)
    ensures Partition(a + b, allowed).1 == Partition(a, allowed).1 + Partition(b, allowed).1
    decreases |a|
  {
    if a == [] {
      assert a + b == b;
    } else {
      assert (a + b)[1..] == a[1..] + b;
      FailAppend(a[1..], b, allowed);
      if !allowed(a[0]) {
        assert [a[0]] + (Partition(a[1..], allowed).1 + Partition(b, allowed).1)
            == ([a[0]] + Partition(a[1..], allowed).1) + Partition(b, allowed).1;
      }
    }
  }

  /** The id of every entity, in order. */
  function IdsOf(entities: seq<Object>): (ids: seq<Value>)
    ensures |ids| == |entities|
    ensures forall i :: 0 <= i < |entities| ==> ids[i] == Get(entities[i], "id")
  {
    seq(|entities|, i requires 0 <= i < |entities| => Get(entities[i], "id"))
  }

  /** Every entity's id lands in exactly one of the two buckets. */
  lemma {:induction false} PartitionIds(entities: seq<Object>, allowed: Object -> bool)
    ensures multiset(IdsOf(Partition(entities, allowed).0)) + multiset(IdsOf(Partition(entities, allowed).1))
         == multiset(IdsOf(entities))
    decreases |entities|
  {
    if entities != [] {
      var x := entities[0];
      var rest := entities[1..];
      PartitionIds(rest, allowed);
      assert entities == [x] + rest;
      IdsOfAppend([x], rest);
      var p := Partition(rest, allowed);
      if allowed(x) {
        assert Partition(entities, allowed).0 == [x] + p.0;
        IdsOfAppend([x], p.0);
      } else {
        assert Partition(entities, allowed).1 == [x] + p.1;
        IdsOfAppend([x], p.1);
      }
    }
  }

  lemma IdsOfAppend(a: seq<Object>, b: seq<Object>)
    ensures IdsOf(a + b) == IdsOf(a) + IdsOf(b)
  {
    assert forall i :: 0 <= i < |b| ==> (a + b)[|a| + i] == b[i];
  }

  /** The user's answer to the confirmation modal. On submit the modal calls
      the action's delete function once per entity; `failedIds` are the ids
      whose delete call rejected. */
  datatype ModalReply = Cancel | Submit(failedIds: set<Value>)

  /** What the modal's promise settles to. */
  datatype ModalResult = Dismissed | Settled(pass: seq<Object>, fail: seq<Object>)

  /** The delete modal, opened on `entities`. */
  function DeleteModal(entities: seq<Object>, reply: ModalReply): (r: ModalResult)
    ensures reply.Cancel? <==> r.Dismissed?
    ensures r.Settled? ==> multiset(r.pass) + multiset(r.fail) == multiset(entities)
    ensures r.Settled? ==> forall e :: e in r.fail ==> Get(e, "id") in reply.failedIds
    ensures r.Settled? ==> forall e :: e in r.pass ==> Get(e, "id") !in reply.failedIds
  {
    match reply
    case Cancel => Dismissed
    case Submit(failedIds) =>
      var p := Partition(entities, e => Get(e, "id") !in failedIds);
      Settled(p.0, p.1)
  }

  /** One entry of the given resource type per entity, carrying the entity's id. */
  function Marked(resourceType: string, entities: seq<Object>): (r: seq<Entry>)
    ensures |r| == |entities|
    ensures forall i :: 0 <= i < |entities| ==> r[i] == Entry(resourceType, Get(entities[i], "id"))
    ensures Ids(r) == IdsOf(entities)
  {
    seq(|entities|, i requires 0 <= i < |entities| => Entry(resourceType, Get(entities[i], "id")))
  }

  /** The action result that `createResult` builds from a settled modal. */
  function ResultOf(resourceType: string, pass: seq<Object>, fail: seq<Object>): ActionResult
  {
    ActionResult([], [], Marked(resourceType, pass), Marked(resourceType, fail))
  }

  /**
   * `createResult`: each modal pass id is recorded as deleted and each modal
   * fail id as failed, in the modal's order, and nothing else is recorded.
   */
  method CreateResult(resourceType: string, pass: seq<Object>, fail: seq<Object>) returns (r: ActionResult)
    ensures r.created == [] && r.updated == []
    ensures |r.deleted| == |pass| && |r.failed| == |fail|
    ensures forall i :: 0 <= i < |pass| ==> r.deleted[i] == Entry(resourceType, Get(pass[i], "id"))
    ensures forall i :: 0 <= i < |fail| ==> r.failed[i] == Entry(resourceType, Get(fail[i], "id"))
    ensures r == ResultOf(resourceType, pass, fail)
  {
    r := ActionResult([], [], [], []);
    var i := 0;
    while i < |pass|
      invariant 0 <= i <= |pass|
      invariant r == ActionResult([], [], Marked(resourceType, pass[..i]), [])
    {
      r := r.(deleted := r.deleted + [Entry(resourceType, Get(pass[i], "id"))]);
      i := i + 1;
    }
    assert pass[..i] == pass;
    var j := 0;
    while j < |fail|
      invariant 0 <= j <= |fail|
      invariant r == ActionResult([], [], Marked(resourceType, pass), Marked(resourceType, fail[..j]))
    {
      r := r.(failed := r.failed + [Entry(resourceType, Get(fail[j], "id"))]);
      j := j + 1;
    }
    assert fail[..j] == fail;
  }

  /** A toast or the opening of the confirmation modal. */
  datatype Event = Toast(level: string, message: string) | ModalOpened(entities: seq<Object>, labels: Labels)

  /** How the promise returned by `perform` settles: fulfilled with nothing
      (a swallowed rejection), rejected because the modal was cancelled, or
      fulfilled with an action result. */
  datatype Outcome = Swallowed | Rejected | Resolved(result: ActionResult)

  /** The `name` of every entity, in order. */
  function Names(entities: seq<Object>): (names: seq<Value>)
    ensures |names| == |entities|
    ensures forall i :: 0 <= i < |entities| ==> names[i] == Get(entities[i], "name")
  {
    seq(|entities|, i requires 0 <= i < |entities| => Get(entities[i], "name"))
  }

  /** `getMessage(message, entities)`: the names joined by ", " put in place of the `%s`. */
  function GetMessage(template: string, entities: seq<Object>): (m: string)
    ensures |template| >= 2 && template[|template| - 2..] == "%s" && NoPlaceholder(template[..|template| - 2])
            && (|template| == 2 || template[|template| - 3] != '%')
            ==> m == template[..|template| - 2] + JoinValues(Names(entities), ", ")
  {
    if |template| >= 2 && template[|template| - 2..] == "%s" && NoPlaceholder(template[..|template| - 2])
       && (|template| == 2 || template[|template| - 3] != '%')
    then
      assert template == template[..|template| - 2] + "%s";
      InterpolateTrailing(template[..|template| - 2], JoinValues(Names(entities), ", "));
      Interpolate(template, [JoinValues(Names(entities), ", ")])
    else
      Interpolate(template, [JoinValues(Names(entities), ", ")])
  }

  /** The events `afterCheck` adds: one error toast naming the failed
      entities when there are any, then the modal on the passed entities
      when there are any. */
  function AfterCheckEvents(template: string, labels: Labels, pass: seq<Object>, fail: seq<Object>): (ev: seq<Event>)
    ensures |ev| == (if |fail| > 0 then 1 else 0) + (if |pass| > 0 then 1 else 0)
    ensures |fail| > 0 ==> ev[0] == Toast("error", GetMessage(template, fail))
    ensures |pass| > 0 ==> ev[|ev| - 1] == ModalOpened(pass, labels)
    ensures forall i :: 0 <= i < |ev| && ev[i].Toast? ==> |fail| > 0 && ev[i] == Toast("error", GetMessage(template, fail))
    ensures forall i :: 0 <= i < |ev| && ev[i].ModalOpened? ==> |pass| > 0 && ev[i] == ModalOpened(pass, labels)
  {
    (if |fail| > 0 then [Toast("error", GetMessage(template, fail))] else [])
      + (if |pass| > 0 then [ModalOpened(pass, labels)] else [])
  }

  /** How `afterCheck`'s promise settles. */
  function AfterCheckOutcome(resourceType: string, pass: seq<Object>, reply: ModalReply): (o: Outcome)
    ensures |pass| == 0 ==> o == Swallowed
    ensures |pass| > 0 && reply.Cancel? ==> o == Rejected
    ensures o.Resolved? <==> reply.Submit? && |pass| > 0
    ensures |pass| > 0 && reply.Submit? ==>
              o == Resolved(ResultOf(resourceType, DeleteModal(pass, reply).pass, DeleteModal(pass, reply).fail))
    ensures o.Resolved? ==> o.result.created == [] && o.result.updated == []
    ensures o.Resolved? ==> multiset(IdsOf(pass)) == multiset(Ids(o.result.deleted)) + multiset(Ids(o.result.failed))
    ensures o.Resolved? ==> forall x :: x in o.result.deleted ==> x.resourceType == resourceType && x.id !in reply.failedIds
    ensures o.Resolved? ==> forall x :: x in o.result.failed ==> x.resourceType == resourceType && x.id in reply.failedIds
  {
    if |pass| == 0 then Swallowed
    else match DeleteModal(pass, reply)
      case Dismissed => Rejected
      case Settled(p, f) =>
        PartitionIds(pass, e => Get(e, "id") !in reply.failedIds);
        Resolved(ResultOf(resourceType, p, f))
  }

  /**
   * Every selected entity is accounted for exactly once: an entity that
   * fails the permission check is named in the error toast, and the others
   * go to the modal, whose result lists each of them once, as deleted or as
   * failed.
   */
  lemma EveryEntityAccounted(resourceType: string, template: string, labels: Labels,
                             entities: seq<Object>, allowed: Object -> bool, reply: ModalReply)
    ensures var (pass, fail) := Partition(entities, allowed);
      var o := AfterCheckOutcome(resourceType, pass, reply);
      o.Resolved? ==>
        multiset(Ids(o.result.deleted)) + multiset(Ids(o.result.failed)) + multiset(IdsOf(fail))
        == multiset(IdsOf(entities))
    ensures var (pass, fail) := Partition(entities, allowed);
      pass == [] ==> AfterCheckOutcome(resourceType, pass, reply) == Swallowed
  {
    PartitionIds(entities, allowed);
  }
}
