# designate-dashboard core, modelled in Dafny

This project models the behaviour of designate-dashboard, the OpenStack
Horizon plugin for the Designate DNS service. It covers:

- the Django record form (`RecordForm.clean` and its helpers), the update
  form's type filter and its SOA/NS short-circuit, the initial values the
  record views compute, and the legacy domain/record table actions;
- the AngularJS action services for zones, record sets and floating-IP PTR
  records: their `allowed` predicates, the bulk-delete flow (wrap, check,
  split into pass and fail, toast, confirm, result), the create/update
  form models with their wrap/unwrap of `records` and `masters`, and the
  fixed-shape action results;
- the three AngularJS API services (URLs, request configs, whitelisted
  payloads, and the `.catch` handlers);
- the static create/update schema-form configurations, the record-set type
  tables, the details-path generator and parser, and the zone overview's
  attribute string;
- the REST layer (`api/rest/designate.py` keyword building and list helpers,
  `api/rest/passthrough.py` URL, `verify` and error mapping).

JavaScript and Python values are one `Json.Value` datatype, with
JavaScript truthiness (`Json.Truthy`) and Python truthiness
(`Json.PyTruthy`) as separate functions. The Python regular expressions
are modelled as predicates with `re.match` semantics: the match is anchored
at the start only, and a `$` also matches before one final newline.

Where a source object's fields change in place (the action services'
module-level state, the record form's `cleaned_data` and errors, the view's
`initial` dictionary), the model is a `class` whose methods say what the
new state is. Each such method is tied to a function that specifies it, and
the properties are proved about that function. HTTP replies, the
confirmation modal, policy and service-enabled checks, settings and the
clock are parameters.

## Model

| member | source | states |
|---|---|---|
| Util.ModelOf | designatedashboard/static/designatedashboard/resources/util.service.js:56-66 | The model holds exactly the form keys whose item value is truthy, and each value is copied unchanged. |
| Util.GetModel | designatedashboard/static/designatedashboard/resources/util.service.js:56-66 | The loop over the form keys returns ModelOf. So no key outside the form appears, and no falsy value is sent. |
| Util.Stamped | designatedashboard/static/designatedashboard/resources/util.service.js:95-103 | Only `_timestampId` is added. It is the id field (`id` by default) followed by the timestamp field, or by the current time when the item has none. Every other field is unchanged. |
| Util.AddTimestampIds | designatedashboard/static/designatedashboard/resources/util.service.js:95-103 | Every array element is replaced in place by its stamped form. The count and order are kept. |
| Util.NotDeleted | designatedashboard/static/designatedashboard/resources/util.service.js:41-43 | A resource is not deleted exactly when its status is missing or is anything other than the string DELETED. |
| Util.NotPending | designatedashboard/static/designatedashboard/resources/util.service.js:45-47 | A resource is not pending exactly when its status is missing or is anything other than the string PENDING. |
| BulkDelete.Entities | designatedashboard/static/designatedashboard/resources/os-designate-zone/actions/delete.service.js:78 | A single item is wrapped into a one-element list. A list is used as it is. |
| BulkDelete.Labelize | designatedashboard/static/designatedashboard/resources/os-designate-zone/actions/delete.service.js:131-154 | Every label takes the singular wording when the count is 1, and the plural wording otherwise. |
| BulkDelete.Partition | designatedashboard/static/designatedashboard/resources/os-designate-zone/actions/delete.service.js:81-82 | The settled checks split the entities into pass and fail. Together they are a permutation of the selection. Every passed entity is allowed and every failed one is not. |
| BulkDelete.PartitionAppend | designatedashboard/static/designatedashboard/resources/os-designate-zone/actions/delete.service.js:81-82 | Both buckets keep selection order: the buckets of `a + b` are the buckets of `a` followed by those of `b`. |
| BulkDelete.PassAppend | designatedashboard/static/designatedashboard/resources/os-designate-zone/actions/delete.service.js:81-82 | The pass bucket distributes over concatenation. |
| BulkDelete.FailAppend | designatedashboard/static/designatedashboard/resources/os-designate-zone/actions/delete.service.js:81-82 | The fail bucket distributes over concatenation. |
| BulkDelete.IdsOf | designatedashboard/static/designatedashboard/resources/os-designate-zone/actions/delete.service.js:122-127 | Gives each entity's `id`, position by position. |
| BulkDelete.PartitionIds | designatedashboard/static/designatedashboard/resources/os-designate-zone/actions/delete.service.js:81-82 | Every selected id lands in exactly one bucket. |
| BulkDelete.DeleteModal | designatedashboard/static/designatedashboard/resources/os-designate-zone/actions/delete.service.js:113 | The modal is dismissed exactly when it is cancelled. Otherwise its pass and fail lists are a permutation of the entities: fail holds those whose delete call failed, pass holds the rest. |
| BulkDelete.Marked | designatedashboard/static/designatedashboard/resources/os-designate-zone/actions/delete.service.js:122-127 | Gives one entry of the resource type per entity, carrying that entity's id, in order. |
| BulkDelete.CreateResult | designatedashboard/static/designatedashboard/resources/os-designate-zone/actions/delete.service.js:118-129 | Each modal pass becomes a deleted entry and each modal fail a failed entry, in the modal's order. Nothing is created or updated. |
| BulkDelete.Names | designatedashboard/static/designatedashboard/resources/os-designate-zone/actions/delete.service.js:164-166 | Gives each entity's `name`, position by position. |
| BulkDelete.GetMessage | designatedashboard/static/designatedashboard/resources/os-designate-zone/actions/delete.service.js:160-162 | For a template ending in its only `%s`, the message is the template's prefix followed by the names joined with ", ". |
| BulkDelete.AfterCheckEvents | designatedashboard/static/designatedashboard/resources/os-designate-zone/actions/delete.service.js:106-116 | At most two events occur. One error toast naming the failed entities appears exactly when some check failed. The delete modal opens on the passed entities exactly when some passed, and after the toast. |
| BulkDelete.AfterCheckOutcome | designatedashboard/static/designatedashboard/resources/os-designate-zone/actions/delete.service.js:106-129 | With nothing passed, the promise fulfils with nothing (the rejection is swallowed). A cancelled modal rejects. A result exists if and only if the modal was submitted on a non-empty pass list, and it is then `createResult` of the modal's pass and fail lists. Nothing is created or updated. Its deleted and failed ids together are exactly the passed ids; every deleted id is outside the modal's failed ids and every failed id is inside them, each entry with the action's resource type. |
| BulkDelete.EveryEntityAccounted | designatedashboard/static/designatedashboard/resources/os-designate-zone/actions/delete.service.js:77-129 | Every selected id is accounted for exactly once: in the error toast, as deleted, or as failed. An all-failed selection swallows. |
| ZoneDelete.StatusBlocksDelete | designatedashboard/static/designatedashboard/resources/os-designate-zone/actions/delete.service.js:88-100 | A zone row is deletable if and only if the policy passed and its status is neither DELETED nor PENDING. |
| ZoneDelete.Checked | designatedashboard/static/designatedashboard/resources/os-designate-zone/actions/delete.service.js:81-82 | The selection is split by deletability into a permutation of pass and fail. |
| ZoneDelete.DeleteZone | designatedashboard/static/designatedashboard/resources/os-designate-zone/actions/delete.service.js:156-158 | The modal's delete function issues DELETE on the zone's URL. The extra argument is ignored. |
| ZoneDelete.DeleteAction.constructor | designatedashboard/static/designatedashboard/resources/os-designate-zone/actions/delete.service.js:62-68 | The service starts with no context, no policy check and no events. |
| ZoneDelete.DeleteAction.InitAction | designatedashboard/static/designatedashboard/resources/os-designate-zone/actions/delete.service.js:72-75 | Creates a fresh context (no labels) and records the delete_zone policy outcome. Events are untouched. |
| ZoneDelete.DeleteAction.Perform | designatedashboard/static/designatedashboard/resources/os-designate-zone/actions/delete.service.js:77-86 | Labels follow the selection size (singular for one row). Events and outcome are those of AfterCheck on the checked selection. The policy is unchanged. |
| ZoneDelete.DeleteAction.AfterCheck | designatedashboard/static/designatedashboard/resources/os-designate-zone/actions/delete.service.js:106-116 | Appends AfterCheckEvents to the log and settles as AfterCheckOutcome. The rest of the state is unchanged. |
| ZoneDelete.Deletable | designatedashboard/static/designatedashboard/resources/os-designate-zone/actions/delete.service.js:91-96 | A deletable zone needs a policy that has not failed. With such a policy, a zone with no status at all is deletable. |
| ZoneDelete.DeleteAction.Allowed | designatedashboard/static/designatedashboard/resources/os-designate-zone/actions/delete.service.js:88-100 | A batch delete is allowed exactly when a fresh policy check passes. A row is allowed exactly when the stored policy has not failed and its status is neither DELETED nor PENDING. |
| RecordSetDelete.Checked | designatedashboard/static/designatedashboard/resources/os-designate-recordset/actions/delete.service.js:82-98 | The selection is split into a permutation of pass and fail. A row passes exactly when the policy passed and its type is editable. |
| RecordSetDelete.FindById | designatedashboard/static/designatedashboard/resources/os-designate-recordset/actions/delete.service.js:166-168 | Returns the first index whose id is the given one, or None exactly when no record set has that id. |
| RecordSetDelete.DeleteAction.constructor | designatedashboard/static/designatedashboard/resources/os-designate-recordset/actions/delete.service.js:63-69 | The service starts with no context, no policy check, no remembered record sets and no events. |
| RecordSetDelete.DeleteAction.InitAction | designatedashboard/static/designatedashboard/resources/os-designate-recordset/actions/delete.service.js:73-76 | Creates a fresh context and records the delete_recordset policy outcome. The remembered record sets and the events are untouched. |
| RecordSetDelete.DeleteAction.DeleteRecordSet | designatedashboard/static/designatedashboard/resources/os-designate-recordset/actions/delete.service.js:165-170 | The request exists if and only if some remembered record set has the id. It then deletes that record set in its own `zone_id`. Otherwise the call throws. |
| RecordSetDelete.DeleteAction.Perform | designatedashboard/static/designatedashboard/resources/os-designate-recordset/actions/delete.service.js:78-85 | Labels follow the selection size. Events and outcome are those of AfterCheck on the checked rows. Afterwards every remembered record set can be found by DeleteRecordSet. |
| RecordSetDelete.DeleteAction.AfterCheck | designatedashboard/static/designatedashboard/resources/os-designate-recordset/actions/delete.service.js:104-118 | Remembers the passed record sets (when any) before the modal opens. Events and outcome match the shared workflow. |
| RecordSetDelete.DeleteAction.Allowed | designatedashboard/static/designatedashboard/resources/os-designate-recordset/actions/delete.service.js:87-98 | A batch delete is allowed exactly when a fresh policy check passes. A row is allowed exactly when the stored policy has not failed, its type is an editable type, and it is not the NS record at the zone apex. The status is not consulted. |
| Http.Caught | designatedashboard/static/designatedashboard/resources/os-designate-floatingip/api.service.js:97-101 | A `.catch` that only toasts always fulfils. On success it passes the response through with no toast. On failure it shows the error toast and fulfils with `undefined`. |
| Http.Rethrown | designatedashboard/static/designatedashboard/resources/os-designate-floatingip/api.service.js:97-101 | The corrected handler: the same as Caught on success. On failure it shows the same toast and rejects. So it rejects if and only if the call failed. |
| Http.Wire | designatedashboard/static/designatedashboard/resources/os-designate-floatingip/api.service.js:92-98 | The body as serialised has exactly the members whose value is not `undefined`, with their values. |
| Http.ParamsConfig | designatedashboard/static/designatedashboard/resources/os-designate-floatingip/api.service.js:63 | The config carries `params` if and only if the parameters are truthy, and is empty otherwise. |
| FormActions.Wrap | designatedashboard/static/designatedashboard/resources/os-designate-zone/actions/update.service.js:98-103 | Each value becomes a single-property object under the key, position by position. |
| FormActions.Unwrap | designatedashboard/static/designatedashboard/resources/os-designate-zone/actions/update.service.js:111-116 | Fails if and only if some element is null or undefined. Otherwise it yields each element's property under the key. |
| FormActions.UnwrapWrap | designatedashboard/static/designatedashboard/resources/os-designate-zone/actions/update.service.js:98-116 | Unwrapping undoes wrapping for every list of values. |
| FormActions.MapWrap | designatedashboard/static/designatedashboard/resources/os-designate-zone/actions/update.service.js:98-103 | `map` succeeds exactly on arrays and yields the wrapped array. |
| FormActions.MapUnwrap | designatedashboard/static/designatedashboard/resources/os-designate-zone/actions/update.service.js:111-116 | A successful unwrap is of an array and keeps its length. |
| FormActions.MapRoundTrip | designatedashboard/static/designatedashboard/resources/os-designate-zone/actions/update.service.js:98-116 | Every array wraps and then unwraps back to itself. |
| FormActions.UnwrapOwn | designatedashboard/static/designatedashboard/resources/os-designate-zone/actions/update.service.js:108-117 | A model without the field is copied unchanged. With the field, the result exists exactly when that field unwraps. Only that field changes, to its unwrapped value, and the keys are kept. |
| FormActions.Reported | designatedashboard/static/designatedashboard/resources/os-designate-zone/actions/update.service.js:127-140 | `onSuccess` crashes if and only if the response or its `data` is null or undefined. Otherwise it toasts the message with `data[nameKey]` and reports `data.id` as created or updated. |
| FormActions.Settle | designatedashboard/static/designatedashboard/resources/os-designate-zone/actions/update.service.js:120 | `onFailure` runs if and only if the API promise rejected. Otherwise the outcome is `onSuccess`'s. |
| FormActions.FailureCrashesAsWritten | designatedashboard/static/designatedashboard/resources/os-designate-zone/api.service.js:138-150 | As written, a failed API call reaches `onSuccess` with `undefined`, which crashes. `onFailure` never runs. |
| FormActions.FailureReachesOnFailureWhenRethrown | designatedashboard/static/designatedashboard/resources/os-designate-zone/api.service.js:138-150 | With a rethrowing handler, `onFailure` runs if and only if the call failed. Success outcomes are unchanged. |
| FloatingIpApi.List | designatedashboard/static/designatedashboard/resources/os-designate-floatingip/api.service.js:62-68 | GET on `/api/dns/v2/reverse/floatingips`. The config carries `params` exactly when the parameters are truthy. |
| FloatingIpApi.Get | designatedashboard/static/designatedashboard/resources/os-designate-floatingip/api.service.js:70-76 | GET on the list URL plus `/` and the id, with the same config as `list`. |
| FloatingIpApi.SetPayload | designatedashboard/static/designatedashboard/resources/os-designate-floatingip/api.service.js:92-96 | The payload has exactly the keys ptrdname, description and ttl, each read from the data. |
| FloatingIpApi.Set | designatedashboard/static/designatedashboard/resources/os-designate-floatingip/api.service.js:89-102 | PATCH of the whitelisted payload to the URL that `get` reads. |
| FloatingIpApi.Unset | designatedashboard/static/designatedashboard/resources/os-designate-floatingip/api.service.js:113-120 | A `set` with all three fields null. Every sent field is null. |
| FloatingIpApi.SetIgnoresOtherFields | designatedashboard/static/designatedashboard/resources/os-designate-floatingip/api.service.js:90-96 | Two data objects that agree on the three whitelisted fields produce the same request. |
| FloatingIpSet.PerformModel | designatedashboard/static/designatedashboard/resources/os-designate-floatingip/actions/set.service.js:128-134 | The model holds the truthy ptrdname and description, the ttl (3600 when falsy) and the floating IP's id, and nothing else. |
| FloatingIpSet.PerformModelValid | designatedashboard/static/designatedashboard/resources/os-designate-floatingip/actions/set.service.js:55-69 | A floating IP that meets the schema opens a model that meets the schema. In particular the default TTL is in range. |
| FloatingIpSet.SetAction.constructor | designatedashboard/static/designatedashboard/resources/os-designate-floatingip/actions/set.service.js:100-106 | Before `initAction` and `perform`, nothing is known: no DNS check, no title and no model. |
| FloatingIpSet.SetAction.InitAction | designatedashboard/static/designatedashboard/resources/os-designate-floatingip/actions/set.service.js:110-112 | Records whether the DNS service is enabled. The form configuration is untouched. |
| FloatingIpSet.SetAction.Perform | designatedashboard/static/designatedashboard/resources/os-designate-floatingip/actions/set.service.js:122-137 | The shared title names the floating IP's address. The shared model becomes PerformModel of the item, replacing any earlier one. |
| FloatingIpSet.SetAction.OnSubmit | designatedashboard/static/designatedashboard/resources/os-designate-floatingip/actions/set.service.js:139-145 | Sets the submitted model's three PTR fields on the floating IP id stored in the shared model, not the submitted one. |
| FloatingIpSet.UneditedSetKeepsFields | designatedashboard/static/designatedashboard/resources/os-designate-floatingip/actions/set.service.js:122-145 | Submitting the opened form unedited sends the item's own PTR fields back to the same floating IP. A missing field is sent as undefined, and the default TTL is used when the item has none. |
| FloatingIpSet.Finish | designatedashboard/static/designatedashboard/resources/os-designate-floatingip/actions/set.service.js:144-164 | A rejected set reaches `onFailure`. A reply whose `data` is `null` or `undefined` crashes `onSuccess`. For a reply with object data, the toast names the data's `ptrdname` and the result reports its id as updated. |
| FloatingIpSet.SetAction.Allowed | designatedashboard/static/designatedashboard/resources/os-designate-floatingip/actions/set.service.js:114-120 | Setting a PTR is allowed exactly when the DNS service check has not failed and the floating IP's status is not PENDING. No policy is consulted. |
| FloatingIpUnset.Finish | designatedashboard/static/designatedashboard/resources/os-designate-floatingip/actions/unset.service.js:115-134 | Fails if and only if the request rejected. Otherwise it shows the fixed success toast and reports the remembered id as updated. |
| FloatingIpUnset.FailedUnsetReportedAsSuccess | designatedashboard/static/designatedashboard/resources/os-designate-floatingip/api.service.js:97-101 | As written, a failed unset is reported as a successful one. |
| FloatingIpUnset.UnsetSuccessReportedOnlyWhenRethrown | designatedashboard/static/designatedashboard/resources/os-designate-floatingip/actions/unset.service.js:115-138 | With the failure rethrown, success is reported if and only if the unset succeeded. |
| FloatingIpUnset.UnsetAction.constructor | designatedashboard/static/designatedashboard/resources/os-designate-floatingip/actions/unset.service.js:59-69 | The service starts with an empty model, no title and no remembered id. |
| FloatingIpUnset.UnsetAction.InitAction | designatedashboard/static/designatedashboard/resources/os-designate-floatingip/actions/unset.service.js:85-87 | Records whether the DNS service is enabled. Nothing else changes. |
| FloatingIpUnset.UnsetAction.Perform | designatedashboard/static/designatedashboard/resources/os-designate-floatingip/actions/unset.service.js:104-110 | Titles the form after the address and stores the item's id in the shared model. Nothing else changes. |
| FloatingIpUnset.UnsetAction.OnSubmit | designatedashboard/static/designatedashboard/resources/os-designate-floatingip/actions/unset.service.js:112-116 | Remembers the submitted model's floating IP id and asks the API to clear that IP's PTR record. |
| FloatingIpUnset.PerformThenSubmit | designatedashboard/static/designatedashboard/resources/os-designate-floatingip/actions/unset.service.js:104-134 | Performing and then submitting unedited clears the performed floating IP's PTR. A success reports that same id as updated. |
| FloatingIpUnset.DomainNameSet | designatedashboard/static/designatedashboard/resources/os-designate-floatingip/actions/unset.service.js:98-102 | A PTR name counts as set only when `ptrdname` is present. An empty string counts as set and `null` does not, since only the type is checked. |
| FloatingIpUnset.UnsetAction.Allowed | designatedashboard/static/designatedashboard/resources/os-designate-floatingip/actions/unset.service.js:89-96 | Unsetting is allowed exactly when the DNS service check has not failed, `ptrdname` is a string, and the status is not PENDING. |
| RecordSetApi.List | designatedashboard/static/designatedashboard/resources/os-designate-recordset/api.service.js:64-69 | GET on the zone's record set collection. The params object is passed on as the config itself. |
| RecordSetApi.Get | designatedashboard/static/designatedashboard/resources/os-designate-recordset/api.service.js:84-90 | GET with no config on the collection URL plus the record set id and a trailing slash. |
| RecordSetApi.GetSettled | designatedashboard/static/designatedashboard/resources/os-designate-recordset/api.service.js:91-94 | `get` always fulfils. A success passes the response through. A failure shows the error toast and fulfils with an empty object. |
| RecordSetApi.DeleteRecordSet | designatedashboard/static/designatedashboard/resources/os-designate-recordset/api.service.js:109-115 | DELETE with no body on the URL that `get` reads. |
| RecordSetApi.Create | designatedashboard/static/designatedashboard/resources/os-designate-recordset/api.service.js:117-122 | POST of the unmodified data to the collection URL that `list` reads. |
| RecordSetApi.UpdatePayload | designatedashboard/static/designatedashboard/resources/os-designate-recordset/api.service.js:127-131 | The payload has exactly the keys ttl, description and records, each read from the data. |
| RecordSetApi.Update | designatedashboard/static/designatedashboard/resources/os-designate-recordset/api.service.js:124-137 | PUT of the whitelisted payload to the `get` URL without its trailing slash. |
| RecordSetApi.UpdateIgnoresOtherFields | designatedashboard/static/designatedashboard/resources/os-designate-recordset/api.service.js:125-131 | Two data objects that agree on ttl, description and records produce the same update. |
| ZoneApi.List | designatedashboard/static/designatedashboard/resources/os-designate-zone/api.service.js:71-77 | GET on `/api/dns/v2/zones/`. The config is `{params}` when the params are truthy and empty otherwise. |
| ZoneApi.Get | designatedashboard/static/designatedashboard/resources/os-designate-zone/api.service.js:89-94 | GET with no config on the zones URL plus the id and a trailing slash. |
| ZoneApi.DeleteZone | designatedashboard/static/designatedashboard/resources/os-designate-zone/api.service.js:103-108 | DELETE with no body on the URL that `get` reads. |
| ZoneApi.Create | designatedashboard/static/designatedashboard/resources/os-designate-zone/api.service.js:120-125 | POST of the unmodified data to the collection URL. |
| ZoneApi.UpdatePayload | designatedashboard/static/designatedashboard/resources/os-designate-zone/api.service.js:141-145 | The payload has exactly the keys email, ttl and description, each read from the data. |
| ZoneApi.Update | designatedashboard/static/designatedashboard/resources/os-designate-zone/api.service.js:138-150 | PATCH of the whitelisted payload to the URL that `get` reads. |
| ZoneApi.UpdateIgnoresOtherFields | designatedashboard/static/designatedashboard/resources/os-designate-zone/api.service.js:139-145 | Two data objects that agree on email, ttl and description produce the same update. |
| ZoneCreate.SubmitSendsEnteredMasters | designatedashboard/static/designatedashboard/resources/os-designate-zone/actions/create.service.js:87-100 | Masters entered as `{address}` objects are created as the plain address list. The rest of the model is sent as entered. |
| ZoneCreate.PrimarySentAsEntered | designatedashboard/static/designatedashboard/resources/os-designate-zone/actions/create.service.js:87-100 | A model without masters is created exactly as entered. |
| ZoneCreate.CreateAction.constructor | designatedashboard/static/designatedashboard/resources/os-designate-zone/actions/create.service.js:59-65 | No policy check and no DNS check have been made yet. |
| ZoneCreate.CreateAction.InitAction | designatedashboard/static/designatedashboard/resources/os-designate-zone/actions/create.service.js:69-72 | Records the create_zone policy outcome and whether the DNS service is enabled. |
| ZoneCreate.CreateAction.Perform | designatedashboard/static/designatedashboard/resources/os-designate-zone/actions/create.service.js:81-85 | Opens the create form titled "Create Zone" on its default model: a PRIMARY zone with a TTL of 3600. |
| ZoneCreate.CreateAction.OnSubmit | designatedashboard/static/designatedashboard/resources/os-designate-zone/actions/create.service.js:87-101 | A request exists if and only if unwrapping the masters succeeds. It then POSTs the unwrapped copy of the model. |
| ZoneCreate.Finish | designatedashboard/static/designatedashboard/resources/os-designate-zone/actions/create.service.js:100-120 | A rejected create reaches `onFailure`. A reply without `data` crashes. For object data, the toast names the zone and the result reports its id as created. |
| ZoneCreate.CreateAction.Allowed | designatedashboard/static/designatedashboard/resources/os-designate-zone/actions/create.service.js:74-79 | Creating a zone is allowed exactly when neither the create policy nor the DNS service check has failed. |
| ZoneUpdate.PerformModel | designatedashboard/static/designatedashboard/resources/os-designate-zone/actions/update.service.js:88-94 | The model holds the update form's keys with truthy values on the zone, plus `id`. Each value is the zone's own. |
| ZoneUpdate.MastersLostAsWritten | designatedashboard/static/designatedashboard/resources/os-designate-zone/actions/update.service.js:91-120 | As written, submitting the unedited form of a zone with string masters turns every master into `undefined`. |
| ZoneUpdate.PerformModelCorrected | designatedashboard/static/designatedashboard/resources/os-designate-zone/actions/update.service.js:88-104 | The corrected `perform` fails if and only if the zone's masters are present but not an array. Otherwise its model adds `masters` to PerformModel's keys exactly when the zone has masters. |
| ZoneUpdate.MastersRoundTripCorrected | designatedashboard/static/designatedashboard/resources/os-designate-zone/actions/update.service.js:98-116 | With the wrapped masters in the model, the unedited form submits the zone's own masters. |
| ZoneUpdate.SubmitIgnoresMasters | designatedashboard/static/designatedashboard/resources/os-designate-zone/api.service.js:138-146 | Two submitted models that differ only in masters send the same update request. So the masters never reach the zone update API either way. |
| ZoneUpdate.UpdateAction.constructor | designatedashboard/static/designatedashboard/resources/os-designate-zone/actions/update.service.js:61-67 | No policy check has been made yet. |
| ZoneUpdate.UpdateAction.InitAction | designatedashboard/static/designatedashboard/resources/os-designate-zone/actions/update.service.js:71-73 | Records the update_zone policy outcome. |
| ZoneUpdate.UpdateAction.Perform | designatedashboard/static/designatedashboard/resources/os-designate-zone/actions/update.service.js:88-105 | Fails if and only if the zone's masters are present but not an array. Otherwise it opens the titled update form on PerformModel, and the wrapped masters sit beside the model on the configuration. |
| ZoneUpdate.UpdateAction.OnSubmit | designatedashboard/static/designatedashboard/resources/os-designate-zone/actions/update.service.js:107-121 | A request exists if and only if unwrapping the masters succeeds. It then updates the zone named by the model's id with the unwrapped copy. |
| ZoneUpdate.SubmitModel | designatedashboard/static/designatedashboard/resources/os-designate-zone/actions/update.service.js:107-117 | Submitting throws exactly when `masters` is present and cannot be unwrapped. Otherwise the payload has the model's keys, every other field unchanged, and the masters replaced by their addresses. |
| ZoneUpdate.Finish | designatedashboard/static/designatedashboard/resources/os-designate-zone/actions/update.service.js:120-140 | A rejected update reaches `onFailure`. A reply without `data` crashes. For object data, the toast names the zone and the result reports its id as updated. |
| ZoneUpdate.UpdateAction.Allowed | designatedashboard/static/designatedashboard/resources/os-designate-zone/actions/update.service.js:75-86 | No batch update is allowed. A row is allowed exactly when the policy has not failed and the status is neither DELETED nor PENDING. |
| ZoneForms.CreateUpdateFormConfig | designatedashboard/static/designatedashboard/resources/os-designate-zone/actions/common-forms.service.js:67-183 | Details of the form:<br>- The type is one of PRIMARY or SECONDARY.<br>- The TTL runs from 1 to 2147483647.<br>- The default model is a PRIMARY zone with a TTL of 3600.<br>- Exactly name, type and masters carry `readonly`, and it is the argument.<br>- Email and TTL show only for PRIMARY zones, masters only for SECONDARY zones, and every other entry always.<br>- The email must also have the `email` format.<br>- The default model meets the schema, whatever the validator's email format accepts. |
| ZoneForms.CreateAndUpdateDifferOnlyInReadonly | designatedashboard/static/designatedashboard/resources/os-designate-zone/actions/common-forms.service.js:48-62 | The create and update configurations have the same schema and model. Their entries differ only in the readonly flag. |
| ZoneForms.EmailValidIff | designatedashboard/static/designatedashboard/resources/os-designate-zone/actions/common-forms.service.js:82 | The email pattern accepts a string if and only if it is non-empty '@'-free text, one '@', then non-empty '@'-free text. |
| ZoneForms.CreateFormConfig | designatedashboard/static/designatedashboard/resources/os-designate-zone/actions/common-forms.service.js:48-50 | The create form marks nothing read-only. |
| ZoneForms.UpdateFormConfig | designatedashboard/static/designatedashboard/resources/os-designate-zone/actions/common-forms.service.js:56-58 | The update form marks exactly name, type and masters read-only. |
| RecordSetCreate.PerformModel | designatedashboard/static/designatedashboard/resources/os-designate-recordset/actions/create.service.js:83-91 | The model is the form's defaults (type A, TTL 3600) plus the zone's id as `zoneId`, and nothing else. |
| RecordSetCreate.SubmitModel | designatedashboard/static/designatedashboard/resources/os-designate-recordset/actions/create.service.js:93-106 | Throws unless the records unwrap. Otherwise it yields the model's zoneId and a copy of the model with `zoneId` removed and the records unwrapped. Every other field is copied unchanged. |
| RecordSetCreate.SubmitSendsEnteredRecords | designatedashboard/static/designatedashboard/resources/os-designate-recordset/actions/create.service.js:83-106 | Any records entered, none null or undefined, are created in the performed zone as exactly those records, with type A and TTL 3600, and without the zone id. |
| RecordSetCreate.SubmitWithoutRecordsThrows | designatedashboard/static/designatedashboard/resources/os-designate-recordset/actions/create.service.js:100-102 | Submitting the form as it opened, with no records entered, throws. |
| RecordSetCreate.CreateAction.constructor | designatedashboard/static/designatedashboard/resources/os-designate-recordset/actions/create.service.js:61-67 | No policy check and no DNS check have been made yet. |
| RecordSetCreate.CreateAction.InitAction | designatedashboard/static/designatedashboard/resources/os-designate-recordset/actions/create.service.js:71-74 | Records the create_recordset policy outcome and whether the DNS service is enabled. |
| RecordSetCreate.CreateAction.Perform | designatedashboard/static/designatedashboard/resources/os-designate-recordset/actions/create.service.js:83-91 | Opens the create form titled "Create Record Set" on PerformModel of the zone. |
| RecordSetCreate.CreateAction.OnSubmit | designatedashboard/static/designatedashboard/resources/os-designate-recordset/actions/create.service.js:93-107 | A request exists if and only if SubmitModel succeeds. It then POSTs the submitted copy to the model's zone. |
| RecordSetCreate.Finish | designatedashboard/static/designatedashboard/resources/os-designate-recordset/actions/create.service.js:106-126 | A rejected create reaches `onFailure`. A reply without `data` crashes. For object data, the toast names the record set and the result reports its id as created. |
| RecordSetCreate.CreateAction.Allowed | designatedashboard/static/designatedashboard/resources/os-designate-recordset/actions/create.service.js:76-81 | Creating a record set is allowed exactly when neither the create policy nor the DNS service check has failed. The zone is not consulted. |
| RecordSetUpdate.PerformModel | designatedashboard/static/designatedashboard/resources/os-designate-recordset/actions/update.service.js:100-116 | Fails if and only if the item's records are present but not an array. Otherwise the model has:<br>- the item's id and zone_id (as `zoneId`);<br>- the records, wrapped as `{record}` objects, exactly when the item has them;<br>- otherwise only the truthy values of form keys, copied. |
| RecordSetUpdate.SubmitUneditedRestoresRecords | designatedashboard/static/designatedashboard/resources/os-designate-recordset/actions/update.service.js:100-133 | Submitting the form that `perform` built, unedited, sends the item's own records to the item's own zone and id. An item without records sends none. |
| RecordSetUpdate.UpdateAction.constructor | designatedashboard/static/designatedashboard/resources/os-designate-recordset/actions/update.service.js:65-71 | No policy check has been made yet. |
| RecordSetUpdate.UpdateAction.InitAction | designatedashboard/static/designatedashboard/resources/os-designate-recordset/actions/update.service.js:75-77 | Records the update_recordset policy outcome. |
| RecordSetUpdate.UpdateAction.Perform | designatedashboard/static/designatedashboard/resources/os-designate-recordset/actions/update.service.js:100-118 | Opens the titled update form on PerformModel if and only if that succeeds. |
| RecordSetUpdate.UpdateAction.OnSubmit | designatedashboard/static/designatedashboard/resources/os-designate-recordset/actions/update.service.js:120-134 | A request exists if and only if unwrapping the records succeeds. It then sends the unwrapped copy as a PUT to the model's zoneId and id. |
| RecordSetUpdate.SubmitModel | designatedashboard/static/designatedashboard/resources/os-designate-recordset/actions/update.service.js:120-130 | Submitting throws exactly when `records` is present and cannot be unwrapped. Otherwise the payload has the model's keys, every other field unchanged, and the records unwrapped. |
| RecordSetUpdate.Finish | designatedashboard/static/designatedashboard/resources/os-designate-recordset/actions/update.service.js:133-153 | A rejected update reaches `onFailure`. A reply without `data` crashes. For object data, the toast names the record set and the result reports its id as updated. |
| RecordSetUpdate.UpdateAction.Allowed | designatedashboard/static/designatedashboard/resources/os-designate-recordset/actions/update.service.js:79-98 | No batch update is allowed. A row is allowed exactly when the policy has not failed, the status is neither DELETED nor PENDING, the type is editable, and it is not the apex NS record. |
| RecordSetForms.TypeChoices | designatedashboard/static/designatedashboard/resources/os-designate-recordset/actions/common-forms.service.js:112-117 | Gives one choice per editable type, in order, named by its typeMap label. |
| RecordSetForms.TypeChoicesLabelled | designatedashboard/static/designatedashboard/resources/os-designate-recordset/actions/common-forms.service.js:112-117 | Every choice has a label, because every editable type is in typeMap. |
| RecordSetForms.CreateUpdateFormConfig | designatedashboard/static/designatedashboard/resources/os-designate-recordset/actions/common-forms.service.js:69-162 | Details of the form:<br>- The type enum is the editable types, and the name must end in '.'.<br>- The TTL runs from 1 to 2147483647.<br>- At least one record is required, and records must be unique.<br>- The default model is type A with a TTL of 3600.<br>- There are five entries. Exactly type and name carry `readonly`, and it is the argument.<br>- The type select lists TypeChoices.<br>- The default model meets the schema. |
| RecordSetForms.CreateAndUpdateDifferOnlyInReadonly | designatedashboard/static/designatedashboard/resources/os-designate-recordset/actions/common-forms.service.js:50-64 | Create and update share the schema and model. Their entries differ only in the readonly flag of type and name. |
| RecordSetForms.ValidNameEndsInDot | designatedashboard/static/designatedashboard/resources/os-designate-recordset/actions/common-forms.service.js:76 | A name the schema accepts is a string of at least two characters ending in '.'. |
| RecordSetForms.CreateFormConfig | designatedashboard/static/designatedashboard/resources/os-designate-recordset/actions/common-forms.service.js:50-52 | The create form marks nothing read-only. |
| RecordSetForms.UpdateFormConfig | designatedashboard/static/designatedashboard/resources/os-designate-recordset/actions/common-forms.service.js:58-60 | The update form marks exactly type and name read-only. |
| RecordSetTypes.TypeKeys | designatedashboard/static/designatedashboard/resources/os-designate-recordset/os-designate-recordset.module.js:38-52 | Gives the typeMap keys in declaration order. |
| RecordSetTypes.TypeLabel | designatedashboard/static/designatedashboard/resources/os-designate-recordset/os-designate-recordset.module.js:38-52 | A label exists if and only if the key is a typeMap key, and it is that key's entry. |
| RecordSetTypes.LabelIn | designatedashboard/static/designatedashboard/resources/os-designate-recordset/os-designate-recordset.module.js:38-52 | The lookup finds a label if and only if the table has that key, and the label belongs to that key. |
| RecordSetTypes.ApexNsNotEditable | designatedashboard/static/designatedashboard/resources/os-designate-recordset/actions/update.service.js:93-98 | An NS record set is editable if and only if its name differs from its zone's name. |
| RecordSetTypes.EditableTypesAreLabelled | designatedashboard/static/designatedashboard/resources/os-designate-recordset/os-designate-recordset.module.js:38-67 | Every editable type has a label. SOA has a label but is not editable. |
| RecordSetTypes.TypeFacetOptions | designatedashboard/static/designatedashboard/resources/os-designate-recordset/os-designate-recordset.module.js:200-205 | Gives one facet option per typeMap key, in key order, with that key's label. |
| RecordSetTypes.ListData.constructor | designatedashboard/static/designatedashboard/resources/os-designate-recordset/os-designate-recordset.module.js:236 | The response data holds its record set array and no `items` yet. |
| RecordSetTypes.List | designatedashboard/static/designatedashboard/resources/os-designate-recordset/os-designate-recordset.module.js:235-244 | `items` becomes the same array as `recordsets` (aliased, not copied). Every element is stamped in place with its id and the current time. |
| RecordSetTypes.IsEditableType | designatedashboard/static/designatedashboard/resources/os-designate-recordset/os-designate-recordset.module.js:53-67 | A type is editable exactly when it is the string of one of the listed editable types. `indexOf` compares strictly, so nothing that is not a string qualifies. |
| RecordSetTypes.EditableRecordType | designatedashboard/static/designatedashboard/resources/os-designate-recordset/actions/delete.service.js:158-163 | An editable record set has a string type, and that type is never SOA. |
| RecordSetDetails.Split | designatedashboard/static/designatedashboard/resources/os-designate-recordset/details/details.module.js:85 | `split` always gives at least one piece. A string without the separator gives just itself. |
| RecordSetDetails.SplitAfter | designatedashboard/static/designatedashboard/resources/os-designate-recordset/details/details.module.js:85 | Splitting cuts at the first separator: a separator-free prefix becomes the first piece. |
| RecordSetDetails.PathGenerator | designatedashboard/static/designatedashboard/resources/os-designate-recordset/details/details.module.js:70-90 | The path is the zone id and the record set id joined by '/'. When neither id holds a '/', the parser gets exactly those two ids back. |
| RecordSetDetails.PathParser | designatedashboard/static/designatedashboard/resources/os-designate-recordset/details/details.module.js:84-90 | The zone id is the first '/'-piece. The record set id is the second piece, or `undefined` when there is none. |
| RecordSetDetails.LoadFunction | designatedashboard/static/designatedashboard/resources/os-designate-recordset/details/details.module.js:56-58 | The load function sends a GET, with no config, of `/api/dns/v2/zones/<zoneId>/recordsets/<recordSetId>/`, so the zone id comes first. |
| RecordSetDetails.PathRoundTrip | designatedashboard/static/designatedashboard/resources/os-designate-recordset/details/details.module.js:56-90 | For ids without '/', the details view of a record set loads that very record set. |
| RecordSetDetails.SlashInZoneIdBreaksRoundTrip | designatedashboard/static/designatedashboard/resources/os-designate-recordset/details/details.module.js:84-90 | A zone id containing '/' is cut at its own '/' by the parser. |
| ZoneOverview.AttributesString | designatedashboard/static/designatedashboard/resources/os-designate-zone/details/overview.controller.js:44-49 | No attributes give the empty string. |
| ZoneOverview.AttributesStringAppend | designatedashboard/static/designatedashboard/resources/os-designate-zone/details/overview.controller.js:47-49 | The loop runs from the last key to the first: the attributes of `a + b` show all of `b`'s segments before `a`'s. |
| ZoneOverview.AttributesStringLength | designatedashboard/static/designatedashboard/resources/os-designate-zone/details/overview.controller.js:47-49 | Each attribute contributes exactly one `key:value, ` segment. The length is the sum of the segment lengths. |
| ZoneOverview.OverviewController.constructor | designatedashboard/static/designatedashboard/resources/os-designate-zone/details/overview.controller.js:34-36 | The controller starts out showing an empty object. |
| ZoneOverview.OwnProperties | designatedashboard/static/designatedashboard/resources/os-designate-zone/details/overview.controller.js:45 | `Object.keys` of the attributes paired with their values. It throws (`None`) exactly on `null` and `undefined`. A string or an array gives its indices in decimal with the character or element. A number or boolean gives no keys. An object gives its properties in the order `Object.keys` gives, a parameter, each key once. |
| ZoneOverview.ScalarAttributesShowEmpty | designatedashboard/static/designatedashboard/resources/os-designate-zone/details/overview.controller.js:45-51 | Attributes that are a number or a boolean do not throw, and show as the empty string. |
| ZoneOverview.StringAttributesShown | designatedashboard/static/designatedashboard/resources/os-designate-zone/details/overview.controller.js:45-51 | The string attributes `"ab"` have keys `0` and `1`, and show as `1:b, 0:a, `. |
| ZoneOverview.OverviewController.OnGetResponse | designatedashboard/static/designatedashboard/resources/os-designate-zone/details/overview.controller.js:41-52 | The handler throws exactly when the data is not an object or its attributes are `null` or `undefined`. The raw data is then left showing. Otherwise the zone is shown with its attributes replaced by the display string of their own properties, for any kind of value. |
| Tables.RecordActionAllowed | designatedashboard/dashboards/project/dns_domains/tables.py:141-142 | Raises if and only if there is no record. Otherwise the action is allowed if and only if the record's type is one of the editable record types. |
| Tables.EditableRecordTypesRelation | designatedashboard/dashboards/project/dns_domains/tables.py:29-39 | The panel's editable types are exactly the resource's editable types without NS and CAA. NS and SOA rows can be neither edited nor deleted. |
| Tables.CreateDomainAllowed | designatedashboard/dashboards/project/dns_domains/tables.py:51-61 | A warning is added if and only if the policy passes, there is a table, and the quota cannot be read. With a known quota, the link shows if and only if the quota exceeds the row count. In every other case it shows. |
| Tables.CreateDomainHiddenOnlyAtQuota | designatedashboard/dashboards/project/dns_domains/tables.py:51-61 | The link is hidden if and only if the policy passes, a table exists and the known quota is at most the row count. |
| Tables.ActionPresent | designatedashboard/dashboards/project/dns_domains/tables.py:91-97 | The present-tense label of the delete actions: singular for one row, plural otherwise. |
| Tables.ActionPast | designatedashboard/dashboards/project/dns_domains/tables.py:99-105 | The past-tense label of the delete actions: singular for one row, plural otherwise. |
| Tables.RecordDeleteArguments | designatedashboard/dashboards/project/dns_domains/tables.py:166-168 | Raises KeyError('domain_id') if and only if the table's URL arguments lack it. Otherwise the call deletes the given record from that domain. |
| RestDesignate.WithTruthy | designatedashboard/api/rest/designate.py:48-49 | Adds the key, with its value from the data, if and only if the data holds a truthy value under it. Every other entry is kept. |
| RestDesignate.CreateZoneKwargs | designatedashboard/api/rest/designate.py:38-53 | Raises KeyError if and only if name, email or type is missing, naming the first missing one in that order. Otherwise the arguments are those three plus whichever of description, ttl and masters are truthy, each with the data's value. |
| RestDesignate.CreateZone | designatedashboard/api/rest/designate.py:38-56 | The arguments built step by step equal CreateZoneKwargs. |
| RestDesignate.UpdateZoneKwargs | designatedashboard/api/rest/designate.py:59-72 | Raises KeyError if and only if email, description or ttl is missing, naming the first missing one. Otherwise exactly those three are sent. |
| RestDesignate.CreateRecordSetKwargs | designatedashboard/api/rest/designate.py:119-136 | Raises KeyError if and only if name, type, ttl or records is missing, naming the first missing one. Otherwise the arguments are those four plus the description when truthy. |
| RestDesignate.CreateRecordSet | designatedashboard/api/rest/designate.py:119-136 | The arguments built step by step equal CreateRecordSetKwargs. |
| RestDesignate.UpdateRecordSetKwargs | designatedashboard/api/rest/designate.py:139-158 | The arguments are zone_id (from the URL) plus whichever of description, ttl and records are truthy, each with the data's value. |
| RestDesignate.UpdateRecordSet | designatedashboard/api/rest/designate.py:139-158 | The arguments built step by step equal UpdateRecordSetKwargs. |
| RestDesignate.UpdateFloatingIpKwargs | designatedashboard/api/rest/designate.py:226-243 | Raises KeyError('ptrdname') if and only if it is missing. Otherwise the arguments are ptrdname plus whichever of description and ttl are truthy. |
| RestDesignate.UpdateFloatingIp | designatedashboard/api/rest/designate.py:226-243 | The arguments built step by step equal UpdateFloatingIpKwargs. |
| RestDesignate.DashboardZoneUpdateAccepted | designatedashboard/api/rest/designate.py:59-72 | The dashboard's zone update is accepted by the view if and only if none of email, description and ttl is `undefined` in the form's model. An undefined field is dropped from the JSON body and then raises KeyError. |
| RestDesignate.UnsetClearsOnlyPtrName | designatedashboard/api/rest/designate.py:226-239 | The dashboard's unset sends only `ptrdname: null` on to the SDK. Its null description and TTL are falsy and are dropped. |
| RestDesignate.PopulateZoneId | designatedashboard/api/rest/designate.py:161-164 | Every listed item gets the URL's zone_id in place, just as a single fetched record set does. The same list is returned. |
| RestDesignate.SdkObjectToList | designatedashboard/api/rest/designate.py:26-35 | Gives one dictionary per SDK object, in order. |
| RestDesignate.GetRecordSet | designatedashboard/api/rest/designate.py:192-198 | The fetched record set with zone_id set to the URL's zone id. Every other key is kept. |
| Passthrough.VerifyFor | designatedashboard/api/rest/passthrough.py:39-41 | Verification is off if and only if OPENSTACK_SSL_NO_VERIFY is truthy. Otherwise it uses the CA bundle when set, and is unset exactly when no bundle is set. |
| Passthrough.ComputeVerify | designatedashboard/api/rest/passthrough.py:38-41 | The step-by-step computation equals VerifyFor. |
| Passthrough.GetServiceUrl | designatedashboard/api/rest/passthrough.py:78-87 | The catalog URL wins whenever the lookup succeeds. The DNS_URL setting is only the fallback. |
| Passthrough.RequestUrl | designatedashboard/api/rest/passthrough.py:44-47 | The service URL and the path are joined by exactly one added '/', or none when the service URL already ends in '/'. |
| Passthrough.RequestUrlIgnoresTrailingSlash | designatedashboard/api/rest/passthrough.py:44-47 | A service URL with or without a trailing slash gives the same request URL, and the path follows a single '/'. |
| Passthrough.ErrorFor | designatedashboard/api/rest/passthrough.py:61-64 | Picks the first error class whose status code matches and which derives directly from HorizonException. The result is None if and only if no class matches. |
| Passthrough.MapError | designatedashboard/api/rest/passthrough.py:57-65 | The loop raises the class ErrorFor picks, or re-raises the original error. |
| Passthrough.PassthroughRequest | designatedashboard/api/rest/passthrough.py:31-67 | Nothing is sent if and only if there is no service URL. Otherwise it sends to RequestUrl with VerifyFor and the body. A status below 400 is returned. An error status raises the mapped class or re-raises. |
| Passthrough.PairOf | designatedashboard/api/rest/passthrough.py:104 | An element that `dict` accepts from a list is a two-element list with a string key, or a two-character string. Either gives its key and value. Nothing else is accepted. |
| Passthrough.DictOfPairs | designatedashboard/api/rest/passthrough.py:104 | `dict` of a list succeeds exactly when every element is a pair. |
| Passthrough.DictOfPairsLastWins | designatedashboard/api/rest/passthrough.py:104 | The dict built from a list of pairs holds exactly the keys the pairs name. Each key's value comes from the last pair with that key. |
| Passthrough.Body | designatedashboard/api/rest/passthrough.py:102-115 | A falsy body becomes {}. A truthy object is copied. A truthy list becomes the dict its pairs build. Every other truthy body raises, and so does a list with an element that is not a pair. |
| Passthrough.PairBodies | designatedashboard/api/rest/passthrough.py:104 | `[["a", 1]]` gives `{"a": 1}` and `["ab"]` gives `{"a": "b"}`, while the body `"ab"` raises. |
| Passthrough.EndsWithSlash | designatedashboard/api/rest/passthrough.py:46 | The URL is non-empty and is its own prefix followed by '/'. |
| Passthrough.IsErrorStatus | designatedashboard/api/rest/passthrough.py:58 | `raise_for_status` raises exactly for 4xx and 5xx statuses. |
| DnsNames.DottedGroups | designatedashboard/dashboards/project/dns_domains/forms.py:38 | Any non-empty sequence of valid labels (1-63 label characters, no '-' at either end), each followed by '.', matches the repeated group. |
| DnsNames.GroupsDotted | designatedashboard/dashboards/project/dns_domains/forms.py:38 | Conversely, whatever matches the repeated group is such a dotted sequence of valid labels. |
| DnsNames.DomainNameIff | designatedashboard/dashboards/project/dns_domains/forms.py:38 | DOMAIN_NAME_REGEX accepts a string if and only if it is a non-empty dotted sequence of valid labels, shorter than 255 characters, optionally followed by one final newline. |
| DnsNames.StarGroups | designatedashboard/dashboards/project/dns_domains/forms.py:39 | The wildcard groups accept exactly the plain groups, or a leading `*.` followed by nothing or by plain groups. |
| DnsNames.GroupsChars | designatedashboard/dashboards/project/dns_domains/forms.py:38-39 | Every character of a match is a label character or '.', except a leading '*' where the wildcard is allowed. |
| DnsNames.GroupsEdges | designatedashboard/dashboards/project/dns_domains/forms.py:38-39 | A match has no empty label and no label starting or ending with '-'. It ends in '.'. |
| DnsNames.WildcardShape | designatedashboard/dashboards/project/dns_domains/forms.py:39 | A wildcard name has '*' at most in first place, and no label of it starts or ends with '-' or is empty. |
| DnsNames.MatchLength | designatedashboard/dashboards/project/dns_domains/forms.py:38-39 | Without a final newline, a match of either name pattern is shorter than 255 characters. |
| DnsNames.SrvGroup | designatedashboard/dashboards/project/dns_domains/forms.py:40 | A matched group starts with '_', ends with '.', and takes at least three characters. |
| DnsNames.SrvGroupOf | designatedashboard/dashboards/project/dns_domains/forms.py:40 | `_service.` with 1-62 label characters is taken whole, whatever follows. |
| DnsNames.SrvNameOf | designatedashboard/dashboards/project/dns_domains/forms.py:40 | SRV_NAME_REGEX accepts `_service._proto.` followed by anything. |
| DnsNames.SrvNameAnyTail | designatedashboard/dashboards/project/dns_domains/forms.py:40 | The SRV name pattern has no `$`, so extending an accepted name keeps it accepted. |
| DnsNames.PortField | designatedashboard/dashboards/project/dns_domains/forms.py:41 | A matched number-and-whitespace field takes at least two characters. |
| DnsNames.PortNumberOf | designatedashboard/dashboards/project/dns_domains/forms.py:41 | A number's decimal digits match the port alternatives if and only if the number is at most 65535. |
| DnsNames.PortFieldOf | designatedashboard/dashboards/project/dns_domains/forms.py:41 | The field "digits, then a space" matches, taking exactly those characters, if and only if the number is at most 65535. |
| DnsNames.SrvDataOf | designatedashboard/dashboards/project/dns_domains/forms.py:41 | SRV_DATA_REGEX accepts "first second target" if and only if both numbers are at most 65535 and the target is a domain name. |
| DnsNames.SshfpFingerprintLength | designatedashboard/dashboards/project/dns_domains/forms.py:42 | After a valid algorithm and fingerprint type, an all-hex fingerprint is accepted if and only if it has 5 to 40 or exactly 64 digits. |
| PyStr.Upper | designatedashboard/dashboards/project/dns_domains/forms.py:379 | `upper()` keeps the length and upper-cases each ASCII letter. |
| PyStr.Lower | designatedashboard/dashboards/project/dns_domains/views.py:231 | `lower()` keeps the length and lower-cases each ASCII letter. |
| PyStr.UpperLower | designatedashboard/dashboards/project/dns_domains/views.py:231 | On a string without lower-case letters (a record type name), upper-casing undoes lower-casing. |
| PyStr.RemoveAll | designatedashboard/dashboards/project/dns_domains/views.py:226 | `replace(pattern, '')` never lengthens the string. |
| PyStr.RemoveAllAbsent | designatedashboard/dashboards/project/dns_domains/views.py:226 | A string in which the pattern does not occur is left unchanged. |
| PyStr.RemoveAllKeepsPrefix | designatedashboard/dashboards/project/dns_domains/views.py:226 | A left part that no occurrence of the pattern starts in is kept as it is. |
| RecordForm.FipsStep | designatedashboard/dashboards/project/dns_domains/forms.py:391-395 | Raises KeyError('ip_addr') if and only if floating IP mode is on and `ip_addr` is missing. Otherwise in that mode `ip_addr` is gone. Only `ip_addr` and `data` change, and the errors are untouched. |
| RecordForm.NameStep | designatedashboard/dashboards/project/dns_domains/forms.py:397-417 | Raises KeyError('name') if and only if the name is missing. Only the name and its error change, and no error is removed. |
| RecordForm.DataStep | designatedashboard/dashboards/project/dns_domains/forms.py:418-444 | Raises KeyError('data') if and only if the data is missing for an A, AAAA, CNAME, MX, PTR or SRV record. The values are untouched. Only the data error changes, and no error is removed. |
| RecordForm.TxtStep | designatedashboard/dashboards/project/dns_domains/forms.py:446-460 | Raises KeyError('txt') if and only if `txt` is missing. Otherwise `txt` is popped. Only data and txt change, only the txt error changes, and no error is removed. |
| RecordForm.PriorityStep | designatedashboard/dashboards/project/dns_domains/forms.py:462-469 | Only the priority error may be added. |
| RecordForm.FinishStep | designatedashboard/dashboards/project/dns_domains/forms.py:471-476 | `id` becomes `record_id` with the same value, and `domain_name` is dropped. No other key changes. |
| RecordForm.RaisesOnlyOnMissingField | designatedashboard/dashboards/project/dns_domains/forms.py:381-478 | `clean` raises only KeyError, and only for a field it reads that is missing. On complete values it never raises. |
| RecordForm.ErrorsOnlyOnRecordFields | designatedashboard/dashboards/project/dns_domains/forms.py:381-478 | `clean` adds errors only to name, data, txt and priority, and never removes one. |
| RecordForm.CleanedKeys | designatedashboard/dashboards/project/dns_domains/forms.py:460-478 | A clean that does not raise leaves no txt, domain_name or id. The id is kept as record_id, and ip_addr is gone in floating IP mode. |
| RecordForm.BlankNameRule | designatedashboard/dashboards/project/dns_domains/forms.py:398-402 | A blank name is a required-field error for CNAME and SRV. It becomes the domain name for MX, A, AAAA, TXT and PTR. For any other type it stays blank with no error. |
| RecordForm.SrvNameRule | designatedashboard/dashboards/project/dns_domains/forms.py:404-408 | A non-blank SRV name is stored as name + domain exactly when it starts like `_service._proto.`. Otherwise it draws the SRV name error and is left as entered. |
| RecordForm.HostNameRule | designatedashboard/dashboards/project/dns_domains/forms.py:409-417 | Any other non-blank name is stored as `name.domain`. That has no error exactly when it matches the wildcard host name pattern, and otherwise draws the hostname error. |
| RecordForm.DataSeen | designatedashboard/dashboards/project/dns_domains/forms.py:392-395 | The data the data rules see is the floating IP choice for A and AAAA records in floating IP mode, and the data field otherwise. |
| RecordForm.DataRules | designatedashboard/dashboards/project/dns_domains/forms.py:419-444 | Blank data draws the required-field error exactly for A, AAAA, CNAME, MX and SRV. Non-blank data draws the type's own message exactly when it fails the type's check: IPv4, IPv6, host name for CNAME, MX and PTR, or SRV data. |
| RecordForm.TxtRules | designatedashboard/dashboards/project/dns_domains/forms.py:446-458 | TXT: a blank txt draws the required error and keeps the data; otherwise txt becomes the data. SSHFP: txt always becomes the data and must match the SSHFP pattern. Other types: data and the txt error are untouched. |
| RecordForm.PriorityRule | designatedashboard/dashboards/project/dns_domains/forms.py:462-469 | MX and SRV records draw the required error exactly when the priority is missing, '' or None. A priority of 0 never draws an error. |
| RecordForm.StarNameAccepted | designatedashboard/tests/test_sshfp_record_form.py:33-36 | A lone '*' name is accepted in any domain short enough. |
| RecordForm.LeadingDashRejected | designatedashboard/tests/test_sshfp_record_form.py:74-77 | A name starting with '-' is rejected in every domain. |
| RecordForm.TrailingDashRejected | designatedashboard/tests/test_sshfp_record_form.py:79-82 | A name ending with '-' is rejected in every domain. |
| RecordForm.InnerStarRejected | designatedashboard/tests/test_sshfp_record_form.py:84-87 | A '*' anywhere but first is rejected in every domain. |
| RecordForm.OtherCharRejected | designatedashboard/tests/test_ptr_record_form.py:43-46 | A character other than a label character, '.' or '*' is rejected in every domain. |
| RecordForm.NameMaxLength | designatedashboard/dashboards/project/dns_domains/forms.py:340-343 | The limit is at most 63, and the name plus the domain suffix fit in 255 characters. The limit is 63, or else the two together are exactly 255. |
| RecordForm.LongestNameRejected | designatedashboard/dashboards/project/dns_domains/forms.py:340-343 | When the domain lowers the limit, a name of exactly the limit makes a 255-character host name, which the hostname rule rejects. |
| RecordForm.CleanType | designatedashboard/dashboards/project/dns_domains/forms.py:377-379 | The cleaned type has no lower-case letter and lower-cases to the same string as the chosen value. |
| RecordForm.ChoicesCleanToEditableTypes | designatedashboard/dashboards/project/dns_domains/forms.py:223-233 | After `clean_type`, the form's nine choices are the panel's editable record types in the same order. |
| RecordForm.ChoicesFor | designatedashboard/dashboards/project/dns_domains/forms.py:533-535 | Keeps exactly the choices whose value is the given one, in order. |
| RecordForm.UpdateFormFields | designatedashboard/dashboards/project/dns_domains/forms.py:514-535 | The choices are exactly those for the record's own type, among the form's choices plus NS and SOA when the type field holds ns or soa. The type is always read-only. Name, data, description and ttl are locked exactly for ns or soa. |
| RecordForm.UpdateChoicesAreOwnType | designatedashboard/dashboards/project/dns_domains/forms.py:514-535 | An editable record's update form offers its own type. An NS or SOA record's form offers a choice exactly when the type field holds ns or soa. |
| RecordForm.HandleUpdate | designatedashboard/dashboards/project/dns_domains/forms.py:538-549 | Raises KeyError('type') if and only if the type is missing. It skips the update exactly for SOA and NS, and otherwise sends the cleaned values unchanged. |
| RecordForm.SoaAndNsNeverUpdated | designatedashboard/dashboards/project/dns_domains/forms.py:377-379 | The ns and soa choices are upper-cased by `clean_type`, so such a record is never sent to the update call. |
| RecordForm.RecordForm.constructor | designatedashboard/dashboards/project/dns_domains/forms.py:337-351 | The name widget shows "." + domain, the name limit is NameMaxLength, and the ip_addr field is kept exactly in floating IP mode. |
| RecordForm.RecordForm.AddFieldError | designatedashboard/dashboards/project/dns_domains/forms.py:484-486 | The field's error is set to the message, replacing any earlier one. Nothing else changes. |
| RecordForm.RecordForm.AddRequiredFieldError | designatedashboard/dashboards/project/dns_domains/forms.py:480-482 | The field's error is set to "This field is required". Nothing else changes. |
| RecordForm.RecordForm.Clean | designatedashboard/dashboards/project/dns_domains/forms.py:381-478 | The cleaned values and errors are rewritten in place to CleanRun's. The result is the cleaned values, or the KeyError CleanRun raised. |
| RecordForm.RecordForm.CleanFips | designatedashboard/dashboards/project/dns_domains/forms.py:391-395 | The in-place floating IP block ends in the state FipsStep describes. |
| RecordForm.RecordForm.CleanName | designatedashboard/dashboards/project/dns_domains/forms.py:397-417 | The in-place name block ends in the state NameStep describes. |
| RecordForm.RecordForm.CleanData | designatedashboard/dashboards/project/dns_domains/forms.py:418-444 | The in-place data block ends in the state DataStep describes. |
| RecordForm.RecordForm.CleanTxt | designatedashboard/dashboards/project/dns_domains/forms.py:446-460 | The in-place TXT/SSHFP block ends in the state TxtStep describes. |
| RecordForm.IsFieldBlank | designatedashboard/dashboards/project/dns_domains/forms.py:488-490 | A missing field is never blank. A string field is blank exactly when it is empty, and `None`, `False`, 0 and `[]` are blank too. |
| RecordForm.CleanRun | designatedashboard/dashboards/project/dns_domains/forms.py:381-478 | A missing `type` raises KeyError('type'). Otherwise a missing `domain_name` raises KeyError('domain_name'). In floating IP mode a missing `ip_addr` raises. A run that does not raise had both keys, and drops `domain_name`. |
| RecordViews.BaseInitial | designatedashboard/dashboards/project/dns_domains/views.py:150-157 | The initial values hold the domain's id and name. They hold fips and instances exactly in floating IP mode, and nothing else. |
| RecordViews.InitialNameAsWritten | designatedashboard/dashboards/project/dns_domains/views.py:226 | `replace` never lengthens the name. |
| RecordViews.UpdateInitialFields | designatedashboard/dashboards/project/dns_domains/views.py:220-237 | The update view keeps the base values and adds: the record's id; its name with every "." + domain removed; the lower-cased type; its data as both data and txt. ip_addr is present exactly in floating IP mode, and then holds the data. |
| RecordViews.InitialTypeRoundTrip | designatedashboard/dashboards/project/dns_domains/views.py:231 | An editable record's lower-cased type is among the form's choices, and `clean_type` turns it back into the record's type. |
| RecordViews.StoreName | designatedashboard/dashboards/project/dns_domains/forms.py:397-417 | The name rules always leave a string name and never raise on a present name. |
| RecordViews.SrvStore | designatedashboard/dashboards/project/dns_domains/forms.py:404-408 | An accepted SRV name is stored with the domain appended and no error. A rejected one draws the SRV name error. |
| RecordViews.SrvNameNotRestoredAsWritten | designatedashboard/dashboards/project/dns_domains/views.py:226 | As written, an SRV name `_service._proto.` comes back without its final dot. Saving the unchanged update form then fails with "Enter a valid SRV name". |
| RecordViews.ApexNameNotRestoredAsWritten | designatedashboard/dashboards/project/dns_domains/views.py:226 | As written, a blank-named MX record comes back named after the domain itself. Saving the unchanged update form then builds an invalid host name. |
| RecordViews.InnerDomainRemovedAsWritten | designatedashboard/dashboards/project/dns_domains/views.py:226 | As written, an inner occurrence of the domain name is removed too, and saving the unchanged form renames the record. |
| RecordViews.InitialName | designatedashboard/dashboards/project/dns_domains/views.py:226 | The corrected initial name is never longer than the stored one. |
| RecordViews.InitialNameRoundTrip | designatedashboard/dashboards/project/dns_domains/views.py:226 | For every name the name rules accept, the corrected initial name stores the very same name again, with no error, when saved unchanged. |
| RecordViews.RecordFormView.constructor | designatedashboard/dashboards/project/dns_domains/views.py:150-157 | The view starts with no domain and no record fetched. |
| RecordViews.RecordFormView.GetInitial | designatedashboard/dashboards/project/dns_domains/views.py:150-157 | Remembers the fetched domain and returns BaseInitial for it. |
| RecordViews.RecordFormView.GetUpdateInitial | designatedashboard/dashboards/project/dns_domains/views.py:220-237 | Remembers the fetched domain and record, and returns the update view's initial values for them. |
| RecordViews.RecordValues | designatedashboard/dashboards/project/dns_domains/views.py:224-233 | The record's own values sit under exactly eight keys, none of which the base view or the floating IP update uses. |
| RecordViews.UpdateInitial | designatedashboard/dashboards/project/dns_domains/views.py:220-237 | The initial keys are the base view's keys, the record's eight keys, and `ip_addr` exactly in floating IP mode. |

## Left out

- HTTP, the Keystone service catalog and the OpenStack SDK calls are not performed. Their outcomes (`Http.Reply`, the catalog lookup raising or not, the SDK's returned objects) are parameters.
- Promises are not modelled as concurrency. `$q.all` and `allSettled` become a settled list of booleans and a pure partition of it.
- Toasts, wait spinners and redirects are entries of an event log. The delete confirmation modal is an oracle returning cancel or the ids it failed.
- The zone and record-set delete API `.catch` handlers also fulfil on failure, so the modal counts a failed delete as passed. The modal is an oracle here, so the model does not capture this.
- Loose `==` in the record-set delete `editableRecordType` is modelled as strict equality, as in the update service. The two differ only for non-string types, which the API does not return.
- Numbers are integers. Floating point, NaN and JavaScript number-to-string formatting are not modelled.
- Case mapping (`lower()`, `toLowerCase`) and `\s` cover ASCII only. Unicode case folding and Unicode whitespace are not modelled.
- `JSON.stringify` and `angular.copy` are modelled on the values the actions pass them. Object aliasing beyond the one copy each action makes is not modelled.
- The Django IPv4/IPv6 validators are abstract predicates passed in as parameters.
- The schema validator's check of the zone email against the `email` format is an abstract predicate passed in as a parameter. The model states only that the email must satisfy it as well as the pattern.
- Django form machinery is not modelled: field classes, widget attributes, `max_length` enforcement itself, `handle_exc`, `exceptions.handle`, `messages` and redirects.
- `RecordForm.populate_ip_addr_choices` and `_generate_fip_list` are not modelled; the floating-IP and instance lists are inputs.
- Failures of `get_domain` and `get_record` in the views are not modelled; the fetched domain and record are inputs.
- `RecordCreate.handle` and the record create/update API calls are not modelled. Only the update form's SOA/NS short-circuit is.
- The quota lookup and `DataTable` wiring behind `CreateDomain.allowed` are inputs: the policy result, whether a table exists, the quota result or its exception, and the row count.
- Resource registry, route and module registration have no behaviour and are not modelled.
- Settings (`OPENSTACK_SSL_CACERT`, `OPENSTACK_SSL_NO_VERIFY`, `<SERVICE>_URL`, floating-IP mode) and `Date.now()` are parameters. `gettext`, `ngettext` and `interpolate` are the identity or a choice between the two forms.
- RecordSetTypes.List: only the `then` handler is modelled. When the listing request fails, `recordSetApi.list`'s `.catch` fulfils with `undefined` and `onList` throws reading `response.data`; that path is left out, as for the actions' `onSuccess` in the first finding below.
- Passthrough.Body: a list element that is a pair with a non-string key (kept by `dict`, then written as a string by the JSON encoder), or a two-key object used as a pair, is modelled as raising. Bodies are JSON objects with string keys, so neither can be represented.

## Findings

| source | as written | input that shows it | evidently intended | confidence | as-written member | corrected member |
|---|---|---|---|---|---|---|
| designatedashboard/static/designatedashboard/resources/os-designate-zone/api.service.js:138-150 | Each API `.catch` shows a toast and returns nothing, so the promise fulfils with `undefined` after a failed call. The action's `onSuccess` then reads `response.data` of `undefined`, and the floating-IP unset reports success. | any failed reply, e.g. the update of a zone that no longer exists | The handler rethrows after the toast, so the action's `onFailure` runs | not executed | FormActions.FailureCrashesAsWritten | FormActions.FailureReachesOnFailureWhenRethrown |
| designatedashboard/static/designatedashboard/resources/os-designate-zone/actions/update.service.js:98-103 | `perform` stores the wrapped masters on `formConfig.masters`, while the model keeps the plain address strings. `onSubmit` then reads `.address` of each string. | a SECONDARY zone with masters `["10.0.0.1"]`, submitted unedited | The wrapped masters go on `formConfig.model.masters`, so unwrapping gives back the zone's masters | not executed | ZoneUpdate.MastersLostAsWritten | ZoneUpdate.MastersRoundTripCorrected |
| designatedashboard/dashboards/project/dns_domains/views.py:226 | The initial name removes every `"." + domain_name` from the stored name. This does not undo `clean`, which appends the domain without a dot for SRV and stores a blank name as the domain itself. | SRV name `_sip._tcp.` in `example.com.`, or a blank MX name | The initial name is what the user entered, so saving the unchanged form stores the same name | not executed | RecordViews.SrvNameNotRestoredAsWritten | RecordViews.InitialNameRoundTrip |
