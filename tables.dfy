/**
 * The Django panel's tables of domains and records: which records the
 * row actions may edit or delete, when the "Create Domain" link is shown,
 * the pluralised labels of the delete actions, and where a record delete
 * takes its domain from.
 */
module Tables {
  import opened Json
  import I18n
  import RecordSetTypes

  /** `EDITABLE_RECORD_TYPES`: the record types the panel lets a user edit
      or delete. */
  const EditableRecordTypes: seq<string> := ["A", "AAAA", "CNAME", "MX", "PTR", "SPF", "SRV", "SSHFP", "TXT"]

  /** `EditRecord.allowed` and `DeleteRecord.allowed`: the row's record is
      editable exactly when its type is in the table. `None` stands for the
      absent record (`record=None`), whose `.type` raises. */
  function RecordActionAllowed(recordType: Option<string>): (allowed: Option<bool>)
    ensures allowed.None? <==> recordType.None?
    ensures recordType.Some? ==> (allowed.value <==> recordType.value in EditableRecordTypes)
  {
    match recordType
    case None => None
    case Some(t) => Some(t in EditableRecordTypes)
  }

  /** The panel's editable types are the Angular panel's editable types
      without NS and CAA; in particular NS and SOA records can be neither
      edited nor deleted from a row. */
  lemma EditableRecordTypesRelation()
    ensures forall t :: t in EditableRecordTypes <==> t in RecordSetTypes.EditableTypes && t != "NS" && t != "CAA"
    ensures RecordActionAllowed(Some("NS")) == Some(false)
    ensures RecordActionAllowed(Some("SOA")) == Some(false)
  {
    var e := RecordSetTypes.EditableTypes;
    assert e[0] == "A" && e[1] == "AAAA" && e[2] == "CNAME" && e[3] == "MX" && e[4] == "NS" && e[5] == "PTR";
    assert e[6] == "SPF" && e[7] == "SRV" && e[8] == "SSHFP" && e[9] == "TXT" && e[10] == "CAA";
  }

  /** What `CreateDomain.allowed` decides, and whether it added the
      "quotas could not be retrieved" warning on the way. */
  datatype Decision = Decision(allowed: bool, warned: bool)

  /**
   * `CreateDomain.allowed`. `policyPasses` is the `get_quota` policy check,
   * `tableRows` the number of rows of the action's table (`None` when the
   * action has no table), and `domainQuota` the `domains` entry of the
   * quota fetch (`None` when fetching or reading it raises).
   */
  function CreateDomainAllowed(policyPasses: bool, tableRows: Option<nat>, domainQuota: Option<int>): (d: Decision)
    ensures d.warned <==> policyPasses && tableRows.Some? && domainQuota.None?
    ensures policyPasses && tableRows.Some? && domainQuota.Some? ==> (d.allowed <==> domainQuota.value > tableRows.value)
    ensures !(policyPasses && tableRows.Some? && domainQuota.Some?) ==> d.allowed
  {
    if policyPasses && tableRows.Some? then
      match domainQuota
      case Some(quota) => Decision(quota > tableRows.value, false)
      case None => Decision(true, true)
    else Decision(true, false)
  }

  /** The only case that hides the link is a known quota already used up. */
  lemma CreateDomainHiddenOnlyAtQuota(policyPasses: bool, tableRows: Option<nat>, domainQuota: Option<int>)
    ensures !CreateDomainAllowed(policyPasses, tableRows, domainQuota).allowed
            <==> policyPasses && tableRows.Some? && domainQuota.Some? && domainQuota.value <= tableRows.value
  {
  }

  /** The two kinds of row a delete action labels. */
  datatype Noun = Domain | Record

  /** `action_present` of `DeleteDomain`, `DeleteRecord` and `BatchDeleteRecord`. */
  function ActionPresent(noun: Noun, count: int): (text: string)
    ensures count == 1 ==> text == (if noun == Domain then "Delete Domain" else "Delete Record")
    ensures count != 1 ==> text == (if noun == Domain then "Delete Domains" else "Delete Records")
  {
    match noun
    case Domain => I18n.NGettext("Delete Domain", "Delete Domains", count)
    case Record => I18n.NGettext("Delete Record", "Delete Records", count)
  }

  /** `action_past` of `DeleteDomain`, `DeleteRecord` and `BatchDeleteRecord`. */
  function ActionPast(noun: Noun, count: int): (text: string)
    ensures count == 1 ==> text == (if noun == Domain then "Deleted Domain" else "Deleted Record")
    ensures count != 1 ==> text == (if noun == Domain then "Deleted Domains" else "Deleted Records")
  {
    match noun
    case Domain => I18n.NGettext("Deleted Domain", "Deleted Domains", count)
    case Record => I18n.NGettext("Deleted Record", "Deleted Records", count)
  }

  /** `DeleteRecord.delete` and `BatchDeleteRecord.action`: the arguments of
      `record_delete`, the domain id read from the table's URL arguments
      (a KeyError when absent) and the given record id. */
  function RecordDeleteArguments(tableKwargs: Object, recordId: Value): (r: PyResult<(Value, Value)>)
    ensures r.Ok? <==> "domain_id" in tableKwargs
    ensures r.Ok? ==> r.value == (tableKwargs["domain_id"], recordId)
    ensures r.KeyError? ==> r.key == "domain_id"
  {
    match PyIndex(tableKwargs, "domain_id")
    case Ok(domainId) => Ok((domainId, recordId))
    case KeyError(k) => KeyError(k)
  }
}
