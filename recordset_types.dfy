/**
 * The record set resource's constant tables (its resource type name, the
 * record type labels and the record types the dashboard may edit), the
 * options of the type filter facet, and the list function the resource
 * registry calls.
 */
module RecordSetTypes {
  import opened Json
  import Util

  const ResourceType: string := "OS::Designate::RecordSet"

  /** `typeMap`: record type to label, in declaration order. */
  const TypeMap: seq<(string, string)> := [
    ("A", "A - Address record"),
    ("AAAA", "AAAA - IPv6 address record"),
    ("CNAME", "CNAME - Canonical name record"),
    ("MX", "MX - Mail exchange record"),
    ("PTR", "PTR - Pointer record"),
    ("SPF", "SPF - Sender Policy Framework"),
    ("SRV", "SRV - Service locator"),
    ("SSHFP", "SSHFP - SSH Public Key Fingerprint"),
    ("TXT", "TXT - Text record"),
    ("SOA", "SOA - Start of authority record"),
    ("NS", "NS - Name server"),
    ("CAA", "CAA - Certificate Authority Authorization record")
  ]

  /** `editableTypes` */
  const EditableTypes: seq<string> := ["A", "AAAA", "CNAME", "MX", "NS", "PTR", "SPF", "SRV", "SSHFP", "TXT", "CAA"]

  /** `Object.keys(typeMap)`, in insertion order. */
  function TypeKeys(): (keys: seq<string>)
    ensures |keys| == |TypeMap|
    ensures forall i :: 0 <= i < |TypeMap| ==> keys[i] == TypeMap[i].0
  {
    seq(|TypeMap|, i requires 0 <= i < |TypeMap| => TypeMap[i].0)
  }

  /** `typeMap[key]`, or `None` where JavaScript yields `undefined`. */
  function TypeLabel(key: string): (found: Option<string>)
    ensures found.Some? <==> key in TypeKeys()
    ensures found.Some? ==> exists i :: 0 <= i < |TypeMap| && TypeMap[i] == (key, found.value)
  {
    LabelIn(TypeMap, key)
  }

  function LabelIn(table: seq<(string, string)>, key: string): (found: Option<string>)
    ensures found.Some? <==> exists i :: 0 <= i < |table| && table[i].0 == key
    ensures found.Some? ==> exists i :: 0 <= i < |table| && table[i] == (key, found.value)
  {
    if table == [] then None
    else if table[0].0 == key then Some(table[0].1)
    else
      var rest := LabelIn(table[1..], key);
      assert forall i :: 0 < i < |table| ==> table[1..][i - 1] == table[i];
      rest
  }

  /** `editableTypes.indexOf(type) > -1`: `indexOf` compares strictly, so
      only a string naming an editable type qualifies. */
  predicate IsEditableType(recordType: Value)
    ensures IsEditableType(recordType) <==> exists i :: 0 <= i < |EditableTypes| && recordType == Str(EditableTypes[i])
  {
    recordType.Str? && recordType.s in EditableTypes
  }

  /** `editableRecordType(recordset)` of the delete and update actions: not
      the NS record at the zone apex, and of an editable type. The status
      is not consulted. */
  predicate EditableRecordType(recordset: Object)
    ensures EditableRecordType(recordset) ==> Get(recordset, "type").Str? && Get(recordset, "type") != Str("SOA")
  {
    !(Get(recordset, "type") == Str("NS") && Get(recordset, "name") == Get(recordset, "zone_name"))
    && IsEditableType(Get(recordset, "type"))
  }

  /** The apex NS record is not editable even though NS records are. */
  lemma ApexNsNotEditable(recordset: Object)
    requires Get(recordset, "type") == Str("NS")
    ensures EditableRecordType(recordset) <==> Get(recordset, "name") != Get(recordset, "zone_name")
  {
    assert EditableTypes[4] == "NS";
  }

  /** Every editable type is a key of typeMap; SOA is a key but is not editable. */
  lemma EditableTypesAreLabelled()
    ensures forall t :: t in EditableTypes ==> t in TypeKeys()
    ensures "SOA" in TypeKeys() && "SOA" !in EditableTypes
  {
    var keys := TypeKeys();
    assert keys[0] == "A" && keys[1] == "AAAA" && keys[2] == "CNAME" && keys[3] == "MX";
    assert keys[4] == "PTR" && keys[5] == "SPF" && keys[6] == "SRV" && keys[7] == "SSHFP";
    assert keys[8] == "TXT" && keys[9] == "SOA" && keys[10] == "NS" && keys[11] == "CAA";
  }

  datatype FacetOption = FacetOption(text: string, key: string)

  /** The options of the 'Type' filter facet: one per typeMap key, in key
      order, labelled by typeMap. */
  function TypeFacetOptions(): (options: seq<FacetOption>)
    ensures |options| == |TypeMap|
    ensures forall i :: 0 <= i < |options| ==> options[i] == FacetOption(TypeMap[i].1, TypeKeys()[i])
  {
    var keys := TypeKeys();
    seq(|keys|, i requires 0 <= i < |keys| => FacetOption(TypeMap[i].1, keys[i]))
  }

  /** The `data` of the response a record set listing receives; `items` is
      absent (`None`) until `list` sets it. */
  class ListData {
    var recordsets: array<Object>
    var items: Option<array<Object>>

    constructor (recordsets: array<Object>)
      ensures this.recordsets == recordsets && items == None
    {
      this.recordsets := recordsets;
      items := None;
    }
  }

  /**
   * The `then` handler of `list(params)`, given the response data and the
   * time `Date.now()` reads: `items` becomes the very array `recordsets`
   * holds, and every record set in it is stamped with the default id field
   * and the current time.
   */
  method List(data: ListData, now: int)
    modifies data, data.recordsets
    ensures data.recordsets == old(data.recordsets)
    ensures data.items == Some(data.recordsets)
    ensures forall i :: 0 <= i < data.recordsets.Length ==>
      data.recordsets[i] == Util.Stamped(old(data.recordsets[i]), Undefined, Undefined, now)
  {
    data.items := Some(data.recordsets);
    Util.AddTimestampIds(data.items.value, Undefined, Undefined, now);
  }
}
