/**
 * The Django record form views: the initial values `BaseRecordFormView`
 * and `UpdateRecordView` give the record form, and how the update view's
 * initial name relates to the name the form's `clean` stored.
 *
 * The domain and the record are what the view fetched from the API; the
 * fetches, and the floating IP and server lists, are parameters.
 */
module RecordViews {
  import opened Json
  import PyStr
  import DnsNames
  import RecordForm
  import Tables

  /** The fields of a fetched domain the views read. */
  datatype Domain = Domain(id: Value, name: string)

  /** The fields of a fetched record the update view reads. */
  datatype Record = Record(id: Value, name: string, data: string, priority: Value, ttl: Value,
                           recordType: string, description: Value)

  /** `BaseRecordFormView.get_initial`: the domain's id and name, and in
      floating IP mode the floating IP and server lists. */
  function BaseInitial(domain: Domain, fipsMode: bool, fips: Value, instances: Value): (initial: Object)
    ensures "domain_id" in initial && initial["domain_id"] == domain.id
    ensures "domain_name" in initial && initial["domain_name"] == Str(domain.name)
    ensures ("fips" in initial <==> fipsMode) && ("instances" in initial <==> fipsMode)
    ensures fipsMode ==> initial["fips"] == fips && initial["instances"] == instances
    ensures initial.Keys <= {"domain_id", "domain_name", "fips", "instances"}
  {
    var results := map["domain_id" := domain.id, "domain_name" := Str(domain.name)];
    if fipsMode then results["fips" := fips]["instances" := instances] else results
  }

  /** views.py line 226 as written: every occurrence of "." + the domain name removed
      from the stored record name. */
  function InitialNameAsWritten(recordName: string, domainName: string): (name: string)
    ensures |name| <= |recordName|
  {
    PyStr.RemoveAll(recordName, "." + domainName)
  }

  /** The dictionary `UpdateRecordView.get_initial` merges into the base
      values: the record's own fields, with the name given by views.py
      line 226 and the type lower-cased. */
  function RecordValues(record: Record, domainName: string): (values: Object)
    ensures values.Keys == {"id", "name", "data", "txt", "priority", "ttl", "type", "description"}
    ensures forall k :: k in {"domain_id", "domain_name", "fips", "instances", "ip_addr"} ==> k !in values
  {
    map["id" := record.id,
        "name" := Str(InitialNameAsWritten(record.name, domainName)),
        "data" := Str(record.data),
        "txt" := Str(record.data),
        "priority" := record.priority,
        "ttl" := record.ttl,
        "type" := Str(PyStr.Lower(record.recordType)),
        "description" := record.description]
  }

  /** `UpdateRecordView.get_initial`, built as the source builds it: the
      base values updated with the record's own, then `ip_addr` in floating
      IP mode. */
  function UpdateInitial(domain: Domain, record: Record, fipsMode: bool, fips: Value, instances: Value): (initial: Object)
    ensures initial.Keys == BaseInitial(domain, fipsMode, fips, instances).Keys
                            + {"id", "name", "data", "txt", "priority", "ttl", "type", "description"}
                            + (if fipsMode then {"ip_addr"} else {})
  {
    var initial := BaseInitial(domain, fipsMode, fips, instances) + RecordValues(record, domain.name);
    if fipsMode then initial + map["ip_addr" := Str(record.data)] else initial
  }

  /** The update form starts from the base values, with the record's id,
      its name without the domain suffix, its type lower-cased, and both
      data and txt set to the record's data; `ip_addr` is present exactly
      in floating IP mode, and is the record's data too. */
  lemma UpdateInitialFields(domain: Domain, record: Record, fipsMode: bool, fips: Value, instances: Value)
    ensures var initial := UpdateInitial(domain, record, fipsMode, fips, instances);
            "domain_id" in initial && initial["domain_id"] == domain.id
            && "domain_name" in initial && initial["domain_name"] == Str(domain.name)
            && ("fips" in initial <==> fipsMode) && ("instances" in initial <==> fipsMode)
            && (fipsMode ==> initial["fips"] == fips && initial["instances"] == instances)
            && "id" in initial && initial["id"] == record.id
            && "name" in initial && initial["name"] == Str(InitialNameAsWritten(record.name, domain.name))
            && "data" in initial && "txt" in initial && initial["data"] == initial["txt"] == Str(record.data)
            && "type" in initial && initial["type"] == Str(PyStr.Lower(record.recordType))
            && ("ip_addr" in initial <==> fipsMode)
            && (fipsMode ==> initial["ip_addr"] == Str(record.data))
  {
    var base := BaseInitial(domain, fipsMode, fips, instances);
    var values := RecordValues(record, domain.name);
    var merged := base + values;
    assert merged["domain_id"] == domain.id && merged["domain_name"] == Str(domain.name);
    assert "ip_addr" !in merged;
  }

  /** The lower-cased type of a record the panel may edit is one of the
      form's choices, and `clean_type` turns it back into the record's type. */
  lemma InitialTypeRoundTrip(recordType: string)
    requires recordType in Tables.EditableRecordTypes
    ensures exists c :: c in RecordForm.TypeChoices && c.0 == PyStr.Lower(recordType)
    ensures RecordForm.CleanType(PyStr.Lower(recordType)) == recordType
  {
    RecordForm.ChoicesCleanToEditableTypes();
    var i :| 0 <= i < |Tables.EditableRecordTypes| && Tables.EditableRecordTypes[i] == recordType;
    assert RecordForm.TypeChoices[i].0 == PyStr.Lower(recordType);
    assert RecordForm.TypeChoices[i] in RecordForm.TypeChoices;
  }

  /** What the form's name rules make of a name field value, starting from
      no errors. */
  function StoreName(name: string, domainName: string, recordType: string): (r: RecordForm.Run)
    ensures r.raised.None? && "name" in r.data && r.data["name"].Str?
  {
    RecordForm.NameStep(map["name" := Str(name)], map[], recordType, domainName)
  }

  /** The SRV name rule on a name field value: an accepted name is stored
      with the domain name appended, a rejected one draws the SRV name
      error. */
  lemma SrvStore(name: string, domainName: string)
    requires name != ""
    ensures DnsNames.SrvNamePrefix(name) ==>
              StoreName(name, domainName, "SRV") == RecordForm.Run(map["name" := Str(name + domainName)], map[], None)
    ensures !DnsNames.SrvNamePrefix(name) ==>
              StoreName(name, domainName, "SRV").errors == map["name" := RecordForm.SrvNameMessage]
  {
  }

  /** An SRV name entered as "_service._proto." (such as "_sip._tcp.") is
      stored as that name followed by the domain name, which views.py line 226 turns
      into "_service._proto": the trailing dot the SRV rules demand is gone,
      so saving the update form unchanged fails with "Enter a valid SRV
      name". This holds in every domain whose name does not start with '_',
      such as "example.com.". */
  lemma SrvNameNotRestoredAsWritten(service: string, proto: string, domainName: string)
    requires 1 <= |service| <= 62 && DnsNames.AllLabelChars(service)
    requires 1 <= |proto| <= 62 && DnsNames.AllLabelChars(proto)
    requires domainName != [] && domainName[0] != '_'
    ensures var entered := "_" + service + "._" + proto + ".";
            var first := StoreName(entered, domainName, "SRV");
            var initial := InitialNameAsWritten(first.data["name"].s, domainName);
            var again := StoreName(initial, domainName, "SRV");
            first.errors == map[] && first.data["name"] == Str(entered + domainName)
            && initial == "_" + service + "._" + proto
            && again.errors == map["name" := RecordForm.SrvNameMessage]
  {
    var entered := "_" + service + "._" + proto + ".";
    var kept := "_" + service + "._" + proto;
    assert entered == "_" + service + "._" + proto + "." + "";
    DnsNames.SrvNameOf(service, proto, "");
    SrvStore(entered, domainName);
    SrvSuffixRemoved(kept, |service| + 1, domainName);
    assert entered + domainName == kept + ("." + domainName);
    SrvStrippedRejected(service, proto);
    SrvStore(kept, domainName);
  }

  /** Removing "." + domain from `kept` followed by it leaves `kept`, when
      the only dot of `kept` is followed by '_' and the domain does not
      start with '_'. */
  lemma SrvSuffixRemoved(kept: string, dot: nat, domainName: string)
    requires dot + 1 < |kept| && kept[dot] == '.' && kept[dot + 1] == '_'
    requires forall i :: 0 <= i < |kept| && i != dot ==> kept[i] != '.'
    requires domainName != [] && domainName[0] != '_'
    ensures InitialNameAsWritten(kept + ("." + domainName), domainName) == kept
  {
    var pattern := "." + domainName;
    forall i | 0 <= i < |kept|
      ensures !PyStr.OccursAt(kept + pattern, pattern, i)
    {
      var window := (kept + pattern)[i..i + |pattern|];
      if i != dot {
        assert window[0] != pattern[0];
      } else {
        assert window[1] != pattern[1];
      }
    }
    PyStr.RemoveAllKeepsPrefix(kept, pattern, pattern);
    assert pattern[..|pattern|] == pattern && pattern[|pattern|..] == [];
    assert PyStr.RemoveAll(pattern, pattern) == [];
    assert kept + [] == kept;
  }

  /** "_service._proto" without its final dot is no SRV name. */
  lemma SrvStrippedRejected(service: string, proto: string)
    requires 1 <= |service| <= 62 && DnsNames.AllLabelChars(service)
    requires DnsNames.AllLabelChars(proto)
    ensures !DnsNames.SrvNamePrefix("_" + service + "._" + proto)
  {
    var kept := "_" + service + "._" + proto;
    var tail := "_" + proto;
    assert kept == "_" + service + "." + tail;
    DnsNames.SrvGroupOf(service, tail);
    assert kept[|service| + 2..] == tail;
    assert forall i :: 0 <= i < |tail| ==> tail[i] != '.' by {
      assert forall i :: 1 <= i < |tail| ==> tail[i] == proto[i - 1];
    }
    assert DnsNames.IndexOf(tail, '.') == |tail|;
  }

  /** An MX record with a blank name is stored under the domain name itself,
      which views.py line 226 leaves as it is (the pattern "." + domain is longer
      than it); saving the update form unchanged then builds
      "example.com..example.com.", which is not a host name. This holds for
      every domain name ending with a dot. */
  lemma ApexNameNotRestoredAsWritten(domainName: string)
    requires domainName != [] && domainName[|domainName| - 1] == '.'
    ensures var first := StoreName("", domainName, "MX");
            var initial := InitialNameAsWritten(first.data["name"].s, domainName);
            var again := StoreName(initial, domainName, "MX");
            first.errors == map[] && first.data["name"] == Str(domainName)
            && initial == domainName
            && again.errors == map["name" := RecordForm.HostnameMessage]
  {
    var full := domainName + "." + domainName;
    assert full[|domainName| - 1] == '.' && full[|domainName|] == '.';
    if DnsNames.WildcardDomainName(full) {
      DnsNames.WildcardShape(full);
    }
  }

  /** A name that holds the domain name as an inner part loses that part
      too: in domain "a.com." the name entered as "x.a.com.b" is stored as
      "x.a.com.b.a.com.", views.py line 226 makes it "xb", and saving the update form
      unchanged renames the record to "xb.a.com.". */
  lemma InnerDomainRemovedAsWritten()
    ensures var stored := "x.a.com.b" + "." + "a.com.";
            var initial := InitialNameAsWritten(stored, "a.com.");
            var again := StoreName(initial, "a.com.", "A");
            initial == "xb"
            && again.data["name"] == Str("xb.a.com.")
            && again.data["name"] != Str(stored)
  {
    InnerDomainRemoval();
    OtherStore("xb", "a.com.", "A");
    assert |"xb" + "." + "a.com."| != |"x.a.com.b" + "." + "a.com."|;
  }

  /** Outside SRV, a non-blank name is stored with "." and the domain name appended. */
  lemma OtherStore(name: string, domainName: string, recordType: string)
    requires name != "" && recordType != "SRV"
    ensures StoreName(name, domainName, recordType).data["name"] == Str(name + "." + domainName)
  {
  }

  lemma InnerDomainRemoval()
    ensures PyStr.RemoveAll("x.a.com.b" + "." + "a.com.", "." + "a.com.") == "xb"
  {
    var pattern := "." + "a.com.";
    var tail := "b" + pattern;
    var rest := pattern + tail;
    var stored := "x" + rest;
    assert "x.a.com.b" + "." + "a.com." == stored;
    assert pattern[..|pattern|] == pattern && pattern[|pattern|..] == [];
    assert PyStr.RemoveAll(pattern, pattern) == [];
    assert tail[..7][0] != pattern[0] && tail[1..] == pattern;
    assert PyStr.RemoveAll(tail, pattern) == "b";
    assert rest[..7] == pattern && rest[7..] == tail;
    assert PyStr.RemoveAll(rest, pattern) == "b";
    assert stored[..7][0] != pattern[0] && stored[1..] == rest;
    assert PyStr.RemoveAll(stored, pattern) == "x" + "b";
  }

  /**
   * The initial name that inverts the form's name rules: an SRV name loses
   * the domain name it was given, a name equal to the domain name (the
   * blank name of an MX, A, AAAA, TXT or PTR record) becomes blank again,
   * and any other name loses the "." + domain suffix once, at the end.
   */
  function InitialName(recordName: string, domainName: string, recordType: string): (name: string)
    ensures |name| <= |recordName|
  {
    if recordType == "SRV" then
      if PyStr.EndsWith(recordName, domainName) then recordName[..|recordName| - |domainName|] else recordName
    else if recordName == domainName then ""
    else if PyStr.EndsWith(recordName, "." + domainName) then recordName[..|recordName| - |domainName| - 1]
    else recordName
  }

  /** Every name the form's name rules accept comes back from the stored
      name through `InitialName`, and saving it unchanged stores the same
      name again with no error. */
  lemma InitialNameRoundTrip(name: string, domainName: string, recordType: string)
    requires "name" !in StoreName(name, domainName, recordType).errors
    ensures var first := StoreName(name, domainName, recordType);
            StoreName(InitialName(first.data["name"].s, domainName, recordType), domainName, recordType) == first
  {
    if name == "" {
      BlankRoundTrip(domainName, recordType);
    } else if recordType == "SRV" {
      SrvRoundTrip(name, domainName);
    } else {
      OtherRoundTrip(name, domainName, recordType);
    }
  }

  lemma BlankRoundTrip(domainName: string, recordType: string)
    requires "name" !in StoreName("", domainName, recordType).errors
    ensures var first := StoreName("", domainName, recordType);
            StoreName(InitialName(first.data["name"].s, domainName, recordType), domainName, recordType) == first
  {
    var first := StoreName("", domainName, recordType);
    var stored := first.data["name"].s;
    if recordType in RecordForm.DefaultNameTypes {
      assert stored == domainName;
    } else {
      assert stored == "";
    }
    assert InitialName(stored, domainName, recordType) == "";
  }

  lemma SrvRoundTrip(name: string, domainName: string)
    requires name != "" && "name" !in StoreName(name, domainName, "SRV").errors
    ensures var first := StoreName(name, domainName, "SRV");
            StoreName(InitialName(first.data["name"].s, domainName, "SRV"), domainName, "SRV") == first
  {
    SrvStore(name, domainName);
    var stored := name + domainName;
    assert stored[..|stored| - |domainName|] == name;
  }

  lemma OtherRoundTrip(name: string, domainName: string, recordType: string)
    requires name != "" && recordType != "SRV"
    ensures var first := StoreName(name, domainName, recordType);
            StoreName(InitialName(first.data["name"].s, domainName, recordType), domainName, recordType) == first
  {
    OtherStore(name, domainName, recordType);
    var stored := name + "." + domainName;
    assert stored[|stored| - |"." + domainName|..] == "." + domainName;
    assert stored[..|stored| - |domainName| - 1] == name;
  }

  /** The record form's view: the domain and record it fetched, and the
      floating IP setting. */
  class RecordFormView {
    var domain: Option<Domain>
    var record: Option<Record>
    const fipsMode: bool

    constructor (fipsMode: bool)
      ensures this.fipsMode == fipsMode && domain.None? && record.None?
    {
      this.fipsMode := fipsMode;
      domain := None;
      record := None;
    }

    /** `BaseRecordFormView.get_initial`, with the fetched domain. */
    method GetInitial(fetched: Domain, fips: Value, instances: Value) returns (results: Object)
      modifies this
      ensures domain == Some(fetched) && record == old(record)
      ensures results == BaseInitial(fetched, fipsMode, fips, instances)
    {
      domain := Some(fetched);
      results := map["domain_id" := fetched.id, "domain_name" := Str(fetched.name)];
      if fipsMode {
        results := results["fips" := fips]["instances" := instances];
      }
    }

    /** `UpdateRecordView.get_initial`, with the fetched domain and record. */
    method GetUpdateInitial(fetchedDomain: Domain, fetchedRecord: Record, fips: Value, instances: Value)
      returns (initial: Object)
      modifies this
      ensures domain == Some(fetchedDomain) && record == Some(fetchedRecord)
      ensures initial == UpdateInitial(fetchedDomain, fetchedRecord, fipsMode, fips, instances)
    {
      initial := GetInitial(fetchedDomain, fips, instances);
      record := Some(fetchedRecord);
      var domainName := initial["domain_name"].s;
      assert domainName == fetchedDomain.name;
      ghost var merged := BaseInitial(fetchedDomain, fipsMode, fips, instances) + RecordValues(fetchedRecord, fetchedDomain.name);
      initial := initial + RecordValues(fetchedRecord, domainName);
      assert initial == merged;
      if fipsMode {
        initial := initial + map["ip_addr" := Str(fetchedRecord.data)];
      }
    }
  }
}
