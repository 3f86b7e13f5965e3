/**
 * The Django record form (`RecordForm` and its `RecordUpdate` subclass):
 * the per-record-type rules its `clean` applies to the cleaned field values,
 * which add "required" or "invalid" errors to fields, append the domain
 * name to the record name, copy the data from the TXT field or from the
 * floating IP choice, and drop or rename keys before the values are handed
 * to the API.
 *
 * `clean` is specified by `CleanRun`, which composes one function per block
 * of the source (floating IP, name, data, TXT/SSHFP, priority, final keys);
 * the rules themselves are stated by the lemmas after it, and the class
 * `RecordForm` performs them in place on its `cleanedData` and `errors`.
 * The IPv4 and IPv6 validators are parameters.
 */
module RecordForm {
  import opened Json
  import opened DnsNames
  import PyStr
  import Tables

  /** `NAME_MAX_LENGTH`, the longest DNS label. */
  const NameMaxLabel: int := 63

  const RequiredMessage: string := "This field is required"
  const SrvNameMessage: string := "Enter a valid SRV name"
  const HostnameMessage: string := "Enter a valid hostname. The hostname should contain letters and numbers, and be no more than 63 characters."
  const Ipv4Message: string := "Enter a valid IPv4 address"
  const Ipv6Message: string := "Enter a valid IPv6 address"
  const DataHostnameMessage: string := "Enter a valid hostname"
  const SrvDataMessage: string := "Enter a valid SRV record"
  const SshfpMessage: string := "Enter a valid SSHFP record"

  /** The record types whose blank name is an error, and those whose blank
      name becomes the domain name. */
  const RequiredNameTypes: seq<string> := ["CNAME", "SRV"]
  const DefaultNameTypes: seq<string> := ["MX", "A", "AAAA", "TXT", "PTR"]
  /** The record types whose data may not be blank. */
  const RequiredDataTypes: seq<string> := ["A", "AAAA", "CNAME", "MX", "SRV"]
  /** The record types whose data must be a host name. */
  const HostnameDataTypes: seq<string> := ["CNAME", "MX", "PTR"]
  /** The record types that need a priority. */
  const PriorityTypes: seq<string> := ["MX", "SRV"]

  /** The form's errors: one message per field, a later one replacing an
      earlier one (`self._errors[field] = self.error_class([msg])`). */
  type Errors = map<string, string>

  /** The fields whose cleaned values are strings (character and choice
      fields). */
  const TextFields: set<string> := {"type", "domain_name", "name", "data", "txt", "ip_addr"}

  /** Django hands over every character and choice field's cleaned value
      as a string. */
  predicate TextValued(data: Object)
  {
    forall k | k in data && k in TextFields :: data[k].Str?
  }

  /** Every field `clean` reads is present: what Django leaves in
      `cleaned_data` when each field passed its own validation. */
  predicate Complete(data: Object, fipsMode: bool)
  {
    "type" in data && "domain_name" in data && "name" in data && "data" in data && "txt" in data
    && (fipsMode ==> "ip_addr" in data)
  }

  /** The two maps agree on every key outside `keys`. */
  ghost predicate SameExcept<V>(m1: map<string, V>, m2: map<string, V>, keys: set<string>)
  {
    forall k | k !in keys :: (k in m1 <==> k in m2) && (k in m1 ==> m1[k] == m2[k])
  }

  /** The entry for `key` is the same in both maps, or absent from both. */
  predicate Unchanged<V(==)>(m1: map<string, V>, m2: map<string, V>, key: string)
  {
    (key in m1 <==> key in m2) && (key in m1 ==> m1[key] == m2[key])
  }

  /** `_is_field_blank`: the field is present and falsy. */
  predicate IsFieldBlank(data: Object, field: string)
    ensures field !in data ==> !IsFieldBlank(data, field)
    ensures field in data && data[field].Str? ==> (IsFieldBlank(data, field) <==> data[field].s == "")
    ensures field in data && data[field] in {Null, Bool(false), Num(0), Arr([])} ==> IsFieldBlank(data, field)
  {
    field in data && !PyTruthy(data[field])
  }

  /** Where `clean` has got to: the cleaned values and errors so far, and
      the key whose lookup raised a KeyError, if one did. */
  datatype Run = Run(data: Object, errors: Errors, raised: Option<string>)

  /** forms.py lines 392-395: in floating IP mode `ip_addr` is popped, and an A or
      AAAA record takes it as its data. */
  function FipsStep(data: Object, errors: Errors, fipsMode: bool, recordType: string): (r: Run)
    requires TextValued(data)
    ensures TextValued(r.data) && r.errors == errors
    ensures r.raised.Some? <==> fipsMode && "ip_addr" !in data
    ensures r.raised.Some? ==> r.raised.value == "ip_addr" && r.data == data
    ensures SameExcept(r.data, data, {"ip_addr", "data"})
    ensures fipsMode && r.raised.None? ==> "ip_addr" !in r.data
    ensures "data" in data ==> "data" in r.data
  {
    if !fipsMode then Run(data, errors, None)
    else if "ip_addr" !in data then Run(data, errors, Some("ip_addr"))
    else
      var ipAddr := data["ip_addr"];
      var rest := data - {"ip_addr"};
      Run(if recordType in ["AAAA", "A"] then rest["data" := ipAddr] else rest, errors, None)
  }

  /** forms.py lines 397-417: the name rules. */
  function NameStep(data: Object, errors: Errors, recordType: string, domainName: string): (r: Run)
    requires TextValued(data)
    ensures TextValued(r.data)
    ensures r.raised.Some? <==> "name" !in data
    ensures r.raised.Some? ==> r.raised.value == "name" && r.data == data && r.errors == errors
    ensures SameExcept(r.data, data, {"name"}) && SameExcept(r.errors, errors, {"name"})
    ensures errors.Keys <= r.errors.Keys
    ensures "name" in data ==> "name" in r.data
  {
    if IsFieldBlank(data, "name") then
      if recordType in RequiredNameTypes then Run(data, errors["name" := RequiredMessage], None)
      else if recordType in DefaultNameTypes then Run(data["name" := Str(domainName)], errors, None)
      else Run(data, errors, None)
    else if "name" !in data then Run(data, errors, Some("name"))
    else
      var name := data["name"].s;
      if recordType == "SRV" then
        if !SrvNamePrefix(name) then Run(data, errors["name" := SrvNameMessage], None)
        else Run(data["name" := Str(name + domainName)], errors, None)
      else
        var full := name + "." + domainName;
        Run(data["name" := Str(full)], if WildcardDomainName(full) then errors else errors["name" := HostnameMessage], None)
  }

  /** forms.py lines 418-444: the data rules. */
  function DataStep(data: Object, errors: Errors, recordType: string,
                    isIpv4: string -> bool, isIpv6: string -> bool): (r: Run)
    requires TextValued(data)
    ensures r.data == data
    ensures r.raised.Some? <==> "data" !in data && recordType in ["A", "AAAA", "CNAME", "MX", "PTR", "SRV"]
    ensures r.raised.Some? ==> r.raised.value == "data" && r.errors == errors
    ensures SameExcept(r.errors, errors, {"data"}) && errors.Keys <= r.errors.Keys
  {
    if IsFieldBlank(data, "data") then
      Run(data, if recordType in RequiredDataTypes then errors["data" := RequiredMessage] else errors, None)
    else if recordType !in ["A", "AAAA", "CNAME", "MX", "PTR", "SRV"] then Run(data, errors, None)
    else if "data" !in data then Run(data, errors, Some("data"))
    else
      var value := data["data"].s;
      var valid := if recordType == "A" then isIpv4(value)
                   else if recordType == "AAAA" then isIpv6(value)
                   else if recordType in HostnameDataTypes then DomainName(value)
                   else SrvData(value);
      var message := if recordType == "A" then Ipv4Message
                     else if recordType == "AAAA" then Ipv6Message
                     else if recordType in HostnameDataTypes then DataHostnameMessage
                     else SrvDataMessage;
      Run(data, if valid then errors else errors["data" := message], None)
  }

  /** forms.py lines 446-460: the TXT rules, the SSHFP rules, then `txt` popped. */
  function TxtStep(data: Object, errors: Errors, recordType: string): (r: Run)
    requires TextValued(data)
    ensures TextValued(r.data)
    ensures r.raised.Some? <==> "txt" !in data
    ensures r.raised.Some? ==> r.raised.value == "txt"
    ensures r.raised.None? ==> "txt" !in r.data
    ensures SameExcept(r.data, data, {"data", "txt"}) && SameExcept(r.errors, errors, {"txt"})
    ensures errors.Keys <= r.errors.Keys
    ensures "data" in data && r.raised.None? ==> "data" in r.data
  {
    var afterTxt :=
      if IsFieldBlank(data, "txt") then
        Run(data, if recordType == "TXT" then errors["txt" := RequiredMessage] else errors, None)
      else if recordType != "TXT" then Run(data, errors, None)
      else if "txt" !in data then Run(data, errors, Some("txt"))
      else Run(data["data" := data["txt"]], errors, None);
    if afterTxt.raised.Some? then afterTxt
    else if "txt" !in afterTxt.data then Run(afterTxt.data, afterTxt.errors, Some("txt"))
    else
      var txt := afterTxt.data["txt"];
      var afterSshfp :=
        if recordType == "SSHFP" then
          Run(afterTxt.data["data" := txt],
              if SshfpData(txt.s) then afterTxt.errors else afterTxt.errors["txt" := SshfpMessage], None)
        else afterTxt;
      Run(afterSshfp.data - {"txt"}, afterSshfp.errors, None)
  }

  /** A priority that is missing, '' or None; 0 is a priority. */
  predicate PriorityMissing(data: Object)
  {
    "priority" !in data || data["priority"] == Str("") || data["priority"] == Null
  }

  /** forms.py lines 462-469: the priority rule. */
  function PriorityStep(data: Object, errors: Errors, recordType: string): (e: Errors)
    ensures SameExcept(e, errors, {"priority"}) && errors.Keys <= e.Keys
  {
    if PriorityMissing(data) && recordType in PriorityTypes then errors["priority" := RequiredMessage] else errors
  }

  /** forms.py lines 471-476: `id` renamed to `record_id`, and `domain_name` dropped. */
  function FinishStep(data: Object): (result: Object)
    ensures "id" !in result && "domain_name" !in result
    ensures "id" in data ==> "record_id" in result && result["record_id"] == data["id"]
    ensures SameExcept(result, data, {"id", "record_id", "domain_name"})
  {
    var renamed := if "id" in data then (data - {"id"})["record_id" := data["id"]] else data;
    renamed - {"domain_name"}
  }

  /** `clean()`, from the cleaned field values and the errors the fields
      left, in floating IP mode or not. */
  function CleanRun(cleanedData: Object, errors: Errors, fipsMode: bool,
                    isIpv4: string -> bool, isIpv6: string -> bool): (r: Run)
    requires TextValued(cleanedData)
    ensures "type" !in cleanedData ==> r.raised == Some("type")
    ensures "type" in cleanedData && "domain_name" !in cleanedData ==> r.raised == Some("domain_name")
    ensures fipsMode && "ip_addr" !in cleanedData ==> r.raised.Some?
    ensures r.raised.None? ==> "type" in cleanedData && "domain_name" in cleanedData && "domain_name" !in r.data
  {
    if "type" !in cleanedData then Run(cleanedData, errors, Some("type"))
    else if "domain_name" !in cleanedData then Run(cleanedData, errors, Some("domain_name"))
    else
      var recordType := cleanedData["type"].s;
      var domainName := cleanedData["domain_name"].s;
      var fips := FipsStep(cleanedData, errors, fipsMode, recordType);
      if fips.raised.Some? then fips
      else
        var named := NameStep(fips.data, fips.errors, recordType, domainName);
        if named.raised.Some? then named
        else
          var checked := DataStep(named.data, named.errors, recordType, isIpv4, isIpv6);
          if checked.raised.Some? then checked
          else
            var texts := TxtStep(checked.data, checked.errors, recordType);
            if texts.raised.Some? then texts
            else Run(FinishStep(texts.data), PriorityStep(texts.data, texts.errors, recordType), None)
  }

  /** `clean` raises only a KeyError, and only for a field `clean` reads
      that is missing from the cleaned values. */
  lemma RaisesOnlyOnMissingField(cleanedData: Object, errors: Errors, fipsMode: bool,
                                 isIpv4: string -> bool, isIpv6: string -> bool)
    requires TextValued(cleanedData)
    ensures var r := CleanRun(cleanedData, errors, fipsMode, isIpv4, isIpv6);
            r.raised.Some? ==> r.raised.value in TextFields && r.raised.value !in cleanedData
    ensures Complete(cleanedData, fipsMode) ==> CleanRun(cleanedData, errors, fipsMode, isIpv4, isIpv6).raised.None?
  {
  }

  /** `clean` adds errors to the name, data, txt and priority fields only,
      and never removes one. */
  lemma ErrorsOnlyOnRecordFields(cleanedData: Object, errors: Errors, fipsMode: bool,
                                 isIpv4: string -> bool, isIpv6: string -> bool)
    requires TextValued(cleanedData)
    ensures var r := CleanRun(cleanedData, errors, fipsMode, isIpv4, isIpv6);
            SameExcept(r.errors, errors, {"name", "data", "txt", "priority"})
            && errors.Keys <= r.errors.Keys
  {
    if "type" in cleanedData && "domain_name" in cleanedData {
      var recordType := cleanedData["type"].s;
      var fips := FipsStep(cleanedData, errors, fipsMode, recordType);
      var named := NameStep(fips.data, fips.errors, recordType, cleanedData["domain_name"].s);
      var checked := DataStep(named.data, named.errors, recordType, isIpv4, isIpv6);
      var texts := TxtStep(checked.data, checked.errors, recordType);
      var last := PriorityStep(texts.data, texts.errors, recordType);
      SameExceptGrows(named.errors, errors, {"name"}, {"name", "data", "txt", "priority"});
      SameExceptTrans(checked.errors, named.errors, errors, {"data"}, {"name"});
      SameExceptGrows(checked.errors, errors, {"data"} + {"name"}, {"name", "data", "txt", "priority"});
      SameExceptTrans(texts.errors, checked.errors, errors, {"txt"}, {"data"} + {"name"});
      SameExceptGrows(texts.errors, errors, {"txt"} + ({"data"} + {"name"}), {"name", "data", "txt", "priority"});
      SameExceptTrans(last, texts.errors, errors, {"priority"}, {"txt"} + ({"data"} + {"name"}));
      SameExceptGrows(last, errors, {"priority"} + ({"txt"} + ({"data"} + {"name"})), {"name", "data", "txt", "priority"});
    }
  }

  lemma SameExceptTrans<V>(a: map<string, V>, b: map<string, V>, c: map<string, V>, ab: set<string>, bc: set<string>)
    requires SameExcept(a, b, ab) && SameExcept(b, c, bc)
    ensures SameExcept(a, c, ab + bc)
  {
  }

  lemma SameExceptGrows<V>(a: map<string, V>, b: map<string, V>, small: set<string>, large: set<string>)
    requires SameExcept(a, b, small) && small <= large
    ensures SameExcept(a, b, large)
  {
  }

  /** The result of a clean that does not raise holds neither `txt`,
      `domain_name` nor `id`; `id` is carried over as `record_id`, and in
      floating IP mode `ip_addr` is gone too. */
  lemma CleanedKeys(cleanedData: Object, errors: Errors, fipsMode: bool,
                    isIpv4: string -> bool, isIpv6: string -> bool)
    requires TextValued(cleanedData)
    ensures var r := CleanRun(cleanedData, errors, fipsMode, isIpv4, isIpv6);
            r.raised.None? ==>
              "txt" !in r.data && "domain_name" !in r.data && "id" !in r.data
              && ("id" in cleanedData ==> "record_id" in r.data && r.data["record_id"] == cleanedData["id"])
              && (fipsMode ==> "ip_addr" !in r.data)
  {
    var r := CleanRun(cleanedData, errors, fipsMode, isIpv4, isIpv6);
    if r.raised.None? {
      var recordType := cleanedData["type"].s;
      var fips := FipsStep(cleanedData, errors, fipsMode, recordType);
      var named := NameStep(fips.data, fips.errors, recordType, cleanedData["domain_name"].s);
      var checked := DataStep(named.data, named.errors, recordType, isIpv4, isIpv6);
      var texts := TxtStep(checked.data, checked.errors, recordType);
      assert r.data == FinishStep(texts.data);
      if "id" in cleanedData {
        assert "id" in fips.data && fips.data["id"] == cleanedData["id"];
        assert "id" in texts.data && texts.data["id"] == cleanedData["id"];
      }
      if fipsMode {
        assert "ip_addr" !in texts.data;
      }
    }
  }

  /** forms.py lines 398-402: a blank name is an error for CNAME and SRV records,
      becomes the domain name for MX, A, AAAA, TXT and PTR records, and is
      left blank with no error for any other type. */
  lemma BlankNameRule(cleanedData: Object, errors: Errors, fipsMode: bool,
                      isIpv4: string -> bool, isIpv6: string -> bool)
    requires TextValued(cleanedData) && Complete(cleanedData, fipsMode)
    requires cleanedData["name"] == Str("")
    ensures var r := CleanRun(cleanedData, errors, fipsMode, isIpv4, isIpv6);
            var recordType := cleanedData["type"].s;
            r.raised.None? && "name" in r.data
            && (recordType in RequiredNameTypes ==> "name" in r.errors && r.errors["name"] == RequiredMessage && r.data["name"] == Str(""))
            && (recordType in DefaultNameTypes ==> Unchanged(r.errors, errors, "name") && r.data["name"] == cleanedData["domain_name"])
            && (recordType !in RequiredNameTypes + DefaultNameTypes ==> Unchanged(r.errors, errors, "name") && r.data["name"] == Str(""))
  {
    NameFromStep(cleanedData, errors, fipsMode, isIpv4, isIpv6);
  }

  /** forms.py lines 404-408: a non-blank SRV name that starts like `_service._proto.`
      gets the domain name appended directly; any other is an error and is
      left as entered. */
  lemma SrvNameRule(cleanedData: Object, errors: Errors, fipsMode: bool,
                    isIpv4: string -> bool, isIpv6: string -> bool)
    requires TextValued(cleanedData) && Complete(cleanedData, fipsMode)
    requires cleanedData["type"] == Str("SRV") && cleanedData["name"] != Str("")
    ensures var r := CleanRun(cleanedData, errors, fipsMode, isIpv4, isIpv6);
            var name := cleanedData["name"].s;
            r.raised.None? && "name" in r.data
            && (SrvNamePrefix(name) ==> Unchanged(r.errors, errors, "name") && r.data["name"] == Str(name + cleanedData["domain_name"].s))
            && (!SrvNamePrefix(name) ==> "name" in r.errors && r.errors["name"] == SrvNameMessage && r.data["name"] == Str(name))
  {
    NameFromStep(cleanedData, errors, fipsMode, isIpv4, isIpv6);
  }

  /** forms.py lines 409-417: any other non-blank name becomes `name.domain`, which
      must be a host name (a wildcard first label allowed). */
  lemma HostNameRule(cleanedData: Object, errors: Errors, fipsMode: bool,
                     isIpv4: string -> bool, isIpv6: string -> bool)
    requires TextValued(cleanedData) && Complete(cleanedData, fipsMode)
    requires cleanedData["type"] != Str("SRV") && cleanedData["name"] != Str("")
    ensures var r := CleanRun(cleanedData, errors, fipsMode, isIpv4, isIpv6);
            var full := cleanedData["name"].s + "." + cleanedData["domain_name"].s;
            r.raised.None? && "name" in r.data && r.data["name"] == Str(full)
            && (WildcardDomainName(full) ==> Unchanged(r.errors, errors, "name"))
            && (!WildcardDomainName(full) ==> "name" in r.errors && r.errors["name"] == HostnameMessage)
  {
    NameFromStep(cleanedData, errors, fipsMode, isIpv4, isIpv6);
  }

  /** The name and its error after `clean` are those the name block left:
      no later block touches either. */
  lemma NameFromStep(cleanedData: Object, errors: Errors, fipsMode: bool,
                     isIpv4: string -> bool, isIpv6: string -> bool)
    requires TextValued(cleanedData) && Complete(cleanedData, fipsMode)
    ensures var r := CleanRun(cleanedData, errors, fipsMode, isIpv4, isIpv6);
            var recordType := cleanedData["type"].s;
            var fips := FipsStep(cleanedData, errors, fipsMode, recordType);
            var named := NameStep(fips.data, fips.errors, recordType, cleanedData["domain_name"].s);
            r.raised.None? && "name" in named.data && "name" in r.data
            && r.data["name"] == named.data["name"] && Unchanged(r.errors, named.errors, "name")
            && Unchanged(named.errors, errors, "name") == Unchanged(r.errors, errors, "name")
            && fips.data["name"] == cleanedData["name"]
  {
  }

  /** The data value the data rules see: the floating IP choice for an A or
      AAAA record in floating IP mode, the data field otherwise. */
  function DataSeen(cleanedData: Object, fipsMode: bool): (seen: string)
    requires TextValued(cleanedData) && Complete(cleanedData, fipsMode)
    ensures seen == FipsStep(cleanedData, map[], fipsMode, cleanedData["type"].s).data["data"].s
  {
    if fipsMode && cleanedData["type"].s in ["AAAA", "A"] then cleanedData["ip_addr"].s else cleanedData["data"].s
  }

  /** The data error after `clean` is the one the data block left. */
  lemma DataErrorFromStep(cleanedData: Object, errors: Errors, fipsMode: bool,
                          isIpv4: string -> bool, isIpv6: string -> bool)
    requires TextValued(cleanedData) && Complete(cleanedData, fipsMode)
    ensures var r := CleanRun(cleanedData, errors, fipsMode, isIpv4, isIpv6);
            var recordType := cleanedData["type"].s;
            var fips := FipsStep(cleanedData, errors, fipsMode, recordType);
            var named := NameStep(fips.data, fips.errors, recordType, cleanedData["domain_name"].s);
            var checked := DataStep(named.data, named.errors, recordType, isIpv4, isIpv6);
            r.raised.None? && "data" in named.data && named.data["data"] == Str(DataSeen(cleanedData, fipsMode))
            && Unchanged(r.errors, checked.errors, "data") && Unchanged(named.errors, errors, "data")
  {
  }

  /** forms.py lines 419-444: blank data is an error exactly for A, AAAA, CNAME, MX
      and SRV records; otherwise A and AAAA data must be an IPv4 or IPv6
      address, CNAME, MX and PTR data a host name, and SRV data two numbers
      up to 65535 and a host name. */
  lemma DataRules(cleanedData: Object, errors: Errors, fipsMode: bool,
                  isIpv4: string -> bool, isIpv6: string -> bool)
    requires TextValued(cleanedData) && Complete(cleanedData, fipsMode)
    ensures var r := CleanRun(cleanedData, errors, fipsMode, isIpv4, isIpv6);
            var recordType := cleanedData["type"].s;
            var seen := DataSeen(cleanedData, fipsMode);
            var valid := if recordType == "A" then isIpv4(seen)
                         else if recordType == "AAAA" then isIpv6(seen)
                         else if recordType in HostnameDataTypes then DomainName(seen)
                         else if recordType == "SRV" then SrvData(seen)
                         else true;
            var message := if recordType == "A" then Ipv4Message
                           else if recordType == "AAAA" then Ipv6Message
                           else if recordType in HostnameDataTypes then DataHostnameMessage
                           else SrvDataMessage;
            r.raised.None?
            && (seen == "" && recordType in RequiredDataTypes ==> "data" in r.errors && r.errors["data"] == RequiredMessage)
            && (seen == "" && recordType !in RequiredDataTypes ==> Unchanged(r.errors, errors, "data"))
            && (seen != "" && valid ==> Unchanged(r.errors, errors, "data"))
            && (seen != "" && !valid ==> "data" in r.errors && r.errors["data"] == message)
  {
    DataErrorFromStep(cleanedData, errors, fipsMode, isIpv4, isIpv6);
    var recordType := cleanedData["type"].s;
    var fips := FipsStep(cleanedData, errors, fipsMode, recordType);
    var named := NameStep(fips.data, fips.errors, recordType, cleanedData["domain_name"].s);
    DataStepRule(named.data, named.errors, recordType, isIpv4, isIpv6);
  }

  /** The data block on its own: the error it leaves under "data". */
  lemma DataStepRule(data: Object, errors: Errors, recordType: string,
                     isIpv4: string -> bool, isIpv6: string -> bool)
    requires TextValued(data) && "data" in data && data["data"].Str?
    ensures var c := DataStep(data, errors, recordType, isIpv4, isIpv6);
            var seen := data["data"].s;
            var valid := if recordType == "A" then isIpv4(seen)
                         else if recordType == "AAAA" then isIpv6(seen)
                         else if recordType in HostnameDataTypes then DomainName(seen)
                         else if recordType == "SRV" then SrvData(seen)
                         else true;
            var message := if recordType == "A" then Ipv4Message
                           else if recordType == "AAAA" then Ipv6Message
                           else if recordType in HostnameDataTypes then DataHostnameMessage
                           else SrvDataMessage;
            c.raised.None?
            && (seen == "" && recordType in RequiredDataTypes ==> "data" in c.errors && c.errors["data"] == RequiredMessage)
            && (seen == "" && recordType !in RequiredDataTypes ==> Unchanged(c.errors, errors, "data"))
            && (seen != "" && valid ==> Unchanged(c.errors, errors, "data"))
            && (seen != "" && !valid ==> "data" in c.errors && c.errors["data"] == message)
  {
  }

  /** forms.py lines 446-458: a TXT record needs its txt field and takes it as its
      data; an SSHFP record always takes the txt field as its data, and it
      must be an SSHFP fingerprint; any other record keeps the data the data
      rules saw. */
  lemma TxtRules(cleanedData: Object, errors: Errors, fipsMode: bool,
                 isIpv4: string -> bool, isIpv6: string -> bool)
    requires TextValued(cleanedData) && Complete(cleanedData, fipsMode)
    ensures var r := CleanRun(cleanedData, errors, fipsMode, isIpv4, isIpv6);
            var recordType := cleanedData["type"].s;
            var txt := cleanedData["txt"].s;
            var seen := DataSeen(cleanedData, fipsMode);
            r.raised.None? && "data" in r.data
            && (recordType == "TXT" && txt == "" ==> "txt" in r.errors && r.errors["txt"] == RequiredMessage && r.data["data"] == Str(seen))
            && (recordType == "TXT" && txt != "" ==> Unchanged(r.errors, errors, "txt") && r.data["data"] == Str(txt))
            && (recordType == "SSHFP" ==> r.data["data"] == Str(txt))
            && (recordType == "SSHFP" && SshfpData(txt) ==> Unchanged(r.errors, errors, "txt"))
            && (recordType == "SSHFP" && !SshfpData(txt) ==> "txt" in r.errors && r.errors["txt"] == SshfpMessage)
            && (recordType != "TXT" && recordType != "SSHFP" ==> Unchanged(r.errors, errors, "txt") && r.data["data"] == Str(seen))
  {
    DataErrorFromStep(cleanedData, errors, fipsMode, isIpv4, isIpv6);
    var recordType := cleanedData["type"].s;
    var fips := FipsStep(cleanedData, errors, fipsMode, recordType);
    var named := NameStep(fips.data, fips.errors, recordType, cleanedData["domain_name"].s);
    var checked := DataStep(named.data, named.errors, recordType, isIpv4, isIpv6);
    assert checked.data == named.data;
    assert "txt" in checked.data && checked.data["txt"] == cleanedData["txt"];
    assert Unchanged(checked.errors, errors, "txt");
    TxtStepRule(checked.data, checked.errors, recordType);
    var texts := TxtStep(checked.data, checked.errors, recordType);
    var r := CleanRun(cleanedData, errors, fipsMode, isIpv4, isIpv6);
    assert r.data == FinishStep(texts.data) && r.errors == PriorityStep(texts.data, texts.errors, recordType);
    assert r.data["data"] == texts.data["data"];
    assert Unchanged(r.errors, texts.errors, "txt");
  }

  /** The TXT and SSHFP block on its own: the data it leaves and the error
      it leaves under "txt". */
  lemma TxtStepRule(data: Object, errors: Errors, recordType: string)
    requires TextValued(data) && "txt" in data && "data" in data
    ensures var t := TxtStep(data, errors, recordType);
            var txt := data["txt"].s;
            t.raised.None? && "data" in t.data
            && (recordType == "TXT" && txt == "" ==> "txt" in t.errors && t.errors["txt"] == RequiredMessage && t.data["data"] == data["data"])
            && (recordType == "TXT" && txt != "" ==> Unchanged(t.errors, errors, "txt") && t.data["data"] == Str(txt))
            && (recordType == "SSHFP" ==> t.data["data"] == Str(txt))
            && (recordType == "SSHFP" && SshfpData(txt) ==> Unchanged(t.errors, errors, "txt"))
            && (recordType == "SSHFP" && !SshfpData(txt) ==> "txt" in t.errors && t.errors["txt"] == SshfpMessage)
            && (recordType != "TXT" && recordType != "SSHFP" ==> Unchanged(t.errors, errors, "txt") && t.data["data"] == data["data"])
  {
  }

  /** forms.py lines 462-469: MX and SRV records need a priority, and only a missing,
      '' or None priority is missing; every other priority, 0 included,
      draws no error. */
  lemma PriorityRule(cleanedData: Object, errors: Errors, fipsMode: bool,
                     isIpv4: string -> bool, isIpv6: string -> bool)
    requires TextValued(cleanedData) && Complete(cleanedData, fipsMode)
    ensures var r := CleanRun(cleanedData, errors, fipsMode, isIpv4, isIpv6);
            var recordType := cleanedData["type"].s;
            r.raised.None?
            && (PriorityMissing(cleanedData) && recordType in PriorityTypes ==> "priority" in r.errors && r.errors["priority"] == RequiredMessage)
            && (!(PriorityMissing(cleanedData) && recordType in PriorityTypes) ==> Unchanged(r.errors, errors, "priority"))
            && ("priority" in cleanedData && cleanedData["priority"] == Num(0) ==> Unchanged(r.errors, errors, "priority"))
  {
    var recordType := cleanedData["type"].s;
    var fips := FipsStep(cleanedData, errors, fipsMode, recordType);
    var named := NameStep(fips.data, fips.errors, recordType, cleanedData["domain_name"].s);
    var checked := DataStep(named.data, named.errors, recordType, isIpv4, isIpv6);
    var texts := TxtStep(checked.data, checked.errors, recordType);
    assert texts.raised.None?;
    assert Unchanged(texts.data, cleanedData, "priority");
    assert Unchanged(texts.errors, errors, "priority");
    assert CleanRun(cleanedData, errors, fipsMode, isIpv4, isIpv6).errors == PriorityStep(texts.data, texts.errors, recordType);
  }

  /** A lone '*' name is accepted in any domain short enough. */
  lemma StarNameAccepted(domainName: string)
    requires Groups(domainName, false) && |domainName| < 253
    ensures WildcardDomainName("*" + "." + domainName)
  {
    var star := "*" + "." + domainName;
    assert star[..2] == "*." && star[2..] == domainName;
    StarGroups(star);
  }

  /** A name starting with '-' is rejected, as "-ww.foo.com" is. */
  lemma LeadingDashRejected(name: string, domainName: string)
    requires name != [] && name[0] == '-'
    ensures !WildcardDomainName(name + "." + domainName)
  {
    var full := name + "." + domainName;
    if WildcardDomainName(full) {
      WildcardShape(full);
    }
  }

  /** A name whose last label ends with '-' is rejected, as "www.foo.co-" is. */
  lemma TrailingDashRejected(name: string, domainName: string)
    requires name != [] && name[|name| - 1] == '-'
    ensures !WildcardDomainName(name + "." + domainName)
  {
    var full := name + "." + domainName;
    assert full[|name| - 1] == '-' && full[|name|] == '.';
    if WildcardDomainName(full) {
      WildcardShape(full);
    }
  }

  /** A '*' anywhere but at the start is rejected, as in "derp.*". */
  lemma InnerStarRejected(name: string, domainName: string, i: nat)
    requires 0 < i < |name| && name[i] == '*'
    ensures !WildcardDomainName(name + "." + domainName)
  {
    var full := name + "." + domainName;
    assert full[i] == '*';
    if WildcardDomainName(full) {
      WildcardShape(full);
    }
  }

  /** A character that is neither a label character, a dot nor a '*' is
      rejected, as in "#@$foo!!". */
  lemma OtherCharRejected(name: string, domainName: string, i: nat)
    requires i < |name| && !IsLabelChar(name[i]) && name[i] != '.' && name[i] != '*'
    ensures !WildcardDomainName(name + "." + domainName)
  {
    var full := name + "." + domainName;
    if WildcardDomainName(full) {
      var t := if |full| < 255 && Groups(full, true) then full else full[..|full| - 1];
      assert Groups(t, true);
      assert i < |t| && t[i] == name[i];
      GroupsChars(t, true);
    }
  }

  /** `RecordForm.__init__`'s name length limit: the label limit, lowered
      so that the name and the domain suffix fit in 255 characters. */
  function NameMaxLength(domainName: string): (n: int)
    ensures n <= NameMaxLabel && n + |"." + domainName| <= 255
    ensures n == NameMaxLabel || n + |"." + domainName| == 255
  {
    var suffix := "." + domainName;
    if NameMaxLabel < 255 - |suffix| then NameMaxLabel else 255 - |suffix|
  }

  /** When the domain is long enough to lower the limit, a name of exactly
      the limit makes a 255-character host name, which the hostname rule
      rejects: the field admits one character more than `clean` accepts. */
  lemma LongestNameRejected(name: string, domainName: string)
    requires NameMaxLength(domainName) < NameMaxLabel && |name| == NameMaxLength(domainName)
    requires domainName == [] || domainName[|domainName| - 1] != '\n'
    ensures !WildcardDomainName(name + "." + domainName)
  {
    var full := name + "." + domainName;
    assert |full| == 255;
    if WildcardDomainName(full) {
      assert full[|full| - 1] == domainName[|domainName| - 1];
      MatchLength(full, true);
    }
  }

  /** The `type` field's choices: the value the browser posts and its label. */
  const TypeChoices: seq<(string, string)> := [
    ("a", "A - Address record"),
    ("aaaa", "AAAA - IPv6 address record"),
    ("cname", "CNAME - Canonical name record"),
    ("mx", "MX - Mail exchange record"),
    ("ptr", "PTR - Pointer record"),
    ("spf", "SPF - Sender Policy Framework"),
    ("srv", "SRV - Service locator"),
    ("sshfp", "SSHFP - SSH Public Key Fingerprint"),
    ("txt", "TXT - Text record")
  ]

  /** `clean_type`: the chosen type upper-cased for the API. */
  function CleanType(value: string): (t: string)
    ensures PyStr.NoLowerCase(t) && PyStr.Lower(t) == PyStr.Lower(value)
  {
    var t := PyStr.Upper(value);
    assert forall i :: 0 <= i < |t| ==> PyStr.LowerChar(t[i]) == PyStr.LowerChar(value[i]);
    t
  }

  /** The form offers exactly the record types the tables may edit, in the
      same order, once `clean_type` has upper-cased them. */
  lemma ChoicesCleanToEditableTypes()
    ensures |TypeChoices| == |Tables.EditableRecordTypes|
    ensures forall i :: 0 <= i < |TypeChoices| ==> CleanType(TypeChoices[i].0) == Tables.EditableRecordTypes[i]
    ensures forall i :: 0 <= i < |TypeChoices| ==> TypeChoices[i].0 == PyStr.Lower(Tables.EditableRecordTypes[i])
  {
    forall i | 0 <= i < |TypeChoices|
      ensures CleanType(TypeChoices[i].0) == Tables.EditableRecordTypes[i]
      ensures TypeChoices[i].0 == PyStr.Lower(Tables.EditableRecordTypes[i])
    {
      var value := TypeChoices[i].0;
      var t := Tables.EditableRecordTypes[i];
      assert PyStr.Lower(t) == value && PyStr.NoLowerCase(t) by {
        assert Tables.EditableRecordTypes == ["A", "AAAA", "CNAME", "MX", "PTR", "SPF", "SRV", "SSHFP", "TXT"];
        assert TypeChoices[i].0 == ["a", "aaaa", "cname", "mx", "ptr", "spf", "srv", "sshfp", "txt"][i];
      }
      PyStr.UpperLower(t);
    }
  }

  /** `RecordUpdate.__init__`: the type choices offered and the fields made
      read-only. */
  datatype UpdateFields = UpdateFields(choices: seq<(string, string)>, readonly: set<string>)

  /** The choices whose value is `value`, in order. */
  function ChoicesFor(choices: seq<(string, string)>, value: string): (r: seq<(string, string)>)
    ensures forall i :: 0 <= i < |r| ==> r[i].0 == value
    ensures forall c :: c in r <==> c in choices && c.0 == value
  {
    if choices == [] then []
    else (if choices[0].0 == value then [choices[0]] else []) + ChoicesFor(choices[1..], value)
  }

  /** No choice is kept when none has the value. */
  lemma {:induction false} NoChoiceFor(choices: seq<(string, string)>, value: string)
    requires forall c :: c in choices ==> c.0 != value
    ensures ChoicesFor(choices, value) == []
  {
    if choices != [] {
      assert choices[0] in choices;
      assert forall c :: c in choices[1..] ==> c in choices;
      NoChoiceFor(choices[1..], value);
    }
  }

  /** The choices `RecordUpdate.__init__` adds for an NS or SOA record,
      and the fields it then makes read-only besides the type. */
  const NsSoaChoices: seq<(string, string)> := [("ns", "NS"), ("soa", "SOA")]
  const LockedFields: set<string> := {"name", "data", "description", "ttl"}

  /** The type field holds 'soa' or 'ns'. */
  predicate NsOrSoa(value: string)
  {
    value == "soa" || value == "ns"
  }

  /**
   * `RecordUpdate.__init__`: `typeValue` is the type field's current value
   * and `initialType` the record's type from the view. An NS or SOA record
   * adds those two choices and locks its name, data, description and ttl;
   * the choices are then cut down to the record's own type.
   */
  function UpdateFormFields(typeValue: string, initialType: string): (f: UpdateFields)
    ensures forall c :: c in f.choices <==>
              c.0 == initialType && (c in TypeChoices || (NsOrSoa(typeValue) && c in NsSoaChoices))
    ensures "type" in f.readonly && (LockedFields <= f.readonly <==> NsOrSoa(typeValue))
  {
    var extended := if NsOrSoa(typeValue) then TypeChoices + NsSoaChoices else TypeChoices;
    var readonly := if NsOrSoa(typeValue) then {"type"} + LockedFields else {"type"};
    assert "name" in LockedFields && "name" !in {"type"};
    UpdateFields(ChoicesFor(extended, initialType), readonly)
  }

  /** Neither 'ns' nor 'soa' is among the form's own type choices. */
  lemma NoNsOrSoaChoice()
    ensures forall c :: c in TypeChoices ==> !NsOrSoa(c.0)
  {
    forall c | c in TypeChoices
      ensures !NsOrSoa(c.0)
    {
      var i :| 0 <= i < |TypeChoices| && TypeChoices[i] == c;
      assert c.0[0] != 'n' && (c.0[0] == 's' ==> |c.0| >= 2 && c.0[1] != 'o');
    }
  }

  /** An editable record's update form offers its own type; an NS or SOA
      record's form offers a choice only when the type field holds NS or
      SOA. */
  lemma UpdateChoicesAreOwnType(typeValue: string, initialType: string)
    ensures var f := UpdateFormFields(typeValue, initialType);
            (exists c :: c in TypeChoices && c.0 == initialType) ==> f.choices != []
    ensures var f := UpdateFormFields(typeValue, initialType);
            NsOrSoa(initialType) ==> (f.choices != [] <==> NsOrSoa(typeValue))
  {
    var f := UpdateFormFields(typeValue, initialType);
    if exists c :: c in TypeChoices && c.0 == initialType {
      var c :| c in TypeChoices && c.0 == initialType;
      assert c in f.choices;
    }
    if NsOrSoa(initialType) {
      NsOrSoaChoices(typeValue, initialType);
    }
  }

  /** An NS or SOA record's form offers a choice exactly when the type
      field holds NS or SOA. */
  lemma NsOrSoaChoices(typeValue: string, initialType: string)
    requires NsOrSoa(initialType)
    ensures UpdateFormFields(typeValue, initialType).choices != [] <==> NsOrSoa(typeValue)
  {
    var f := UpdateFormFields(typeValue, initialType);
    NoNsOrSoaChoice();
    if NsOrSoa(typeValue) {
      var c := if initialType == "ns" then NsSoaChoices[0] else NsSoaChoices[1];
      assert c in NsSoaChoices && c.0 == initialType;
      assert c in f.choices;
    } else {
      NoChoiceFor(TypeChoices, initialType);
    }
  }

  /** What `RecordUpdate.handle` does with the cleaned values: nothing for
      an SOA or NS record, otherwise an update call with them. */
  datatype UpdateHandling = Skipped | Sent(kwargs: Object)

  /** `RecordUpdate.handle`; a missing type raises a KeyError. */
  function HandleUpdate(data: Object): (r: PyResult<UpdateHandling>)
    ensures r.KeyError? <==> "type" !in data
    ensures r.Ok? ==> (r.value.Skipped? <==> data["type"] in [Str("SOA"), Str("NS")])
    ensures r.Ok? && r.value.Sent? ==> r.value.kwargs == data
  {
    match PyIndex(data, "type")
    case KeyError(k) => KeyError(k)
    case Ok(recordType) => Ok(if recordType in [Str("SOA"), Str("NS")] then Skipped else Sent(data))
  }

  /** The 'soa' and 'ns' choices come back from `clean_type` as SOA and NS,
      so such a record is never sent to the update call. */
  lemma SoaAndNsNeverUpdated(data: Object, value: string)
    requires NsOrSoa(value)
    ensures HandleUpdate(data["type" := Str(CleanType(value))]) == Ok(Skipped)
  {
    var t := CleanType(value);
    if value == "soa" {
      assert t == "SOA" by {
        assert t[0] == 'S' && t[1] == 'O' && t[2] == 'A';
      }
    } else {
      assert t == "NS" by {
        assert t[0] == 'N' && t[1] == 'S';
      }
    }
  }

  /** The form in its cleaning phase: the values its fields cleaned, the
      errors they left, and the settings it was built with. */
  class RecordForm {
    var cleanedData: Object
    var errors: Errors
    /** `limit_records_to_fips()` */
    const fipsMode: bool
    /** The suffix the name widget shows, and the name's length limit. */
    const nameSuffix: string
    const nameMaxLength: int
    /** Whether the form keeps its `ip_addr` field. */
    const hasIpAddrField: bool

    /** `RecordForm.__init__` for a domain, with the values and errors the
        fields' own validation produced. */
    constructor (domainName: string, fipsMode: bool, cleanedData: Object, errors: Errors)
      ensures this.fipsMode == fipsMode && this.cleanedData == cleanedData && this.errors == errors
      ensures nameSuffix == "." + domainName && nameMaxLength == NameMaxLength(domainName)
      ensures hasIpAddrField == fipsMode
    {
      this.fipsMode := fipsMode;
      this.cleanedData := cleanedData;
      this.errors := errors;
      var suffix := "." + domainName;
      nameSuffix := suffix;
      nameMaxLength := if NameMaxLabel < 255 - |suffix| then NameMaxLabel else 255 - |suffix|;
      hasIpAddrField := fipsMode;
    }

    /** `_add_field_error` */
    method AddFieldError(field: string, message: string)
      modifies this
      ensures errors == old(errors)[field := message] && cleanedData == old(cleanedData)
    {
      errors := errors[field := message];
    }

    /** `_add_required_field_error` */
    method AddRequiredFieldError(field: string)
      modifies this
      ensures errors == old(errors)[field := RequiredMessage] && cleanedData == old(cleanedData)
    {
      AddFieldError(field, RequiredMessage);
    }

    /** `clean()`: the cleaned values are rewritten in place, errors are
        added, and the same values are returned, unless a lookup raises. */
    method Clean(isIpv4: string -> bool, isIpv6: string -> bool) returns (result: PyResult<Object>)
      requires TextValued(cleanedData)
      modifies this
      ensures var r := CleanRun(old(cleanedData), old(errors), fipsMode, isIpv4, isIpv6);
              cleanedData == r.data && errors == r.errors
              && result == (if r.raised.Some? then KeyError(r.raised.value) else Ok(r.data))
    {
      if "type" !in cleanedData {
        return KeyError("type");
      }
      var recordType := cleanedData["type"].s;
      if "domain_name" !in cleanedData {
        return KeyError("domain_name");
      }
      var domainName := cleanedData["domain_name"].s;
      var raised := CleanFips(recordType);
      if raised.Some? {
        return KeyError(raised.value);
      }
      raised := CleanName(recordType, domainName);
      if raised.Some? {
        return KeyError(raised.value);
      }
      raised := CleanData(recordType, isIpv4, isIpv6);
      if raised.Some? {
        return KeyError(raised.value);
      }
      raised := CleanTxt(recordType);
      if raised.Some? {
        return KeyError(raised.value);
      }
      // Priority field
      if PriorityMissing(cleanedData) && recordType in PriorityTypes {
        AddRequiredFieldError("priority");
      }
      // Rename 'id' to 'record_id', then remove domain_name
      if "id" in cleanedData {
        var id := cleanedData["id"];
        cleanedData := (cleanedData - {"id"})["record_id" := id];
      }
      cleanedData := cleanedData - {"domain_name"};
      return Ok(cleanedData);
    }

    /** forms.py lines 392-395. */
    method CleanFips(recordType: string) returns (raised: Option<string>)
      requires TextValued(cleanedData)
      modifies this
      ensures Run(cleanedData, errors, raised) == FipsStep(old(cleanedData), old(errors), fipsMode, recordType)
    {
      raised := None;
      if fipsMode {
        if "ip_addr" !in cleanedData {
          return Some("ip_addr");
        }
        var ipAddr := cleanedData["ip_addr"];
        cleanedData := cleanedData - {"ip_addr"};
        if recordType in ["AAAA", "A"] && fipsMode {
          cleanedData := cleanedData["data" := ipAddr];
        }
      }
    }

    /** forms.py lines 397-417. */
    method CleanName(recordType: string, domainName: string) returns (raised: Option<string>)
      requires TextValued(cleanedData)
      modifies this
      ensures Run(cleanedData, errors, raised) == NameStep(old(cleanedData), old(errors), recordType, domainName)
    {
      raised := None;
      if IsFieldBlank(cleanedData, "name") {
        if recordType in RequiredNameTypes {
          AddRequiredFieldError("name");
        } else if recordType in DefaultNameTypes {
          cleanedData := cleanedData["name" := Str(domainName)];
        }
      } else {
        if "name" !in cleanedData {
          return Some("name");
        }
        if recordType == "SRV" {
          if !SrvNamePrefix(cleanedData["name"].s) {
            AddFieldError("name", SrvNameMessage);
          } else {
            cleanedData := cleanedData["name" := Str(cleanedData["name"].s + domainName)];
          }
        } else {
          cleanedData := cleanedData["name" := Str(cleanedData["name"].s + "." + domainName)];
          if !WildcardDomainName(cleanedData["name"].s) {
            AddFieldError("name", HostnameMessage);
          }
        }
      }
    }

    /** forms.py lines 418-444. */
    method CleanData(recordType: string, isIpv4: string -> bool, isIpv6: string -> bool) returns (raised: Option<string>)
      requires TextValued(cleanedData)
      modifies this
      ensures Run(cleanedData, errors, raised) == DataStep(old(cleanedData), old(errors), recordType, isIpv4, isIpv6)
    {
      raised := None;
      if IsFieldBlank(cleanedData, "data") {
        if recordType in RequiredDataTypes {
          AddRequiredFieldError("data");
        }
      } else if recordType in ["A", "AAAA", "CNAME", "MX", "PTR", "SRV"] {
        if "data" !in cleanedData {
          return Some("data");
        }
        var value := cleanedData["data"].s;
        if recordType == "A" {
          if !isIpv4(value) {
            AddFieldError("data", Ipv4Message);
          }
        } else if recordType == "AAAA" {
          if !isIpv6(value) {
            AddFieldError("data", Ipv6Message);
          }
        } else if recordType in HostnameDataTypes {
          if !DomainName(value) {
            AddFieldError("data", DataHostnameMessage);
          }
        } else {
          if !SrvData(value) {
            AddFieldError("data", SrvDataMessage);
          }
        }
      }
    }

    /** forms.py lines 446-460. */
    method CleanTxt(recordType: string) returns (raised: Option<string>)
      requires TextValued(cleanedData)
      modifies this
      ensures Run(cleanedData, errors, raised) == TxtStep(old(cleanedData), old(errors), recordType)
    {
      raised := None;
      if IsFieldBlank(cleanedData, "txt") {
        if recordType == "TXT" {
          AddRequiredFieldError("txt");
        }
      } else if recordType == "TXT" {
        if "txt" !in cleanedData {
          return Some("txt");
        }
        cleanedData := cleanedData["data" := cleanedData["txt"]];
      }
      if "txt" !in cleanedData {
        return Some("txt");
      }
      if recordType == "SSHFP" {
        if !SshfpData(cleanedData["txt"].s) {
          AddFieldError("txt", SshfpMessage);
        }
        cleanedData := cleanedData["data" := cleanedData["txt"]];
      }
      cleanedData := cleanedData - {"txt"};
    }
  }
}
