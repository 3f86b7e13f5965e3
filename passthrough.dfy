/**
 * The server side pass-through to the DNS service: the request URL, TLS
 * verification and body the proxy sends, and how an error status from the
 * service is turned into one of Horizon's error classes. The service
 * catalog lookup and the outgoing HTTP call are parameters.
 */
module Passthrough {
  import opened Json

  /** The `verify` argument handed to `requests`: the CA bundle setting,
      `None` when unset, or `False` to switch verification off. */
  datatype Verify = Bundle(path: string) | Unset | Off

  /** The TLS settings: `OPENSTACK_SSL_CACERT` (absent is `None`) and
      `OPENSTACK_SSL_NO_VERIFY` (absent is `False`). */
  datatype SslSettings = SslSettings(cacert: Option<string>, noVerify: Value)

  /** The `verify` value a request uses. */
  function VerifyFor(settings: SslSettings): (v: Verify)
    ensures PyTruthy(settings.noVerify) <==> v == Off
    ensures !PyTruthy(settings.noVerify) ==> (v == Unset <==> settings.cacert.None?)
    ensures !PyTruthy(settings.noVerify) && settings.cacert.Some? ==> v == Bundle(settings.cacert.value)
  {
    if PyTruthy(settings.noVerify) then Off
    else if settings.cacert.Some? then Bundle(settings.cacert.value) else Unset
  }

  /** `verify` as `_passthrough_request` computes it, step by step. */
  method ComputeVerify(settings: SslSettings) returns (verify: Verify)
    ensures verify == VerifyFor(settings)
  {
    verify := Unset;
    if settings.cacert.Some? {
      verify := Bundle(settings.cacert.value);
    }
    if PyTruthy(settings.noVerify) {
      verify := Off;
    }
  }

  /**
   * `_get_service_url(request, 'dns')`: the `DNS_URL` setting is only the
   * fallback; a catalog entry (`catalogUrl`, `None` where the lookup raises
   * a service catalog error) always wins.
   */
  method GetServiceUrl(dnsUrlSetting: Option<string>, catalogUrl: Option<string>) returns (serviceUrl: Option<string>)
    ensures catalogUrl.Some? ==> serviceUrl == catalogUrl
    ensures catalogUrl.None? ==> serviceUrl == dnsUrlSetting
  {
    serviceUrl := dnsUrlSetting;
    if catalogUrl.Some? {
      serviceUrl := catalogUrl;
    }
  }

  /** The URL already ends with '/'. */
  predicate EndsWithSlash(s: string)
    ensures EndsWithSlash(s) <==> |s| > 0 && s == s[..|s| - 1] + "/"
  {
    |s| > 0 && s[|s| - 1] == '/'
  }

  /** The request URL: the service URL and the path joined by one '/'
      unless the service URL already ends with one. */
  function RequestUrl(serviceUrl: string, path: string): (url: string)
    ensures EndsWithSlash(serviceUrl) ==> url == serviceUrl + path
    ensures !EndsWithSlash(serviceUrl) ==> url == serviceUrl + "/" + path
  {
    serviceUrl + (if EndsWithSlash(serviceUrl) then path else "/" + path)
  }

  /** A catalog URL with or without its trailing slash reaches the same
      service URL, and the path always follows a '/'. */
  lemma RequestUrlIgnoresTrailingSlash(base: string, path: string)
    requires !EndsWithSlash(base)
    ensures RequestUrl(base + "/", path) == RequestUrl(base, path)
    ensures var url := RequestUrl(base, path);
      |url| == |base| + 1 + |path| && url[|base|] == '/' && url[|base| + 1..] == path
  {
    assert EndsWithSlash(base + "/");
  }

  /** One of Horizon's HTTP error classes: its `status_code` (absent is 0)
      and whether it derives directly from `HorizonException`. */
  datatype ErrorClass = ErrorClass(statusCode: int, horizonBase: bool)

  predicate Matches(error: ErrorClass, status: int)
  {
    status == error.statusCode && error.horizonBase
  }

  /** The error class raised for an error status: the first that matches,
      or `None` where the original HTTP error is re-raised. */
  function ErrorFor(status: int, errors: seq<ErrorClass>): (r: Option<nat>)
    ensures r.None? <==> forall i :: 0 <= i < |errors| ==> !Matches(errors[i], status)
    ensures r.Some? ==> r.value < |errors| && Matches(errors[r.value], status)
    ensures r.Some? ==> forall i :: 0 <= i < r.value ==> !Matches(errors[i], status)
    decreases |errors|
  {
    if errors == [] then None
    else if Matches(errors[0], status) then Some(0)
    else
      var rest := ErrorFor(status, errors[1..]);
      assert forall i :: 1 <= i < |errors| ==> errors[i] == errors[1..][i - 1];
      if rest.Some? then Some(rest.value + 1) else None
  }

  /** The error-mapping loop of `_passthrough_request`. */
  method MapError(status: int, errors: seq<ErrorClass>) returns (raised: Option<nat>)
    ensures raised == ErrorFor(status, errors)
  {
    var n := 0;
    while n < |errors|
      invariant 0 <= n <= |errors|
      invariant forall i :: 0 <= i < n ==> !Matches(errors[i], status)
    {
      if Matches(errors[n], status) {
        return Some(n);
      }
      n := n + 1;
    }
    raised := None;
  }

  /** `response.raise_for_status()` raises for 4xx and 5xx statuses. */
  predicate IsErrorStatus(status: int)
    ensures IsErrorStatus(status) <==> status / 100 == 4 || status / 100 == 5
  {
    400 <= status < 600
  }

  /** How a pass-through request ends. */
  datatype Outcome =
    | Returned(status: int)
    | RaisedClass(index: nat)
    | Reraised(status: int)
    | NoServiceUrl

  /** What the proxy sends. */
  datatype Sent = Sent(url: string, verify: Verify, json: Value)

  /**
   * `_passthrough_request` for a service answering with `status`: without a
   * service URL the `endswith` call fails before anything is sent.
   */
  method PassthroughRequest(settings: SslSettings, dnsUrlSetting: Option<string>, catalogUrl: Option<string>,
                            path: string, data: Value, status: int, errors: seq<ErrorClass>)
    returns (sent: Option<Sent>, outcome: Outcome)
    ensures var serviceUrl := if catalogUrl.Some? then catalogUrl else dnsUrlSetting;
      && (serviceUrl.None? <==> outcome == NoServiceUrl)
      && (serviceUrl.None? <==> sent.None?)
      && (serviceUrl.Some? ==> sent == Some(Sent(RequestUrl(serviceUrl.value, path), VerifyFor(settings), data)))
    ensures sent.Some? && !IsErrorStatus(status) ==> outcome == Returned(status)
    ensures sent.Some? && IsErrorStatus(status) ==>
      outcome == if ErrorFor(status, errors).Some? then RaisedClass(ErrorFor(status, errors).value) else Reraised(status)
  {
    var verify := ComputeVerify(settings);
    var serviceUrl := GetServiceUrl(dnsUrlSetting, catalogUrl);
    if serviceUrl.None? {
      return None, NoServiceUrl;
    }
    sent := Some(Sent(RequestUrl(serviceUrl.value, path), verify, data));
    if IsErrorStatus(status) {
      var raised := MapError(status, errors);
      outcome := if raised.Some? then RaisedClass(raised.value) else Reraised(status);
    } else {
      outcome := Returned(status);
    }
  }

  /** One element of a list handed to `dict`, read as a key and a value:
      a two-element list with a string key, or a two-character string;
      `None` for any element `dict` refuses. */
  function PairOf(e: Value): (pair: Option<(string, Value)>)
    ensures e.Arr? && |e.items| == 2 && e.items[0].Str? ==> pair == Some((e.items[0].s, e.items[1]))
    ensures e.Str? && |e.s| == 2 ==> pair == Some(([e.s[0]], Str([e.s[1]])))
    ensures pair.Some? ==> (e.Arr? && |e.items| == 2 && e.items[0].Str?) || (e.Str? && |e.s| == 2)
  {
    match e
    case Arr(items) => if |items| == 2 && items[0].Str? then Some((items[0].s, items[1])) else None
    case Str(s) => if |s| == 2 then Some(([s[0]], Str([s[1]]))) else None
    case _ => None
  }

  /** `dict(items)` for a list: each element's pair stored in turn, a later
      key overwriting an earlier one; `None` where an element is not a pair. */
  function DictOfPairs(items: seq<Value>): (d: Option<Object>)
    ensures d.Some? <==> forall i :: 0 <= i < |items| ==> PairOf(items[i]).Some?
    decreases |items|
  {
    if items == [] then Some(map[])
    else
      var init := DictOfPairs(items[..|items| - 1]);
      var last := PairOf(items[|items| - 1]);
      assert forall i :: 0 <= i < |items| - 1 ==> items[..|items| - 1][i] == items[i];
      if init.None? || last.None? then None
      else Some(init.value[last.value.0 := last.value.1])
  }

  /** The key of the element at `i` is `key`, and no later element has it. */
  predicate LastWithKey(items: seq<Value>, key: string, i: int)
    requires forall j :: 0 <= j < |items| ==> PairOf(items[j]).Some?
  {
    && 0 <= i < |items| && PairOf(items[i]).value.0 == key
    && forall j :: i < j < |items| ==> PairOf(items[j]).value.0 != key
  }

  /** `dict` of a list of pairs holds exactly the keys the pairs name, and
      each key's value comes from its last pair. */
  lemma {:induction false} DictOfPairsLastWins(items: seq<Value>, key: string)
    requires forall j :: 0 <= j < |items| ==> PairOf(items[j]).Some?
    ensures var d := DictOfPairs(items).value;
      && (key in d <==> exists i :: 0 <= i < |items| && PairOf(items[i]).value.0 == key)
      && forall i :: LastWithKey(items, key, i) ==> key in d && d[key] == PairOf(items[i]).value.1
    decreases |items|
  {
    if items != [] {
      var n := |items| - 1;
      var init := items[..n];
      assert forall j :: 0 <= j < n ==> init[j] == items[j];
      DictOfPairsLastWins(init, key);
      var d := DictOfPairs(items).value;
      if PairOf(items[n]).value.0 != key {
        forall i | LastWithKey(items, key, i)
          ensures key in d && d[key] == PairOf(items[i]).value.1
        {
          assert LastWithKey(init, key, i);
        }
        if key in d {
          var i :| 0 <= i < n && PairOf(init[i]).value.0 == key;
          assert PairOf(items[i]).value.0 == key;
        }
      }
    }
  }

  /** `dict(request.DATA) if request.DATA else {}`: the body of a POST,
      PUT or PATCH. A truthy object is copied and a truthy list of pairs
      becomes the object those pairs build; `None` where `dict` raises on
      any other truthy body. */
  function Body(data: Value): (body: Option<Object>)
    ensures !PyTruthy(data) ==> body == Some(map[])
    ensures PyTruthy(data) && data.Obj? ==> body == Some(data.fields)
    ensures PyTruthy(data) && data.Arr? ==> body == DictOfPairs(data.items)
    ensures body.None? <==> PyTruthy(data) && !data.Obj?
                            && !(data.Arr? && forall i :: 0 <= i < |data.items| ==> PairOf(data.items[i]).Some?)
  {
    if !PyTruthy(data) then Some(map[])
    else if data.Obj? then Some(data.fields)
    else if data.Arr? then DictOfPairs(data.items)
    else None
  }

  /** A list of pairs and a list of two-character strings are accepted:
      `[["a", 1]]` gives `{"a": 1}` and `["ab"]` gives `{"a": "b"}`, while
      a non-empty string is refused. */
  lemma PairBodies()
    ensures Body(Arr([Arr([Str("a"), Num(1)])])) == Some(map["a" := Num(1)])
    ensures Body(Arr([Str("ab")])) == Some(map["a" := Str("b")])
    ensures Body(Str("ab")) == None
  {
    var one := [Arr([Str("a"), Num(1)])];
    assert one[..0] == [];
    var two := [Str("ab")];
    assert two[..0] == [];
    assert PairOf(Str("ab")) == Some((['a'], Str(['b'])));
  }
}
