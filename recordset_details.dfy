/**
 * The record set details view's identity functions: a record set lives
 * inside a zone, so its details path encodes both ids as
 * "<zone id>/<record set id>", and the parser recovers them for the load
 * function.
 */
module RecordSetDetails {
  import opened Json
  import Http
  import RecordSetApi

  /** The identifier the parser hands to the load function. */
  datatype Identifier = Identifier(zoneId: Value, recordSetId: Value)

  /** `s.split(sep)` for a one-character separator: the pieces between the
      separators, in order; always at least one piece. */
  function Split(s: string, sep: char): (pieces: seq<string>)
    ensures |pieces| >= 1
    ensures (forall i :: 0 <= i < |s| ==> s[i] != sep) ==> pieces == [s]
    decreases |s|
  {
    if |s| == 0 then [""]
    else
      var rest := Split(s[1..], sep);
      if s[0] == sep then [""] + rest
      else
        assert (forall i :: 0 <= i < |s| ==> s[i] != sep) ==> forall i :: 0 <= i < |s| - 1 ==> s[1..][i] != sep;
        assert [s[0]] + s[1..] == s;
        [[s[0]] + rest[0]] + rest[1..]
  }

  /** Splitting at a separator preceded by a separator-free piece. */
  lemma {:induction false} SplitAfter(a: string, sep: char, b: string)
    requires forall i :: 0 <= i < |a| ==> a[i] != sep
    ensures Split(a + [sep] + b, sep) == [a] + Split(b, sep)
    decreases |a|
  {
    if |a| == 0 {
      assert a + [sep] + b == [sep] + b;
      assert ([sep] + b)[1..] == b;
    } else {
      var s := a + [sep] + b;
      assert s[1..] == a[1..] + [sep] + b;
      SplitAfter(a[1..], sep, b);
      assert [a[0]] + a[1..] == a;
    }
  }

  /** No '/' in a string. */
  predicate SlashFree(s: string)
  {
    forall i :: 0 <= i < |s| ==> s[i] != '/'
  }

  /** `pathGenerator(item)`: `item.zone_id + '/' + item.id`. Where neither
      id, as a string, holds a '/', the parser gets both ids back. */
  function PathGenerator(item: Object): (path: string)
    ensures var zoneId := ToStr(Get(item, "zone_id"));
            var id := ToStr(Get(item, "id"));
            SlashFree(zoneId) && SlashFree(id) ==> PathParser(path) == Identifier(Str(zoneId), Str(id))
  {
    var zoneId := ToStr(Get(item, "zone_id"));
    var id := ToStr(Get(item, "id"));
    if SlashFree(zoneId) then
      SplitAfter(zoneId, '/', id);
      zoneId + "/" + id
    else
      zoneId + "/" + id
  }

  /** `pathParser(path)`: the first two '/'-separated pieces; the second is
      `undefined` when the path has no '/'. */
  function PathParser(path: string): (id: Identifier)
    ensures var pieces := Split(path, '/');
      id.zoneId == Str(pieces[0]) && id.recordSetId == (if |pieces| > 1 then Str(pieces[1]) else Undefined)
  {
    var pieces := Split(path, '/');
    Identifier(Str(pieces[0]), if |pieces| > 1 then Str(pieces[1]) else Undefined)
  }

  /** `loadFunction(identifier)`: `get(zoneId, recordSetId)`, in that order,
      which sends a GET of the record set's own URL under its zone. */
  function LoadFunction(identifier: Identifier): (r: Http.Request)
    ensures r.verb == Http.GET && r.arg == Undefined
    ensures r.url == Http.ApiPassthroughUrl + "v2/zones/" + ToStr(identifier.zoneId)
                     + "/recordsets/" + ToStr(identifier.recordSetId) + "/"
  {
    RecordSetApi.Get(identifier.zoneId, identifier.recordSetId)
  }

  /**
   * The round trip: the details view of a record set whose zone id and id
   * are strings without '/' loads that very record set.
   */
  lemma PathRoundTrip(item: Object, zoneId: string, id: string)
    requires Get(item, "zone_id") == Str(zoneId) && Get(item, "id") == Str(id)
    requires SlashFree(zoneId) && SlashFree(id)
    ensures LoadFunction(PathParser(PathGenerator(item))) == RecordSetApi.Get(Str(zoneId), Str(id))
  {
  }

  /** A zone id containing '/' breaks the round trip: the parser cuts the
      path at the zone id's own '/'. */
  lemma SlashInZoneIdBreaksRoundTrip()
    ensures PathParser(PathGenerator(map["zone_id" := Str("a/b"), "id" := Str("c")])).zoneId == Str("a")
  {
    var path := PathGenerator(map["zone_id" := Str("a/b"), "id" := Str("c")]);
    assert path == "a" + ['/'] + "b/c";
    SplitAfter("a", '/', "b/c");
  }
}
