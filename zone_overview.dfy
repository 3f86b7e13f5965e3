/**
 * The zone details overview controller: it shows the zone the details view
 * loaded, with the zone's `attributes` object flattened into one display
 * string.
 */
module ZoneOverview {
  import opened Json

  /** An object's own properties in `Object.keys` order. */
  type Properties = seq<(string, Value)>

  /** The properties list exactly the fields of `obj`, each key once. */
  predicate Lists(props: Properties, obj: Object)
  {
    && (forall i, j :: 0 <= i < j < |props| ==> props[i].0 != props[j].0)
    && (forall i :: 0 <= i < |props| ==> props[i].0 in obj && obj[props[i].0] == props[i].1)
    && (forall k :: k in obj ==> exists i :: 0 <= i < |props| && props[i].0 == k)
  }

  /** One attribute's part of the display string. */
  function Segment(p: (string, Value)): string
  {
    p.0 + ":" + ToStr(p.1) + ", "
  }

  /** The display string: one segment per attribute, last key first. */
  function AttributesString(props: Properties): (s: string)
    ensures props == [] ==> s == ""
    decreases |props|
  {
    if props == [] then ""
    else Segment(props[|props| - 1]) + AttributesString(props[..|props| - 1])
  }

  /** Reversal of the order: the attributes of `a + b` show `b`'s first. */
  lemma {:induction false} AttributesStringAppend(a: Properties, b: Properties)
    ensures AttributesString(a + b) == AttributesString(b) + AttributesString(a)
    decreases |b|
  {
    if b == [] {
      assert a + b == a;
    } else {
      var last := b[|b| - 1];
      var init := b[..|b| - 1];
      assert a + b == (a + init) + [last];
      assert (a + b)[..|a + b| - 1] == a + init;
      AttributesStringAppend(a, init);
    }
  }

  /** Each attribute contributes exactly one segment: the string's length
      is the sum of the segments' lengths. */
  function SegmentsLength(props: Properties): (n: nat)
  {
    if props == [] then 0 else |Segment(props[0])| + SegmentsLength(props[1..])
  }

  lemma {:induction false} AttributesStringLength(props: Properties)
    ensures |AttributesString(props)| == SegmentsLength(props)
    decreases |props|
  {
    if props != [] {
      AttributesStringAppend([props[0]], props[1..]);
      assert [props[0]] + props[1..] == props;
      AttributesStringLength(props[1..]);
      assert AttributesString([props[0]]) == Segment(props[0]) by {
        assert [props[0]][..0] == [];
      }
    }
  }

  /** The own properties of a string or an array: one per index, keyed by
      the index in decimal, holding that character or element. */
  function IndexProperties(v: Value): (props: Properties)
    requires v.Str? || v.Arr?
    ensures v.Str? ==> |props| == |v.s|
    ensures v.Arr? ==> |props| == |v.items|
  {
    if v.Str? then seq(|v.s|, i requires 0 <= i < |v.s| => (NatToDecimal(i), Str([v.s[i]])))
    else seq(|v.items|, i requires 0 <= i < |v.items| => (NatToDecimal(i), v.items[i]))
  }

  /**
   * `Object.keys(v)` paired with `v[key]`: `None` where `v` is `null` or
   * `undefined` and `Object.keys` throws; the indices of a string or an
   * array; nothing for a number or a boolean, which have no own
   * enumerable properties; for an object, `objectOrder`, its keys in the
   * order `Object.keys` gives them (integer-like keys first, ascending,
   * then the others in creation order), passed in as a parameter.
   */
  function OwnProperties(v: Value, objectOrder: Properties): (r: Option<Properties>)
    requires v.Obj? ==> Lists(objectOrder, v.fields)
    ensures r.None? <==> IsNullish(v)
    ensures v.Obj? ==> r == Some(objectOrder) && Lists(r.value, v.fields)
    ensures (v.Str? || v.Arr?) ==> r == Some(IndexProperties(v))
    ensures (v.Num? || v.NaN? || v.Bool?) ==> r == Some([])
  {
    match v
    case Undefined => None
    case Null => None
    case Obj(_) => Some(objectOrder)
    case Str(_) => Some(IndexProperties(v))
    case Arr(_) => Some(IndexProperties(v))
    case _ => Some([])
  }

  /** The handler neither throws on nor shows anything for attributes
      that are a number or a boolean. */
  lemma ScalarAttributesShowEmpty(v: Value, objectOrder: Properties)
    requires v.Num? || v.NaN? || v.Bool?
    ensures OwnProperties(v, objectOrder).Some?
    ensures AttributesString(OwnProperties(v, objectOrder).value) == ""
  {
  }

  /** A string's characters are shown by index, last first: the
      attributes `"ab"` show as `1:b, 0:a, `. */
  lemma StringAttributesShown(objectOrder: Properties)
    ensures OwnProperties(Str("ab"), objectOrder) == Some([("0", Str("a")), ("1", Str("b"))])
    ensures AttributesString(OwnProperties(Str("ab"), objectOrder).value) == "1:b, 0:a, "
  {
    var props := IndexProperties(Str("ab"));
    assert props[0] == ("0", Str("a"));
    assert props[1] == ("1", Str("b"));
    assert props == [("0", Str("a")), ("1", Str("b"))];
    assert props[..1] == [("0", Str("a"))];
    assert props[..1][..0] == [];
  }

  class OverviewController {
    /** `ctrl.item`: the zone shown, an empty object until the load settles. */
    var item: Value

    constructor ()
      ensures item == Obj(map[])
    {
      item := Obj(map[]);
    }

    /**
     * `onGetResponse(response)` on the loaded zone `data`: shows it, with
     * `attributes` replaced by the display string of its own properties.
     * Reading `attributes` of a `null` or `undefined` `data` throws, and so
     * does `Object.keys` of a `null` or `undefined` `attributes` (any
     * `data` that is not an object has `undefined` there); `data` is then
     * left showing as it is. `objectOrder` is the order `Object.keys`
     * gives the attributes' properties when they are an object.
     */
    method OnGetResponse(data: Value, objectOrder: Properties) returns (crashed: bool)
      requires data.Obj? && Get(data.fields, "attributes").Obj?
               ==> Lists(objectOrder, Get(data.fields, "attributes").fields)
      modifies this
      ensures crashed <==> Prop(data, "attributes").None? || IsNullish(Prop(data, "attributes").value)
      ensures crashed <==> !data.Obj? || IsNullish(Get(data.fields, "attributes"))
      ensures crashed ==> item == data
      ensures !crashed ==>
                var attributes := data.fields["attributes"];
                item == Obj(data.fields["attributes" := Str(AttributesString(OwnProperties(attributes, objectOrder).value))])
    {
      item := data;
      var attributes := Prop(data, "attributes");
      if attributes.None? {
        return true;
      }
      var keys := OwnProperties(attributes.value, objectOrder);
      if keys.None? {
        return true;
      }
      var props := keys.value;
      var attr := "";
      var i := |props| - 1;
      while i >= 0
        invariant -1 <= i < |props|
        invariant attr == AttributesString(props[i + 1..])
        decreases i
      {
        AttributesStringAppend([props[i]], props[i + 1..]);
        assert [props[i]] + props[i + 1..] == props[i..];
        assert AttributesString([props[i]]) == Segment(props[i]) by {
          assert [props[i]][..0] == [];
        }
        attr := attr + Segment(props[i]);
        i := i - 1;
      }
      assert props[0..] == props;
      item := Obj(data.fields["attributes" := Str(attr)]);
      crashed := false;
    }
  }
}
