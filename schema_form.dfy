/**
 * The parts of an angular-schema-form configuration the dashboard's create
 * and update forms rely on: the form entries (key, widget, readonly flag,
 * display condition, choices) and the schema constraints on the model.
 * Titles, descriptions and placeholders are display text and are left out.
 */
module SchemaForm {
  import opened Json

  /** One choice of a select widget: the stored value and its label
      (`None` where the label lookup yields `undefined`). */
  datatype Choice = Choice(value: string, name: Option<string>)

  /** One form entry. `readonly` is `None` where the entry has no readonly
      property; `condition` is the expression that shows the entry. */
  datatype Entry = Entry(key: string, widget: string, readonly: Option<bool>, required: bool,
                         condition: Option<string>, titleMap: seq<Choice>)

  /** The entry as `getModel` sees it: an object whose `key` is the entry's key. */
  function AsObject(e: Entry): (o: Object)
    ensures o == map["key" := Str(e.key)]
  {
    map["key" := Str(e.key)]
  }

  function AsObjects(form: seq<Entry>): (objs: seq<Object>)
    ensures |objs| == |form|
    ensures forall i :: 0 <= i < |form| ==> objs[i] == AsObject(form[i])
  {
    seq(|form|, i requires 0 <= i < |form| => AsObject(form[i]))
  }

  /** The entry with its readonly flag set to `r`, if it has one. */
  function WithReadonly(e: Entry, r: bool): Entry
  {
    if e.readonly.Some? then e.(readonly := Some(r)) else e
  }

  /** The keys of the entries that carry a readonly flag. */
  function ReadonlyKeys(form: seq<Entry>): set<string>
  {
    set i | 0 <= i < |form| && form[i].readonly.Some? :: form[i].key
  }

  /** A character JavaScript's `.` does not match. */
  predicate IsLineTerminator(c: char)
  {
    c == '\n' || c == '\r' || c == '\U{2028}' || c == '\U{2029}'
  }

  /** `/^.+\.$/.test(s)`: at least one character before a final '.', and no line terminator. */
  predicate EndsInDot(s: string)
  {
    |s| >= 2 && s[|s| - 1] == '.' && forall i :: 0 <= i < |s| - 1 ==> !IsLineTerminator(s[i])
  }

  /** A JSON-schema `integer` between `min` and `max`. */
  predicate IntegerIn(v: Value, min: int, max: int)
  {
    v.Num? && min <= v.n <= max
  }

  /** JSON-schema `minItems: 1, uniqueItems: true` over a list of values. */
  predicate NonEmptyUnique(items: seq<Value>)
  {
    |items| >= 1 && forall i, j :: 0 <= i < j < |items| ==> items[i] != items[j]
  }

  /** The largest TTL either schema accepts: 2^31 - 1. */
  const MaxTtl: int := 2147483647
}
