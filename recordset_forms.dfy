/**
 * The record set create/update form: one configuration built by
 * `getCreateUpdateFormConfig(readonly)`, where `readonly` locks the type
 * and name on update.
 */
module RecordSetForms {
  import opened Json
  import opened SchemaForm
  import RecordSetTypes

  /** The constraints the schema puts on the model. */
  datatype Schema = Schema(nameMustEndInDot: bool, typeEnum: seq<string>, ttlMin: int, ttlMax: int,
                           recordsMinItems: nat, recordsUnique: bool)

  /** A form configuration; `title` is `None` until an action sets it. */
  datatype FormConfig = FormConfig(title: Option<string>, schema: Schema, form: seq<Entry>, model: Object)

  /** `editableTypes.map(...)`: each editable type with its typeMap label. */
  function TypeChoices(): (choices: seq<Choice>)
    ensures |choices| == |RecordSetTypes.EditableTypes|
    ensures forall i :: 0 <= i < |choices| ==>
      choices[i] == Choice(RecordSetTypes.EditableTypes[i], RecordSetTypes.TypeLabel(RecordSetTypes.EditableTypes[i]))
  {
    var types := RecordSetTypes.EditableTypes;
    seq(|types|, i requires 0 <= i < |types| => Choice(types[i], RecordSetTypes.TypeLabel(types[i])))
  }

  /** Every choice of the type select has a label. */
  lemma TypeChoicesLabelled()
    ensures forall c :: c in TypeChoices() ==> c.name.Some?
  {
    RecordSetTypes.EditableTypesAreLabelled();
  }

  /** The form entries; `readonly` goes to type and name. */
  function FormEntries(readonly: bool): seq<Entry>
  {
    [
      Entry("type", "select", Some(readonly), true, None, TypeChoices()),
      Entry("name", "text", Some(readonly), true, None, []),
      Entry("description", "textarea", None, false, None, []),
      Entry("ttl", "number", None, true, None, []),
      Entry("records", "array", None, true, None, [])
    ]
  }

  /** Which entries carry the readonly flag. */
  lemma EntryFacts(readonly: bool)
    ensures ReadonlyKeys(FormEntries(readonly)) == {"type", "name"}
    ensures forall e :: e in FormEntries(readonly) && e.readonly.Some? ==> e.readonly == Some(readonly)
  {
    var form := FormEntries(readonly);
    forall i | 0 <= i < |form|
      ensures form[i].readonly.Some? <==> i < 2
      ensures form[i].readonly.Some? ==> form[i].readonly == Some(readonly)
    {
      if i == 0 {} else if i == 1 {} else if i == 2 {} else if i == 3 {} else {}
    }
    assert form[0].key == "type" && form[1].key == "name";
  }

  /** The schema both forms use. */
  const FormSchema: Schema := Schema(true, RecordSetTypes.EditableTypes, 1, MaxTtl, 1, true)

  /** The model both forms start from. */
  const DefaultModel: Object := map["type" := Str("A"), "ttl" := Num(3600)]

  lemma DefaultModelMeetsSchema()
    ensures ModelValid(FormSchema, DefaultModel)
  {
    assert RecordSetTypes.EditableTypes[0] == "A";
  }

  /** `getCreateUpdateFormConfig(readonly)`: its default model meets its
      own schema. */
  function CreateUpdateFormConfig(readonly: bool): (config: FormConfig)
    ensures config.title == None
    ensures config.schema == FormSchema && config.model == DefaultModel
    ensures ModelValid(config.schema, config.model)
    ensures config.schema.typeEnum == RecordSetTypes.EditableTypes
    ensures config.schema.ttlMin == 1 && config.schema.ttlMax == MaxTtl
    ensures config.schema.nameMustEndInDot && config.schema.recordsMinItems == 1 && config.schema.recordsUnique
    ensures config.model == map["type" := Str("A"), "ttl" := Num(3600)]
    ensures config.form == FormEntries(readonly) && |config.form| == 5
    ensures ReadonlyKeys(config.form) == {"type", "name"}
    ensures forall e :: e in config.form && e.readonly.Some? ==> e.readonly == Some(readonly)
    ensures config.form[0].key == "type" && config.form[0].titleMap == TypeChoices()
  {
    EntryFacts(readonly);
    DefaultModelMeetsSchema();
    FormConfig(None, FormSchema, FormEntries(readonly), DefaultModel)
  }

  /** The create form: nothing is read-only. */
  function CreateFormConfig(): (config: FormConfig)
    ensures forall e :: e in config.form ==> e.readonly != Some(true)
  {
    EntryFacts(false);
    CreateUpdateFormConfig(false)
  }

  /** The update form: the type and name are read-only, and nothing else is. */
  function UpdateFormConfig(): (config: FormConfig)
    ensures forall e :: e in config.form ==> (e.readonly == Some(true) <==> e.key in {"type", "name"})
  {
    UpdateReadonly();
    CreateUpdateFormConfig(true)
  }

  lemma UpdateReadonly()
    ensures forall e :: e in FormEntries(true) ==> (e.readonly == Some(true) <==> e.key in {"type", "name"})
  {
    var form := FormEntries(true);
    forall e | e in form
      ensures e.readonly == Some(true) <==> e.key in {"type", "name"}
    {
      var i :| 0 <= i < |form| && form[i] == e;
      assert i in {0, 1, 2, 3, 4};
    }
  }

  /** The create and update forms are the same form except for the readonly
      flag, which only the type and name entries carry. */
  lemma CreateAndUpdateDifferOnlyInReadonly()
    ensures CreateFormConfig().schema == UpdateFormConfig().schema
    ensures CreateFormConfig().model == UpdateFormConfig().model
    ensures |CreateFormConfig().form| == |UpdateFormConfig().form|
    ensures forall i :: 0 <= i < |CreateFormConfig().form| ==>
      CreateFormConfig().form[i] == WithReadonly(UpdateFormConfig().form[i], false)
    ensures ReadonlyKeys(UpdateFormConfig().form) == {"type", "name"}
  {
    var cf, uf := FormEntries(false), FormEntries(true);
    assert CreateFormConfig().form == cf && UpdateFormConfig().form == uf;
    forall i | 0 <= i < |cf| ensures cf[i] == WithReadonly(uf[i], false) {
      if i == 0 {} else if i == 1 {} else if i == 2 {} else if i == 3 {} else {}
    }
  }

  /** A list item of the records array: an object whose `record`, if any, is a string. */
  predicate RecordItem(v: Value)
  {
    v.Obj? && ("record" in v.fields ==> v.fields["record"].Str?)
  }

  /** A model the schema accepts. JSON schema only constrains the
      properties that are present. */
  predicate ModelValid(schema: Schema, model: Object)
  {
    ("name" in model ==> model["name"].Str? && (schema.nameMustEndInDot ==> EndsInDot(model["name"].s)))
    && ("description" in model ==> model["description"].Str?)
    && ("type" in model ==> model["type"].Str? && model["type"].s in schema.typeEnum)
    && ("ttl" in model ==> IntegerIn(model["ttl"], schema.ttlMin, schema.ttlMax))
    && ("records" in model ==> RecordsValid(schema, model["records"]))
  }

  predicate RecordsValid(schema: Schema, records: Value)
  {
    records.Arr? && |records.items| >= schema.recordsMinItems
    && (schema.recordsUnique ==> NonEmptyUnique(records.items))
    && forall i :: 0 <= i < |records.items| ==> RecordItem(records.items[i])
  }

  /** A name the schema accepts ends in '.' after at least one other character. */
  lemma ValidNameEndsInDot(model: Object)
    requires ModelValid(FormSchema, model)
    requires "name" in model
    ensures model["name"].Str? && |model["name"].s| >= 2 && model["name"].s[|model["name"].s| - 1] == '.'
  {
  }
}
