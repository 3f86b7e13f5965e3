/**
 * The zone create/update form: one configuration built by
 * `getCreateUpdateFormConfig(readonly)`, where `readonly` locks the name,
 * type and masters on update.
 */
module ZoneForms {
  import opened Json
  import opened SchemaForm

  const PrimaryOnly: string := "model.type == 'PRIMARY'"
  const SecondaryOnly: string := "model.type == 'SECONDARY'"

  /** The constraints the schema puts on the model; `emailFormat` is the
      named format the email must also have. */
  datatype Schema = Schema(nameMustEndInDot: bool, emailFormat: string, typeEnum: seq<string>, ttlMin: int, ttlMax: int,
                           mastersMinItems: nat, mastersUnique: bool)

  /** A form configuration; `title` is `None` until an action sets it. */
  datatype FormConfig = FormConfig(title: Option<string>, schema: Schema, form: seq<Entry>, model: Object)

  /** The form entries; `readonly` goes to name, type and masters. */
  function FormEntries(readonly: bool): seq<Entry>
  {
    [
      Entry("name", "text", Some(readonly), true, None, []),
      Entry("description", "textarea", None, false, None, []),
      Entry("email", "text", None, true, Some(PrimaryOnly), []),
      Entry("ttl", "number", None, true, Some(PrimaryOnly), []),
      Entry("type", "select", Some(readonly), false, None,
            [Choice("PRIMARY", Some("Primary")), Choice("SECONDARY", Some("Secondary"))]),
      Entry("masters", "array", Some(readonly), false, Some(SecondaryOnly), [])
    ]
  }

  /** The schema both forms use. */
  const FormSchema: Schema := Schema(true, "email", ["PRIMARY", "SECONDARY"], 1, MaxTtl, 1, true)

  /** The model both forms start from: a primary zone with a TTL of one hour. */
  const DefaultModel: Object := map["type" := Str("PRIMARY"), "ttl" := Num(3600)]

  lemma DefaultModelMeetsSchema()
    ensures forall isFormat: (string, string) -> bool :: ModelValid(FormSchema, DefaultModel, isFormat)
  {
  }

  /** `getCreateUpdateFormConfig(readonly)`: its default model meets its
      own schema, whatever the validator's email format accepts. */
  function CreateUpdateFormConfig(readonly: bool): (config: FormConfig)
    ensures config.title == None
    ensures config.schema == FormSchema && config.model == DefaultModel
    ensures config.schema.emailFormat == "email"
    ensures forall isFormat: (string, string) -> bool ::
              ModelValid(config.schema, config.model, isFormat)
    ensures config.schema.typeEnum == ["PRIMARY", "SECONDARY"]
    ensures config.schema.ttlMin == 1 && config.schema.ttlMax == MaxTtl
    ensures config.model == map["type" := Str("PRIMARY"), "ttl" := Num(3600)]
    ensures config.form == FormEntries(readonly)
    ensures ReadonlyKeys(config.form) == {"name", "type", "masters"}
    ensures forall e :: e in config.form && e.readonly.Some? ==> e.readonly == Some(readonly)
    ensures forall e :: e in config.form && e.key in {"email", "ttl"} ==> e.condition == Some(PrimaryOnly)
    ensures forall e :: e in config.form && e.key == "masters" ==> e.condition == Some(SecondaryOnly)
    ensures forall e :: e in config.form && e.key !in {"email", "ttl", "masters"} ==> e.condition == None
  {
    var form := FormEntries(readonly);
    EntryFacts(readonly);
    DefaultModelMeetsSchema();
    FormConfig(None, FormSchema, form, DefaultModel)
  }

  /** Which entries carry the readonly flag and which a condition. */
  lemma EntryFacts(readonly: bool)
    ensures ReadonlyKeys(FormEntries(readonly)) == {"name", "type", "masters"}
    ensures forall e :: e in FormEntries(readonly) && e.readonly.Some? ==> e.readonly == Some(readonly)
    ensures forall e :: e in FormEntries(readonly) && e.key in {"email", "ttl"} ==> e.condition == Some(PrimaryOnly)
    ensures forall e :: e in FormEntries(readonly) && e.key == "masters" ==> e.condition == Some(SecondaryOnly)
    ensures forall e :: e in FormEntries(readonly) && e.key !in {"email", "ttl", "masters"} ==> e.condition == None
  {
    var form := FormEntries(readonly);
    assert ReadonlyKeys(form) == {"name", "type", "masters"} by {
      assert form[0].readonly.Some? && form[4].readonly.Some? && form[5].readonly.Some?;
    }
    forall e | e in form
      ensures e.readonly.Some? ==> e.readonly == Some(readonly)
      ensures e.key in {"email", "ttl"} ==> e.condition == Some(PrimaryOnly)
      ensures e.key == "masters" ==> e.condition == Some(SecondaryOnly)
      ensures e.key !in {"email", "ttl", "masters"} ==> e.condition == None
    {
      var i :| 0 <= i < |form| && form[i] == e;
      assert i in {0, 1, 2, 3, 4, 5};
    }
  }

  /** The create form: nothing is read-only. */
  function CreateFormConfig(): (config: FormConfig)
    ensures forall e :: e in config.form ==> e.readonly != Some(true)
  {
    EntryFacts(false);
    CreateUpdateFormConfig(false)
  }

  /** The update form: the name, type and masters are read-only, and
      nothing else is. */
  function UpdateFormConfig(): (config: FormConfig)
    ensures forall e :: e in config.form ==> (e.readonly == Some(true) <==> e.key in {"name", "type", "masters"})
  {
    UpdateReadonly();
    CreateUpdateFormConfig(true)
  }

  lemma UpdateReadonly()
    ensures forall e :: e in FormEntries(true) ==> (e.readonly == Some(true) <==> e.key in {"name", "type", "masters"})
  {
    var form := FormEntries(true);
    forall e | e in form
      ensures e.readonly == Some(true) <==> e.key in {"name", "type", "masters"}
    {
      var i :| 0 <= i < |form| && form[i] == e;
      assert i in {0, 1, 2, 3, 4, 5};
    }
  }

  /** The create and update forms differ only in the readonly flag of name, type and masters. */
  lemma CreateAndUpdateDifferOnlyInReadonly()
    ensures CreateFormConfig().schema == UpdateFormConfig().schema
    ensures CreateFormConfig().model == UpdateFormConfig().model
    ensures |CreateFormConfig().form| == |UpdateFormConfig().form|
    ensures forall i :: 0 <= i < |CreateFormConfig().form| ==>
      CreateFormConfig().form[i] == WithReadonly(UpdateFormConfig().form[i], false)
  {
    var cf, uf := FormEntries(false), FormEntries(true);
    assert CreateFormConfig().form == cf && UpdateFormConfig().form == uf;
    forall i | 0 <= i < |cf| ensures cf[i] == WithReadonly(uf[i], false) {
      if i == 0 {} else if i == 1 {} else if i == 2 {} else if i == 3 {} else if i == 4 {} else {}
    }
  }

  /** `/^[^@]+@[^@]+$/.test(s)`: exactly one '@', with text on both sides.
      (`[^@]` also matches line terminators.) */
  predicate EmailValid(s: string)
  {
    exists i :: 0 < i < |s| - 1 && s[i] == '@' && forall j :: 0 <= j < |s| && j != i ==> s[j] != '@'
  }

  /** The email pattern read as its three parts: non-'@' text, one '@', non-'@' text. */
  lemma EmailValidIff(s: string)
    ensures EmailValid(s) <==>
      exists local, domain :: s == local + "@" + domain && |local| > 0 && |domain| > 0
        && '@' !in local && '@' !in domain
  {
    if EmailValid(s) {
      var i :| 0 < i < |s| - 1 && s[i] == '@' && forall j :: 0 <= j < |s| && j != i ==> s[j] != '@';
      var local, domain := s[..i], s[i + 1..];
      assert s == local + "@" + domain;
      assert '@' !in local by {
        forall k | 0 <= k < |local| ensures local[k] != '@' { assert local[k] == s[k]; }
      }
      assert '@' !in domain by {
        forall k | 0 <= k < |domain| ensures domain[k] != '@' { assert domain[k] == s[i + 1 + k]; }
      }
    }
    if exists local, domain :: s == local + "@" + domain && |local| > 0 && |domain| > 0
        && '@' !in local && '@' !in domain {
      var local, domain :| s == local + "@" + domain && |local| > 0 && |domain| > 0
        && '@' !in local && '@' !in domain;
      var i := |local|;
      assert s[i] == '@';
      forall j | 0 <= j < |s| && j != i ensures s[j] != '@' {
        if j < i {
          assert s[j] == local[j];
        } else {
          assert s[j] == domain[j - i - 1];
        }
      }
    }
  }

  /** A model the schema accepts. JSON schema only constrains the
      properties that are present. `isFormat(format, s)` is the validator's
      check of a string against a named format. */
  predicate ModelValid(schema: Schema, model: Object, isFormat: (string, string) -> bool)
  {
    ("name" in model ==> model["name"].Str? && (schema.nameMustEndInDot ==> EndsInDot(model["name"].s)))
    && ("description" in model ==> model["description"].Str?)
    && ("email" in model ==> model["email"].Str? && EmailValid(model["email"].s) && isFormat(schema.emailFormat, model["email"].s))
    && ("type" in model ==> model["type"].Str? && model["type"].s in schema.typeEnum)
    && ("ttl" in model ==> IntegerIn(model["ttl"], schema.ttlMin, schema.ttlMax))
    && ("masters" in model ==> MastersValid(schema, model["masters"]))
  }

  predicate MastersValid(schema: Schema, masters: Value)
  {
    masters.Arr? && |masters.items| >= schema.mastersMinItems
    && (schema.mastersUnique ==> NonEmptyUnique(masters.items))
    && forall i :: 0 <= i < |masters.items| ==>
         masters.items[i].Obj? && ("address" in masters.items[i].fields ==> masters.items[i].fields["address"].Str?)
  }
}
