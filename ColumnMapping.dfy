/** What the two column-mapping stores share: the record `saveColumnMapping`
    writes, its `''`/`[]` defaulting, the `boardId-<id>` key, and the
    variable entries of the configuration file. */
module ColumnMapping {
  import opened Js

  /** A normalised column mapping. Fields keep whatever truthy value the
      request carried; falsy ones were replaced by `''` or `[]`. */
  datatype Mapping = Mapping(
    to: JsValue, cc: JsValue, bcc: JsValue,
    subject: JsValue, bodyTemplate: JsValue, attachments: JsValue, variables: JsValue)

  /** `x || ''`. */
  function OrEmpty(x: JsValue): (r: JsValue)
    ensures Truthy(x) ==> r == x
    ensures !Truthy(x) ==> r == Str("")
  {
    if Truthy(x) then x else Str("")
  }

  /** `x || []`. */
  function OrList(x: JsValue): (r: JsValue)
    ensures Truthy(r)
    ensures Truthy(x) ==> r == x
  {
    if Truthy(x) then x else Arr([])
  }

  /** `v?.key`: `undefined` for a nullish `v`. */
  function OptionalGet(v: JsValue, key: string): JsValue {
    if IsNullish(v) then Undefined else Get(v, key)
  }

  /** The record `saveColumnMapping` builds from `mappingData`, in both
      stores. A nullish `mappingData` makes `mappingData.emails` throw. */
  function Normalize(data: JsValue): (r: Result<Mapping>)
    ensures r.Err? <==> IsNullish(data)
  {
    if IsNullish(data) then Err(TypeError)
    else
      var emails := Get(data, "emails");
      Ok(Mapping(
        OrEmpty(OptionalGet(emails, "to")), OrEmpty(OptionalGet(emails, "cc")), OrEmpty(OptionalGet(emails, "bcc")),
        OrEmpty(Get(data, "subject")), OrEmpty(Get(data, "bodyTemplate")), OrEmpty(Get(data, "attachments")),
        OrList(Get(data, "variables"))))
  }

  /** A mapping as the object it is stored as. */
  function AsObject(m: Mapping): JsValue {
    Obj(map[
      "emails" := Obj(map["to" := m.to, "cc" := m.cc, "bcc" := m.bcc]),
      "subject" := m.subject, "bodyTemplate" := m.bodyTemplate,
      "attachments" := m.attachments, "variables" := m.variables])
  }

  /** Every string field is truthy or `''`, and `variables` is truthy. */
  predicate IsNormal(m: Mapping) {
    && (Truthy(m.to) || m.to == Str("")) && (Truthy(m.cc) || m.cc == Str("")) && (Truthy(m.bcc) || m.bcc == Str(""))
    && (Truthy(m.subject) || m.subject == Str("")) && (Truthy(m.bodyTemplate) || m.bodyTemplate == Str(""))
    && (Truthy(m.attachments) || m.attachments == Str(""))
    && Truthy(m.variables)
  }

  /** Normalisation yields a normal record, every field either the request's
      truthy value or its default. */
  lemma NormalizeIsNormal(data: JsValue)
    requires !IsNullish(data)
    ensures IsNormal(Normalize(data).value)
    ensures var m := Normalize(data).value;
      && (Truthy(Get(data, "subject")) ==> m.subject == Get(data, "subject"))
      && (!Truthy(Get(data, "subject")) ==> m.subject == Str(""))
      && (Truthy(Get(data, "bodyTemplate")) ==> m.bodyTemplate == Get(data, "bodyTemplate"))
      && (!Truthy(Get(data, "bodyTemplate")) ==> m.bodyTemplate == Str(""))
      && (Truthy(Get(data, "attachments")) ==> m.attachments == Get(data, "attachments"))
      && (!Truthy(Get(data, "attachments")) ==> m.attachments == Str(""))
      && (Truthy(Get(data, "variables")) ==> m.variables == Get(data, "variables"))
      && (!Truthy(Get(data, "variables")) ==> m.variables == Arr([]))
    ensures var m := Normalize(data).value;
      var emails := Get(data, "emails");
      && m.to == OrEmpty(OptionalGet(emails, "to"))
      && m.cc == OrEmpty(OptionalGet(emails, "cc"))
      && m.bcc == OrEmpty(OptionalGet(emails, "bcc"))
      && (IsNullish(emails) ==> m.to == Str("") && m.cc == Str("") && m.bcc == Str(""))
      && (!IsNullish(emails) && Truthy(Get(emails, "to")) ==> m.to == Get(emails, "to"))
      && (!IsNullish(emails) && !Truthy(Get(emails, "to")) ==> m.to == Str(""))
  {
  }

  /** Normalising a normal record changes nothing. */
  lemma NormalizeNormal(m: Mapping)
    requires IsNormal(m)
    ensures Normalize(AsObject(m)) == Ok(m)
  {
  }

  /** Normalisation is idempotent. */
  lemma NormalizeIdempotent(data: JsValue)
    requires !IsNullish(data)
    ensures Normalize(AsObject(Normalize(data).value)) == Normalize(data)
  {
    NormalizeIsNormal(data);
    NormalizeNormal(Normalize(data).value);
  }

  /** The mapping of a board nothing was saved for. */
  const DefaultMapping := Mapping(Str(""), Str(""), Str(""), Str(""), Str(""), Str(""), Arr([]))

  /** The default is what saving an empty request would store. */
  lemma DefaultIsEmptyRequest()
    ensures Normalize(Obj(map[])) == Ok(DefaultMapping)
  {
  }

  /** The Dynamo item key and the Firestore document id of a board. */
  function DocumentKey(boardId: string): (k: string)
    ensures |k| == |boardId| + 8 && k[..8] == "boardId-" && k[8..] == boardId
  {
    "boardId-" + boardId
  }

  /** Distinct boards have distinct keys. */
  lemma DocumentKeyInjective(a: string, b: string)
    requires DocumentKey(a) == DocumentKey(b)
    ensures a == b
  {
    assert a == DocumentKey(a)[8..];
  }

  /** What both `getColumnMapping`s return: the board id with the fields. */
  datatype MappingView = MappingView(boardId: string, mapping: Mapping)

  // --- the configuration file's variables -------------------------------------

  /** An entry `key: { id, title }` of a board's `variables` object, in the
      order `Object.entries` lists it. */
  datatype VariableEntry = VariableEntry(key: string, id: string, title: string)

  /** An element of the `variables` list the two `getVariables` return. */
  datatype FormattedVariable = FormattedVariable(variableName: string, columnId: string, columnTitle: string)

  /** The title reported for a column that was not found. */
  function NotFoundTitle(title: string): string {
    "Title not found (original: " + title + ")"
  }
}
