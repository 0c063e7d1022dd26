/** The older, single-board variable listing (`src/utils/getVariables.js`):
    it reads `variables`, `emails`, `subject` and `bodyTemplate` from the top
    level of the configuration and looks each variable's column up among
    the column values of an item. */
module FlatVariables {
  import opened Js
  import opened ColumnMapping
  import opened GetData

  /** The top level of the configuration. `variables` is `None` when the
      configuration has no top-level `variables` (as when it nests them
      under `boards`). */
  datatype FlatConfig = FlatConfig(emails: JsValue, subject: JsValue, bodyTemplate: JsValue, variables: Option<seq<VariableEntry>>)

  /** A column value of an item, with its column's title. */
  datatype ColumnValueRef = ColumnValueRef(id: string, columnTitle: string)

  /** `items` of a response: `None` when the property is absent; each item is
      `None` when nullish, else its column values. */
  type ItemsProperty = Option<seq<Option<seq<ColumnValueRef>>>>

  /** What `getVariables` returns. */
  datatype FlatMapping = FlatMapping(emails: JsValue, subject: JsValue, bodyTemplate: JsValue, variables: seq<FormattedVariable>)

  /** The column title of the first column value with the given id. */
  function FindValueTitle(cvs: seq<ColumnValueRef>, id: string): (r: Option<string>)
    ensures r.None? <==> forall i :: 0 <= i < |cvs| ==> cvs[i].id != id
    ensures r.Some? ==>
      exists i :: 0 <= i < |cvs| && cvs[i].id == id && cvs[i].columnTitle == r.value
        && forall j :: 0 <= j < i ==> cvs[j].id != id
  {
    if |cvs| == 0 then None
    else if cvs[0].id == id then Some(cvs[0].columnTitle)
    else
      var r := FindValueTitle(cvs[1..], id);
      assert forall i :: 1 <= i < |cvs| ==> cvs[i] == cvs[1..][i - 1];
      r
  }

  /** One entry of the `map`: `name` keeps its configured title; any other
      key reads `items[0]`, which throws when `items` is absent, and is not
      found when the first item is missing or has no value with the id. */
  function FormatEntry(e: VariableEntry, items: ItemsProperty): (r: Result<FormattedVariable>)
    ensures r.Err? <==> e.key != "name" && items.None?
    ensures r.Err? ==> r.error == TypeError
    ensures r.Ok? ==> r.value.variableName == e.key && r.value.columnId == e.id
    ensures e.key == "name" ==> r == Ok(FormattedVariable(e.key, e.id, e.title))
  {
    if e.key == "name" then Ok(FormattedVariable(e.key, e.id, e.title))
    else if items.None? then Err(TypeError)
    else
      var first := if |items.value| == 0 then None else items.value[0];
      var found := if first.Some? then FindValueTitle(first.value, e.id) else None;
      Ok(FormattedVariable(e.key, e.id, if found.Some? then found.value else NotFoundTitle(e.title)))
  }

  /** The whole `map`, which stops at the first entry that throws. */
  function FormatAll(entries: seq<VariableEntry>, items: ItemsProperty): (r: Result<seq<FormattedVariable>>)
    ensures r.Err? <==> exists i :: 0 <= i < |entries| && FormatEntry(entries[i], items).Err?
    ensures r.Err? ==> r.error == TypeError
    ensures r.Ok? ==> |r.value| == |entries| && forall i :: 0 <= i < |entries| ==> FormatEntry(entries[i], items) == Ok(r.value[i])
  {
    if |entries| == 0 then Ok([])
    else
      var head := FormatEntry(entries[0], items);
      if head.Err? then Err(head.error)
      else
        var tail := FormatAll(entries[1..], items);
        assert forall i :: 1 <= i < |entries| ==> entries[i] == entries[1..][i - 1];
        if tail.Err? then Err(tail.error) else Ok([head.value] + tail.value)
  }

  /** `getVariables` given the `items` property of what was fetched (an
      error of the fetch propagates, there being no `catch`). */
  function GetFlatVariables(config: FlatConfig, fetched: Result<ItemsProperty>): (r: Result<FlatMapping>)
    ensures fetched.Err? ==> r == Err(fetched.error)
    ensures fetched.Ok? && config.variables.None? ==> r == Err(TypeError)
    ensures r.Ok? ==>
      && fetched.Ok? && config.variables.Some?
      && r.value.emails == config.emails && r.value.subject == config.subject && r.value.bodyTemplate == config.bodyTemplate
      && FormatAll(config.variables.value, fetched.value) == Ok(r.value.variables)
  {
    if fetched.Err? then Err(fetched.error)
    else if config.variables.None? then Err(TypeError)
    else
      var vs := FormatAll(config.variables.value, fetched.value);
      if vs.Err? then Err(vs.error)
      else Ok(FlatMapping(config.emails, config.subject, config.bodyTemplate, vs.value))
  }

  /** `getVariables` as written: `getColumnsList` returns an array of
      columns, which has no `items` property. */
  function GetFlatVariablesAsWritten(config: FlatConfig, fetched: Result<seq<BoardColumn>>): (r: Result<FlatMapping>)
    ensures fetched.Err? ==> r == Err(fetched.error)
  {
    GetFlatVariables(config, if fetched.Ok? then Ok(None) else Err(fetched.error))
  }

  /** As written, any variable other than `name` makes the call throw, and
      only a configuration made of `name` alone succeeds. */
  lemma AsWrittenThrowsOnColumns(config: FlatConfig, cols: seq<BoardColumn>)
    requires config.variables.Some?
    ensures GetFlatVariablesAsWritten(config, Ok(cols)).Err? <==>
      exists i :: 0 <= i < |config.variables.value| && config.variables.value[i].key != "name"
  {
  }

  /** With the variables nested under `boards`, as the shipped configuration
      has them, the call always throws. */
  lemma NestedConfigThrows(config: FlatConfig, fetched: Result<ItemsProperty>)
    requires config.variables.None?
    ensures GetFlatVariables(config, fetched).Err?
  {
  }

  /** Given the item's column values, every variable is reported, in order:
      `name` with its configured title, any other with the title of the
      first item's column of that id, or the not-found text. */
  lemma {:induction false} FlatTitles(config: FlatConfig, items: seq<Option<seq<ColumnValueRef>>>, i: int)
    requires config.variables.Some? && 0 <= i < |config.variables.value|
    ensures GetFlatVariables(config, Ok(Some(items))).Ok?
    ensures var e := config.variables.value[i];
      var v := GetFlatVariables(config, Ok(Some(items))).value.variables[i];
      && v.variableName == e.key && v.columnId == e.id
      && (e.key == "name" ==> v.columnTitle == e.title)
      && (e.key != "name" && (|items| == 0 || items[0].None?) ==> v.columnTitle == NotFoundTitle(e.title))
      && (e.key != "name" && |items| > 0 && items[0].Some? && FindValueTitle(items[0].value, e.id).Some? ==>
            v.columnTitle == FindValueTitle(items[0].value, e.id).value)
      && (e.key != "name" && |items| > 0 && items[0].Some? && FindValueTitle(items[0].value, e.id).None? ==>
            v.columnTitle == NotFoundTitle(e.title))
  {
    var vs := FormatAll(config.variables.value, Some(items));
    assert vs.Ok?;
    assert FormatEntry(config.variables.value[i], Some(items)) == Ok(vs.value[i]);
  }
}
