/** The file-based column mapping (`src/utils/mappingVariables.js`): the
    configuration module `config/columnMapping.js`, read once when the
    program loads, lists per board the e-mail fields and the variables
    `key: { id, title }`; `getVariables` reports each variable with the
    title of its board column, `updateVariables` writes a new file. */
module MappingVariables {
  import opened Js
  import opened ColumnMapping
  import opened GetData

  /** A board's entry of the configuration. `variables` is `None` when the
      entry has none (or a falsy one), read as `{}`. */
  datatype BoardConfig = BoardConfig(emails: JsValue, subject: JsValue, bodyTemplate: JsValue, variables: Option<seq<VariableEntry>>)

  /** The configuration object: its `boards`, and whatever other top-level
      keys it has. */
  datatype MappingFile = MappingFile(boards: map<string, BoardConfig>, others: map<string, JsValue>)

  /** The entry `getVariables` uses for a board the file does not list. */
  const DefaultBoard := BoardConfig(Obj(map["to" := Str(""), "cc" := Str(""), "bcc" := Str("")]), Str(""), Str(""), Some([]))

  /** `columnMapping.boards[boardId]`, or the default entry. */
  function BoardOf(file: MappingFile, boardId: string): (r: BoardConfig)
    ensures boardId in file.boards ==> r == file.boards[boardId]
    ensures boardId !in file.boards ==> r == DefaultBoard
  {
    if boardId in file.boards then file.boards[boardId] else DefaultBoard
  }

  /** The title of the first column with the given id (`columns.find`). */
  function FindTitle(cols: seq<BoardColumn>, id: string): (r: Option<string>)
    ensures r.None? <==> forall i :: 0 <= i < |cols| ==> cols[i].id != id
    ensures r.Some? ==>
      exists i :: 0 <= i < |cols| && cols[i].id == id && cols[i].title == r.value
        && forall j :: 0 <= j < i ==> cols[j].id != id
  {
    if |cols| == 0 then None
    else if cols[0].id == id then Some(cols[0].title)
    else
      var r := FindTitle(cols[1..], id);
      assert forall i :: 1 <= i < |cols| ==> cols[i] == cols[1..][i - 1];
      r
  }

  /** The reported title of a variable, looking in `columns` when there is a
      column list to look in. */
  function ColumnTitle(entry: VariableEntry, columns: Option<seq<BoardColumn>>): string {
    if columns.Some? && FindTitle(columns.value, entry.id).Some? then FindTitle(columns.value, entry.id).value
    else NotFoundTitle(entry.title)
  }

  /** `Object.entries(variables).map(...)`: one report per entry, in order. */
  function FormatVariables(entries: seq<VariableEntry>, columns: Option<seq<BoardColumn>>): (r: seq<FormattedVariable>)
    ensures |r| == |entries|
    ensures forall i :: 0 <= i < |entries| ==>
      r[i].variableName == entries[i].key && r[i].columnId == entries[i].id
      && r[i].columnTitle == ColumnTitle(entries[i], columns)
  {
    if |entries| == 0 then []
    else
      [FormattedVariable(entries[0].key, entries[0].id, ColumnTitle(entries[0], columns))]
        + FormatVariables(entries[1..], columns)
  }

  /** What `getVariables` returns. */
  datatype BoardVariables = BoardVariables(boardId: string, emails: JsValue, subject: JsValue, bodyTemplate: JsValue, variables: seq<FormattedVariable>)

  const FetchErrorPrefix := "No se pudieron obtener los datos de mapeo de columnas. "

  /** `getVariables` given the outcome of the fetch. `Ok(c)` carries `c`, the
      `columns` property of what `getColumnsList` returned; an error of the
      fetch is rethrown with `FetchErrorPrefix`. */
  function GetVariablesFrom(file: MappingFile, boardId: string, columnsProperty: Result<Option<seq<BoardColumn>>>): (r: Result<BoardVariables>)
    ensures columnsProperty.Err? ==> r == Err(FetchErrorPrefix + columnsProperty.error)
    ensures columnsProperty.Ok? ==> r.Ok?
    ensures r.Ok? ==>
      && r.value.boardId == boardId
      && r.value.emails == BoardOf(file, boardId).emails
      && r.value.subject == BoardOf(file, boardId).subject
      && r.value.bodyTemplate == BoardOf(file, boardId).bodyTemplate
      && r.value.variables == FormatVariables(BoardOf(file, boardId).variables.GetOr([]), columnsProperty.value)
  {
    match columnsProperty
    case Err(e) => Err(FetchErrorPrefix + e)
    case Ok(columns) =>
      var board := BoardOf(file, boardId);
      Ok(BoardVariables(boardId, board.emails, board.subject, board.bodyTemplate,
                        FormatVariables(board.variables.GetOr([]), columns)))
  }

  /** `getVariables` as written: `getColumnsList` returns the column array
      itself, which has no `columns` property, so `dataColumns.columns?.find`
      never finds anything. */
  function GetVariablesAsWritten(file: MappingFile, boardId: string, fetched: Result<seq<BoardColumn>>): (r: Result<BoardVariables>)
    ensures fetched.Err? ==> r == Err(FetchErrorPrefix + fetched.error)
    ensures fetched.Ok? ==> r.Ok? && r.value.boardId == boardId
  {
    GetVariablesFrom(file, boardId, if fetched.Ok? then Ok(None) else Err(fetched.error))
  }

  /** `getVariables` as intended: the titles are looked up in the fetched
      column array. */
  function GetVariables(file: MappingFile, boardId: string, fetched: Result<seq<BoardColumn>>): (r: Result<BoardVariables>)
    ensures fetched.Err? ==> r == Err(FetchErrorPrefix + fetched.error)
    ensures fetched.Ok? ==> r.Ok? && r.value.boardId == boardId
  {
    GetVariablesFrom(file, boardId, if fetched.Ok? then Ok(Some(fetched.value)) else Err(fetched.error))
  }

  /** As written, every variable is reported as not found, whatever columns
      the board has. */
  lemma AsWrittenTitlesNotFound(file: MappingFile, boardId: string, cols: seq<BoardColumn>)
    ensures GetVariablesAsWritten(file, boardId, Ok(cols)).Ok?
    ensures var entries := BoardOf(file, boardId).variables.GetOr([]);
      var vs := GetVariablesAsWritten(file, boardId, Ok(cols)).value.variables;
      |vs| == |entries| && forall i :: 0 <= i < |vs| ==> vs[i].columnTitle == NotFoundTitle(entries[i].title)
  {
  }

  /** A concrete board whose variable's column exists but is reported as not
      found by the code as written, and found by the corrected lookup. */
  lemma AsWrittenMissesExistingColumn()
    ensures var file := MappingFile(map["1" := BoardConfig(Str(""), Str(""), Str(""), Some([VariableEntry("v", "c", "T")]))], map[]);
      var cols := [BoardColumn("c", "Title", "text")];
      && GetVariablesAsWritten(file, "1", Ok(cols)).value.variables[0].columnTitle == NotFoundTitle("T")
      && GetVariables(file, "1", Ok(cols)).value.variables[0].columnTitle == "Title"
  {
    var file := MappingFile(map["1" := BoardConfig(Str(""), Str(""), Str(""), Some([VariableEntry("v", "c", "T")]))], map[]);
    var cols := [BoardColumn("c", "Title", "text")];
    assert FindTitle(cols, "c") == Some("Title");
    AsWrittenTitlesNotFound(file, "1", cols);
  }

  /** With the corrected lookup, a variable reports the title of the board's
      first column with its id, and the not-found text exactly when the
      board has no such column. */
  lemma CorrectedTitles(file: MappingFile, boardId: string, cols: seq<BoardColumn>, i: int)
    requires 0 <= i < |BoardOf(file, boardId).variables.GetOr([])|
    ensures GetVariables(file, boardId, Ok(cols)).Ok?
    ensures var e := BoardOf(file, boardId).variables.GetOr([])[i];
      var v := GetVariables(file, boardId, Ok(cols)).value.variables[i];
      && v.variableName == e.key && v.columnId == e.id
      && ((forall k :: 0 <= k < |cols| ==> cols[k].id != e.id) <==> v.columnTitle == NotFoundTitle(e.title) && FindTitle(cols, e.id).None?)
      && (FindTitle(cols, e.id).Some? ==>
            exists k :: 0 <= k < |cols| && cols[k].id == e.id && cols[k].title == v.columnTitle)
  {
    var entries := BoardOf(file, boardId).variables.GetOr([]);
    var vs := FormatVariables(entries, Some(cols));
    assert GetVariables(file, boardId, Ok(cols)).value.variables == vs;
    assert vs[i].columnTitle == ColumnTitle(entries[i], Some(cols));
  }

  /** A board the file does not list reports empty fields and no variables. */
  lemma UnknownBoardIsEmpty(file: MappingFile, boardId: string, cols: seq<BoardColumn>)
    requires boardId !in file.boards
    ensures GetVariables(file, boardId, Ok(cols)) == Ok(BoardVariables(boardId, DefaultBoard.emails, Str(""), Str(""), []))
  {
  }

  // --- updateVariables ----------------------------------------------------------

  /** The `mappingData` of an update request; `attachments` is carried but
      not written. */
  datatype BoardUpdate = BoardUpdate(emails: JsValue, subject: JsValue, bodyTemplate: JsValue, attachments: JsValue, variables: Option<seq<VariableEntry>>)

  /** The file written and the reply. */
  datatype FileUpdate = FileUpdate(file: MappingFile, message: string)

  const UpdatedMessage := "Mapping updated successfully"
  const UpdateErrorPrefix := "Error al actualizar el mappingColumns: "

  /** `updateVariables`: a copy of the loaded configuration with this board's
      entry replaced. `data` is `None` for a nullish `mappingData`, whose
      property read throws; `writeError` is the error of `writeFileSync`, if
      any. */
  function UpdateVariables(loaded: MappingFile, boardId: string, data: Option<BoardUpdate>, writeError: Option<string>): (r: Result<FileUpdate>)
    ensures data.None? ==> r == Err(UpdateErrorPrefix + TypeError)
    ensures data.Some? && writeError.Some? ==> r == Err(UpdateErrorPrefix + writeError.value)
    ensures r.Ok? <==> data.Some? && writeError.None?
    ensures r.Ok? ==>
      && r.value.message == UpdatedMessage && r.value.file.others == loaded.others
      && r.value.file.boards.Keys == loaded.boards.Keys + {boardId}
  {
    match data
    case None => Err(UpdateErrorPrefix + TypeError)
    case Some(d) =>
      var file := MappingFile(loaded.boards[boardId := BoardConfig(d.emails, d.subject, d.bodyTemplate, d.variables)], loaded.others);
      if writeError.Some? then Err(UpdateErrorPrefix + writeError.value)
      else Ok(FileUpdate(file, UpdatedMessage))
  }

  /** Loading the written file back, the board reports the request's fields
      and its variables in order. */
  lemma UpdateThenGet(loaded: MappingFile, boardId: string, d: BoardUpdate, cols: seq<BoardColumn>)
    ensures UpdateVariables(loaded, boardId, Some(d), None).Ok?
    ensures var file := UpdateVariables(loaded, boardId, Some(d), None).value.file;
      GetVariables(file, boardId, Ok(cols))
        == Ok(BoardVariables(boardId, d.emails, d.subject, d.bodyTemplate, FormatVariables(d.variables.GetOr([]), Some(cols))))
  {
  }

  /** Every other board reads as before, and `attachments` has no effect on
      the file. */
  lemma UpdateKeepsOtherBoards(loaded: MappingFile, boardId: string, other: string, d: BoardUpdate, attachments: JsValue)
    requires other != boardId
    ensures UpdateVariables(loaded, boardId, Some(d), None).Ok?
    ensures BoardOf(UpdateVariables(loaded, boardId, Some(d), None).value.file, other) == BoardOf(loaded, other)
    ensures UpdateVariables(loaded, boardId, Some(d.(attachments := attachments)), None) == UpdateVariables(loaded, boardId, Some(d), None)
  {
  }

  /** Each update starts from the configuration loaded at start-up, not from
      the file last written: after updating board `a` and then board `b`,
      the file holds `a`'s original entry again. */
  lemma UpdatesDoNotAccumulate(loaded: MappingFile, a: string, b: string, da: BoardUpdate, db: BoardUpdate)
    requires a != b
    ensures UpdateVariables(loaded, a, Some(da), None).Ok? && UpdateVariables(loaded, b, Some(db), None).Ok?
    ensures BoardOf(UpdateVariables(loaded, a, Some(da), None).value.file, a) == BoardConfig(da.emails, da.subject, da.bodyTemplate, da.variables)
    ensures BoardOf(UpdateVariables(loaded, b, Some(db), None).value.file, a) == BoardOf(loaded, a)
  {
  }
}
