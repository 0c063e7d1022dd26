/** The two accumulations of src/getData.js that turn a monday.com item into
    template variables: the reduce that normalises the item's column values
    (inside `getSubject` and `getBodyEmail`) and `variablesValues`, which
    resolves each configured variable from the normalised values. */
module ColumnValues {
  import opened Js
  import opened Text
  import opened Template

  /** One entry of `item.column_values` as GraphQL returns it. `value` is the
      column's JSON-encoded value or null; `displayValue` is the
      `display_value` of mirror, formula and board-relation columns, or null. */
  datatype RawColumn = RawColumn(id: string, kind: string, value: Option<string>, displayValue: Option<string>)

  /** The item fields the template pipeline reads. A null entry stands for a
      column the query could not resolve. */
  datatype Item = Item(name: string, columnValues: seq<Option<RawColumn>>)

  /** `JSON.parse` as an abstract total function: None when it throws. */
  type Parser = string -> Option<JsValue>

  /** `col.value` is truthy: present and not the empty string. */
  predicate HasValue(col: RawColumn) {
    col.value.Some? && col.value.value != ""
  }

  /** Column types whose text is their `display_value`. */
  predicate ShowsDisplayValue(kind: string) {
    kind == "mirror" || kind == "board_relation" || kind == "formula"
  }

  /** The object literal `{ text: t }`. */
  function TextObject(t: JsValue): JsValue {
    Obj(map["text" := t])
  }

  /** The value one column contributes to `columnValues`. */
  function NormalizeColumn(col: RawColumn, parse: Parser): (r: Result<JsValue>)
    ensures r.Err? <==> !(col.kind == "text" || ShowsDisplayValue(col.kind))
                        && HasValue(col) && parse(col.value.value).None?
    ensures r.Ok? && !HasValue(col) && !ShowsDisplayValue(col.kind) ==> r.value == Null
    ensures !(col.kind == "text" || ShowsDisplayValue(col.kind)) && HasValue(col) && parse(col.value.value).Some? ==>
      r == Ok(parse(col.value.value).value)
    ensures r.Err? ==> r.error == "SyntaxError"
  {
    if col.kind == "text" && HasValue(col) then
      var raw := col.value.value;
      Ok(TextObject(parse(raw).GetOr(Str(raw))))
    else if ShowsDisplayValue(col.kind) then
      Ok(TextObject(match col.displayValue case Some(d) => Str(d) case None => Null))
    else if HasValue(col) then
      match parse(col.value.value)
      case Some(v) => Ok(v)
      case None => Err("SyntaxError")
    else Ok(Null)
  }

  /** The reduce over `item.column_values`, continued from `acc`: null entries
      are skipped, a later column with the same id overwrites an earlier one,
      and a parse error aborts the whole reduce. */
  function NormalizeFrom(acc: map<string, JsValue>, cols: seq<Option<RawColumn>>, parse: Parser): (r: Result<map<string, JsValue>>)
    ensures r.Err? ==> r.error == "SyntaxError"
    ensures r.Ok? ==> acc.Keys <= r.value.Keys
    decreases |cols|
  {
    if cols == [] then Ok(acc)
    else
      match cols[0]
      case None => NormalizeFrom(acc, cols[1..], parse)
      case Some(col) =>
        match NormalizeColumn(col, parse)
        case Err(e) => Err(e)
        case Ok(v) => NormalizeFrom(acc[col.id := v], cols[1..], parse)
  }

  function Normalize(cols: seq<Option<RawColumn>>, parse: Parser): Result<map<string, JsValue>>
  {
    NormalizeFrom(map[], cols, parse)
  }

  /** The ids of the non-null entries. */
  function ColumnIds(cols: seq<Option<RawColumn>>): set<string>
  {
    if cols == [] then {}
    else (match cols[0] case None => {} case Some(col) => {col.id}) + ColumnIds(cols[1..])
  }

  /** Every non-null entry normalises without error. */
  predicate AllNormalize(cols: seq<Option<RawColumn>>, parse: Parser) {
    forall i :: 0 <= i < |cols| && cols[i].Some? ==> NormalizeColumn(cols[i].value, parse).Ok?
  }

  /** Entry `i` is the last non-null entry with its id. */
  predicate LastWithId(cols: seq<Option<RawColumn>>, i: int) {
    && 0 <= i < |cols| && cols[i].Some?
    && forall j :: i < j < |cols| && cols[j].Some? ==> cols[j].value.id != cols[i].value.id
  }

  /** The reduce fails exactly when some non-null column fails to parse. */
  lemma {:induction false} NormalizeOkIff(acc: map<string, JsValue>, cols: seq<Option<RawColumn>>, parse: Parser)
    ensures NormalizeFrom(acc, cols, parse).Ok? <==> AllNormalize(cols, parse)
    decreases |cols|
  {
    if cols != [] {
      match cols[0]
      case None =>
        NormalizeOkIff(acc, cols[1..], parse);
        assert AllNormalize(cols, parse) <==> AllNormalize(cols[1..], parse) by {
          if AllNormalize(cols[1..], parse) {
            forall i | 0 <= i < |cols| && cols[i].Some?
              ensures NormalizeColumn(cols[i].value, parse).Ok?
            {
              assert cols[i] == cols[1..][i - 1];
            }
          }
        }
      case Some(col) =>
        match NormalizeColumn(col, parse)
        case Err(_) =>
        case Ok(v) =>
          NormalizeOkIff(acc[col.id := v], cols[1..], parse);
          if AllNormalize(cols[1..], parse) {
            forall i | 0 <= i < |cols| && cols[i].Some?
              ensures NormalizeColumn(cols[i].value, parse).Ok?
            {
              if i > 0 {
                assert cols[i] == cols[1..][i - 1];
              }
            }
          }
    }
  }

  /** A successful reduce has one entry per id of a non-null column, besides
      what it started from. */
  lemma {:induction false} NormalizeKeys(acc: map<string, JsValue>, cols: seq<Option<RawColumn>>, parse: Parser)
    requires NormalizeFrom(acc, cols, parse).Ok?
    ensures NormalizeFrom(acc, cols, parse).value.Keys == acc.Keys + ColumnIds(cols)
    decreases |cols|
  {
    if cols != [] {
      match cols[0]
      case None =>
        NormalizeKeys(acc, cols[1..], parse);
      case Some(col) =>
        var v := NormalizeColumn(col, parse).value;
        NormalizeKeys(acc[col.id := v], cols[1..], parse);
    }
  }

  /** Each id maps to the normalised value of the last column carrying it. */
  lemma {:induction false} NormalizeLastWins(acc: map<string, JsValue>, cols: seq<Option<RawColumn>>, parse: Parser, i: int)
    requires NormalizeFrom(acc, cols, parse).Ok?
    requires LastWithId(cols, i)
    ensures NormalizeColumn(cols[i].value, parse).Ok?
    ensures cols[i].value.id in NormalizeFrom(acc, cols, parse).value
    ensures NormalizeFrom(acc, cols, parse).value[cols[i].value.id]
            == NormalizeColumn(cols[i].value, parse).value
    decreases |cols|
  {
    var id := cols[i].value.id;
    match cols[0]
    case None =>
      assert LastWithId(cols[1..], i - 1);
      NormalizeLastWins(acc, cols[1..], parse, i - 1);
    case Some(col) =>
      var v := NormalizeColumn(col, parse).value;
      if i == 0 {
        NormalizeUntouched(acc[id := v], cols[1..], parse, id);
      } else {
        assert LastWithId(cols[1..], i - 1);
        NormalizeLastWins(acc[col.id := v], cols[1..], parse, i - 1);
      }
  }

  /** An id no remaining column carries keeps the value it had. */
  lemma {:induction false} NormalizeUntouched(acc: map<string, JsValue>, cols: seq<Option<RawColumn>>, parse: Parser, id: string)
    requires NormalizeFrom(acc, cols, parse).Ok?
    requires id in acc
    requires forall j :: 0 <= j < |cols| && cols[j].Some? ==> cols[j].value.id != id
    ensures id in NormalizeFrom(acc, cols, parse).value
    ensures NormalizeFrom(acc, cols, parse).value[id] == acc[id]
    decreases |cols|
  {
    if cols != [] {
      assert forall j :: 0 <= j < |cols[1..]| && cols[1..][j].Some? ==> cols[1..][j].value.id != id by {
        forall j | 0 <= j < |cols[1..]| && cols[1..][j].Some?
          ensures cols[1..][j].value.id != id
        {
          assert cols[1..][j] == cols[j + 1];
        }
      }
      match cols[0]
      case None =>
        NormalizeUntouched(acc, cols[1..], parse, id);
      case Some(col) =>
        var v := NormalizeColumn(col, parse).value;
        assert col.id != id by { assert cols[0].Some?; }
        NormalizeUntouched(acc[col.id := v], cols[1..], parse, id);
    }
  }

  /** `columnValues[id]?.text || ''`: the raw template text of a column. */
  function RawText(cvs: map<string, JsValue>, id: string): (r: JsValue)
    ensures Truthy(r) || r == Str("")
    ensures id !in cvs ==> r == Str("")
    ensures id in cvs && Truthy(Get(cvs[id], "text")) ==> r == Get(cvs[id], "text")
    ensures id in cvs && !Truthy(Get(cvs[id], "text")) ==> r == Str("")
  {
    if id in cvs && !IsNullish(cvs[id]) && Truthy(Get(cvs[id], "text")) then Get(cvs[id], "text") else Str("")
  }

  /** A column the item does not have gives no template text. */
  lemma MissingColumnNoText(cols: seq<Option<RawColumn>>, parse: Parser, id: string)
    requires Normalize(cols, parse).Ok?
    requires id !in ColumnIds(cols)
    ensures RawText(Normalize(cols, parse).value, id) == Str("")
  {
    NormalizeKeys(map[], cols, parse);
  }

  /** The text of a text column with a value is its parsed value, or its raw
      JSON when that does not parse. */
  lemma TextColumnText(cols: seq<Option<RawColumn>>, parse: Parser, i: int)
    requires Normalize(cols, parse).Ok?
    requires LastWithId(cols, i)
    requires cols[i].value.kind == "text" && HasValue(cols[i].value)
    ensures var raw := cols[i].value.value.value;
            var t := parse(raw).GetOr(Str(raw));
            RawText(Normalize(cols, parse).value, cols[i].value.id) == if Truthy(t) then t else Str("")
  {
    NormalizeLastWins(map[], cols, parse, i);
  }

  /** The text of a mirror, board-relation or formula column is its display
      value, or nothing when that is null. */
  lemma DisplayColumnText(cols: seq<Option<RawColumn>>, parse: Parser, i: int)
    requires Normalize(cols, parse).Ok?
    requires LastWithId(cols, i)
    requires ShowsDisplayValue(cols[i].value.kind)
    ensures RawText(Normalize(cols, parse).value, cols[i].value.id)
            == Str(cols[i].value.displayValue.GetOr(""))
  {
    NormalizeLastWins(map[], cols, parse, i);
  }

  /** The text of any other column with a value is the `text` property of
      its parsed value, or nothing when that is falsy or absent. This is the
      branch a `long_text` subject or body column takes. */
  lemma OtherColumnText(cols: seq<Option<RawColumn>>, parse: Parser, i: int)
    requires Normalize(cols, parse).Ok?
    requires LastWithId(cols, i)
    requires !(cols[i].value.kind == "text" || ShowsDisplayValue(cols[i].value.kind)) && HasValue(cols[i].value)
    ensures parse(cols[i].value.value.value).Some?
    ensures var t := Get(parse(cols[i].value.value.value).value, "text");
            RawText(Normalize(cols, parse).value, cols[i].value.id) == if Truthy(t) then t else Str("")
  {
    NormalizeLastWins(map[], cols, parse, i);
  }

  // --- variablesValues -------------------------------------------------------

  /** One entry of the variable mapping. */
  datatype VariableRef = VariableRef(variableName: string, columnId: string)

  /** `files.length > 0` for a truthy `files` value: arrays by their element
      count, strings by their length; other values have no `length`. */
  predicate NonEmptyList(files: JsValue) {
    (files.Arr? && |files.elems| > 0) || (files.Str? && |files.s| > 0)
  }

  /** `files.map((file) => file.name)`: a null or undefined file throws. */
  function FileNames(files: seq<JsValue>): (r: Result<seq<JsValue>>)
    ensures r.Ok? <==> forall i :: 0 <= i < |files| ==> !IsNullish(files[i])
    ensures r.Err? ==> r.error == TypeError
    ensures r.Ok? ==> |r.value| == |files| && forall i :: 0 <= i < |files| ==> r.value[i] == Get(files[i], "name")
  {
    if files == [] then Ok([])
    else if IsNullish(files[0]) then Err(TypeError)
    else
      match FileNames(files[1..])
      case Err(e) => Err(e)
      case Ok(rest) => Ok([Get(files[0], "name")] + rest)
  }

  /** The value `variablesValues` assigns to one variable, or the TypeError
      its body throws. */
  function Resolve(v: VariableRef, cvs: map<string, JsValue>, itemName: string): (r: Result<JsValue>)
    ensures r.Err? ==> r.error == TypeError
    ensures v.columnId == "name" || v.columnId !in cvs ==> r.Ok?
  {
    if v.columnId == "name" then
      Ok(Str(if itemName != "" then itemName else Placeholder(v.variableName)))
    else if v.columnId !in cvs || !Truthy(cvs[v.columnId]) then
      Ok(Str(Placeholder(v.variableName)))
    else
      var cv := cvs[v.columnId];
      var files := Get(cv, "files");
      if Truthy(files) && NonEmptyList(files) then
        if files.Arr? then
          match FileNames(files.elems)
          case Err(e) => Err(e)
          case Ok(names) => Ok(Str(JoinValues(names, ", ")))
        else Err(TypeError)
      else if cv.Obj? && "text" in cv.fields then Ok(cv.fields["text"])
      else if cv.Obj? && "date" in cv.fields then Ok(cv.fields["date"])
      else if cv.Obj? || cv.Arr? then Ok(cv)
      else Err(TypeError)
  }

  /** `variableMapping.reduce(...)` continued from `acc`. */
  function ResolveFrom(acc: map<string, JsValue>, mapping: seq<VariableRef>, cvs: map<string, JsValue>, itemName: string): (r: Result<map<string, JsValue>>)
    ensures r.Err? ==> r.error == TypeError
    ensures r.Ok? ==> acc.Keys <= r.value.Keys
    decreases |mapping|
  {
    if mapping == [] then Ok(acc)
    else
      match Resolve(mapping[0], cvs, itemName)
      case Err(e) => Err(e)
      case Ok(x) => ResolveFrom(acc[mapping[0].variableName := x], mapping[1..], cvs, itemName)
  }

  /** `variablesValues({ variableMapping, columnValues, item })`. */
  function VariablesValues(mapping: seq<VariableRef>, cvs: map<string, JsValue>, itemName: string): Result<map<string, JsValue>>
  {
    ResolveFrom(map[], mapping, cvs, itemName)
  }

  function VariableNames(mapping: seq<VariableRef>): set<string>
  {
    set i | 0 <= i < |mapping| :: mapping[i].variableName
  }

  /** A column value every variable can be resolved from: anything falsy, an
      array, or an object whose `files`, when a non-empty list, is an array
      of non-null files. */
  predicate Resolvable(cv: JsValue) {
    || !Truthy(cv)
    || cv.Arr?
    || (cv.Obj? &&
        var files := Get(cv, "files");
        Truthy(files) && NonEmptyList(files) ==>
          files.Arr? && forall i :: 0 <= i < |files.elems| ==> !IsNullish(files.elems[i]))
  }

  /** The reduce succeeds exactly when every entry resolves. */
  lemma {:induction false} VariablesOkIff(acc: map<string, JsValue>, mapping: seq<VariableRef>, cvs: map<string, JsValue>, itemName: string)
    ensures ResolveFrom(acc, mapping, cvs, itemName).Ok?
            <==> forall i :: 0 <= i < |mapping| ==> Resolve(mapping[i], cvs, itemName).Ok?
    decreases |mapping|
  {
    if mapping != [] {
      match Resolve(mapping[0], cvs, itemName)
      case Err(_) =>
      case Ok(x) =>
        VariablesOkIff(acc[mapping[0].variableName := x], mapping[1..], cvs, itemName);
        if forall i :: 0 <= i < |mapping[1..]| ==> Resolve(mapping[1..][i], cvs, itemName).Ok? {
          forall i | 0 <= i < |mapping|
            ensures Resolve(mapping[i], cvs, itemName).Ok?
          {
            if i > 0 {
              assert mapping[i] == mapping[1..][i - 1];
            }
          }
        }
    }
  }

  /** Resolution only throws on a column value that is not resolvable. */
  lemma ResolveOk(v: VariableRef, cvs: map<string, JsValue>, itemName: string)
    requires v.columnId in cvs ==> Resolvable(cvs[v.columnId])
    ensures Resolve(v, cvs, itemName).Ok?
  {
  }

  /** With resolvable column values the variables are always computed. */
  lemma VariablesOk(mapping: seq<VariableRef>, cvs: map<string, JsValue>, itemName: string)
    requires forall id :: id in cvs ==> Resolvable(cvs[id])
    ensures VariablesValues(mapping, cvs, itemName).Ok?
  {
    forall i | 0 <= i < |mapping|
      ensures Resolve(mapping[i], cvs, itemName).Ok?
    {
      ResolveOk(mapping[i], cvs, itemName);
    }
    VariablesOkIff(map[], mapping, cvs, itemName);
  }

  /** A truthy string, number or boolean column value makes `'text' in`
      throw, whatever the variable. */
  lemma PrimitiveThrows(v: VariableRef, cvs: map<string, JsValue>, itemName: string)
    requires v.columnId != "name" && v.columnId in cvs
    requires Truthy(cvs[v.columnId]) && !cvs[v.columnId].Obj? && !cvs[v.columnId].Arr?
    ensures Resolve(v, cvs, itemName).Err?
  {
  }

  /** A successful reduce defines exactly the configured variable names,
      besides what it started from. */
  lemma {:induction false} VariablesKeys(acc: map<string, JsValue>, mapping: seq<VariableRef>, cvs: map<string, JsValue>, itemName: string)
    requires ResolveFrom(acc, mapping, cvs, itemName).Ok?
    ensures ResolveFrom(acc, mapping, cvs, itemName).value.Keys == acc.Keys + VariableNames(mapping)
    decreases |mapping|
  {
    if mapping != [] {
      var x := Resolve(mapping[0], cvs, itemName).value;
      VariablesKeys(acc[mapping[0].variableName := x], mapping[1..], cvs, itemName);
      assert VariableNames(mapping) == {mapping[0].variableName} + VariableNames(mapping[1..]) by {
        forall n | n in VariableNames(mapping)
          ensures n in {mapping[0].variableName} + VariableNames(mapping[1..])
        {
          var i :| 0 <= i < |mapping| && mapping[i].variableName == n;
          if i > 0 {
            assert mapping[1..][i - 1] == mapping[i];
          }
        }
        forall n | n in VariableNames(mapping[1..])
          ensures n in VariableNames(mapping)
        {
          var i :| 0 <= i < |mapping[1..]| && mapping[1..][i].variableName == n;
          assert mapping[i + 1] == mapping[1..][i];
        }
      }
    }
  }

  /** Entry `i` is the last one naming its variable. */
  predicate LastForName(mapping: seq<VariableRef>, i: int) {
    && 0 <= i < |mapping|
    && forall j :: i < j < |mapping| ==> mapping[j].variableName != mapping[i].variableName
  }

  /** Each variable holds what the last entry naming it resolves to. */
  lemma {:induction false} VariablesLastWins(acc: map<string, JsValue>, mapping: seq<VariableRef>, cvs: map<string, JsValue>, itemName: string, i: int)
    requires ResolveFrom(acc, mapping, cvs, itemName).Ok?
    requires LastForName(mapping, i)
    ensures Resolve(mapping[i], cvs, itemName).Ok?
    ensures mapping[i].variableName in ResolveFrom(acc, mapping, cvs, itemName).value
    ensures ResolveFrom(acc, mapping, cvs, itemName).value[mapping[i].variableName]
            == Resolve(mapping[i], cvs, itemName).value
    decreases |mapping|
  {
    var x := Resolve(mapping[0], cvs, itemName).value;
    var next := acc[mapping[0].variableName := x];
    if i == 0 {
      VariablesUntouched(next, mapping[1..], cvs, itemName, mapping[0].variableName);
    } else {
      assert LastForName(mapping[1..], i - 1);
      VariablesLastWins(next, mapping[1..], cvs, itemName, i - 1);
    }
  }

  /** A name no remaining entry assigns keeps its value. */
  lemma {:induction false} VariablesUntouched(acc: map<string, JsValue>, mapping: seq<VariableRef>, cvs: map<string, JsValue>, itemName: string, n: string)
    requires ResolveFrom(acc, mapping, cvs, itemName).Ok?
    requires n in acc
    requires forall j :: 0 <= j < |mapping| ==> mapping[j].variableName != n
    ensures n in ResolveFrom(acc, mapping, cvs, itemName).value
    ensures ResolveFrom(acc, mapping, cvs, itemName).value[n] == acc[n]
    decreases |mapping|
  {
    if mapping != [] {
      var x := Resolve(mapping[0], cvs, itemName).value;
      assert forall j :: 0 <= j < |mapping[1..]| ==> mapping[1..][j].variableName != n by {
        forall j | 0 <= j < |mapping[1..]|
          ensures mapping[1..][j].variableName != n
        {
          assert mapping[1..][j] == mapping[j + 1];
        }
      }
      VariablesUntouched(acc[mapping[0].variableName := x], mapping[1..], cvs, itemName, n);
    }
  }

  /** The `name` column gives the item's name, or the placeholder when the
      name is empty; an absent or falsy column gives the placeholder. */
  lemma ResolveNameAndMissing(v: VariableRef, cvs: map<string, JsValue>, itemName: string)
    ensures v.columnId == "name" && itemName != "" ==> Resolve(v, cvs, itemName) == Ok(Str(itemName))
    ensures v.columnId == "name" && itemName == "" ==> Resolve(v, cvs, itemName) == Ok(Str(Placeholder(v.variableName)))
    ensures v.columnId != "name" && (v.columnId !in cvs || !Truthy(cvs[v.columnId])) ==>
      Resolve(v, cvs, itemName) == Ok(Str(Placeholder(v.variableName)))
  {
  }

  /** First match wins: a non-empty list of files beats `text` and `date`. */
  lemma FilesFirst(v: VariableRef, cvs: map<string, JsValue>, itemName: string, fields: map<string, JsValue>, files: seq<JsValue>)
    requires v.columnId != "name" && v.columnId in cvs && cvs[v.columnId] == Obj(fields)
    requires "files" in fields && fields["files"] == Arr(files) && |files| > 0
    requires forall i :: 0 <= i < |files| ==> !IsNullish(files[i])
    ensures Resolve(v, cvs, itemName) == Ok(Str(JoinValues(FileNames(files).value, ", ")))
  {
    var cv := cvs[v.columnId];
    assert Truthy(cv) && Get(cv, "files") == Arr(files);
    assert Truthy(Arr(files)) && NonEmptyList(Arr(files));
    var names := FileNames(files);
    assert names.Ok?;
  }

  /** File names are joined with `", "`; names that are strings come out as
      written. */
  lemma {:induction false} JoinStrings(names: seq<string>, sep: string)
    ensures JoinValues(seq(|names|, i requires 0 <= i < |names| => Str(names[i])), sep) == Join(names, sep)
  {
    if |names| > 1 {
      JoinStrings(names[1..], sep);
      var es := seq(|names|, i requires 0 <= i < |names| => Str(names[i]));
      assert es[1..] == seq(|names[1..]|, i requires 0 <= i < |names[1..]| => Str(names[1..][i]));
    }
  }

  /** Without non-empty files, a present `text` (even empty, even null) beats
      `date`, and a present `date` beats the whole value. */
  lemma TextThenDate(v: VariableRef, cvs: map<string, JsValue>, itemName: string, fields: map<string, JsValue>)
    requires v.columnId != "name" && v.columnId in cvs && cvs[v.columnId] == Obj(fields)
    requires var files := Get(Obj(fields), "files"); !(Truthy(files) && NonEmptyList(files))
    ensures "text" in fields ==> Resolve(v, cvs, itemName) == Ok(fields["text"])
    ensures "text" !in fields && "date" in fields ==> Resolve(v, cvs, itemName) == Ok(fields["date"])
    ensures "text" !in fields && "date" !in fields ==> Resolve(v, cvs, itemName) == Ok(Obj(fields))
  {
  }
}
