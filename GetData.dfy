/** The monday.com side of src/getData.js: the memoised item fetch, subject
    and body rendering, recipient extraction, attachment selection and the
    file-column scan. GraphQL responses are given already parsed; the
    network calls themselves are not modelled. */
module GetData {
  import opened Js
  import opened Text
  import opened Template
  import opened ColumnValues

  // --- fetchMondayData and mondayCache ---------------------------------------

  /** `res.data.items` of the item query: None when `data` or `items` is
      missing, a null entry for an item the API could not return. */
  type ItemsResponse = Option<seq<Option<Item>>>

  const NoItemData := "No se encontraron datos válidos en la respuesta de Monday."

  /** The validation in `fetchMondayData`: the first item, or the error it
      throws when there is none. */
  function FirstItem(response: ItemsResponse): (r: Result<Item>)
    ensures r.Ok? <==> response.Some? && |response.value| > 0 && response.value[0].Some?
    ensures r.Ok? ==> r.value == response.value[0].value
    ensures r.Err? ==> r.error == NoItemData
  {
    match response
    case None => Err(NoItemData)
    case Some(items) =>
      if |items| == 0 then Err(NoItemData)
      else match items[0]
        case None => Err(NoItemData)
        case Some(item) => Ok(item)
  }

  /** The module-level `mondayCache`: a Map from pulse id to the item fetched
      for it. Entries are never removed. */
  class MondayCache {
    var entries: map<int, Item>

    constructor()
      ensures entries == map[]
    {
      entries := map[];
    }

    /** `fetchMondayData(pulseId)`. `response` is what the API would answer;
        it is consulted only on a miss, and only a valid item is cached. */
    method FetchMondayData(pulseId: int, response: ItemsResponse) returns (r: Result<Item>)
      modifies this
      ensures pulseId in old(entries) ==> r == Ok(old(entries)[pulseId]) && entries == old(entries)
      ensures pulseId !in old(entries) ==> r == FirstItem(response)
      ensures pulseId !in old(entries) && r.Ok? ==> entries == old(entries)[pulseId := r.value]
      ensures pulseId !in old(entries) && r.Err? ==> entries == old(entries)
      ensures r.Ok? ==> pulseId in entries && entries[pulseId] == r.value
    {
      if pulseId in entries {
        return Ok(entries[pulseId]);
      }
      r := FirstItem(response);
      if r.Ok? {
        entries := entries[pulseId := r.value];
      }
    }
  }

  // --- getSubject and getBodyEmail -------------------------------------------

  /** Body of the `try` block shared by `getSubject` and `getBodyEmail`:
      normalise the columns, take the column's raw text, resolve the
      variables and substitute. Err is the exception the block throws;
      Ok(None) means `replaceRecursive` did not stop within `fuel` passes. */
  function RenderColumn(item: Item, columnId: string, mapping: seq<VariableRef>, parse: Parser, fuel: nat): (r: Result<Option<string>>)
    ensures Normalize(item.columnValues, parse).Err? ==> r.Err?
    ensures r.Ok? ==>
      && Normalize(item.columnValues, parse).Ok?
      && var cvs := Normalize(item.columnValues, parse).value;
      && VariablesValues(mapping, cvs, item.name).Ok?
      && RawText(cvs, columnId).Str?
      && r.value == Render(RawText(cvs, columnId).s, VariablesValues(mapping, cvs, item.name).value, fuel)
  {
    match Normalize(item.columnValues, parse)
    case Err(e) => Err(e)
    case Ok(cvs) =>
      var raw := RawText(cvs, columnId);
      match VariablesValues(mapping, cvs, item.name)
      case Err(e) => Err(e)
      case Ok(vars) =>
        // `text.replace` on a value that is not a string throws.
        if raw.Str? then Ok(Render(raw.s, vars, fuel)) else Err(TypeError)
  }

  /** `getSubject`: any exception yields the empty subject. None means the
      substitution loop does not terminate within `fuel` passes. */
  function GetSubject(fetched: Result<Item>, subjectColumnId: string, mapping: seq<VariableRef>, parse: Parser, fuel: nat): (r: Option<string>)
    ensures fetched.Err? ==> r == Some("")
    ensures fetched.Ok? && RenderColumn(fetched.value, subjectColumnId, mapping, parse, fuel).Err? ==> r == Some("")
    ensures fetched.Ok? && RenderColumn(fetched.value, subjectColumnId, mapping, parse, fuel).Ok? ==>
      r == RenderColumn(fetched.value, subjectColumnId, mapping, parse, fuel).value
  {
    match fetched
    case Err(_) => Some("")
    case Ok(item) =>
      match RenderColumn(item, subjectColumnId, mapping, parse, fuel)
      case Err(_) => Some("")
      case Ok(r) => r
  }

  /** `getBodyEmail`: as `getSubject`, with the substituted text unescaped. */
  function GetBodyEmail(fetched: Result<Item>, bodyColumnId: string, mapping: seq<VariableRef>, parse: Parser, fuel: nat): (r: Option<string>)
    ensures fetched.Err? ==> r == Some("")
    ensures fetched.Ok? && RenderColumn(fetched.value, bodyColumnId, mapping, parse, fuel).Err? ==> r == Some("")
    ensures r.Some? ==> '\n' !in r.value
  {
    match fetched
    case Err(_) => Some("")
    case Ok(item) =>
      match RenderColumn(item, bodyColumnId, mapping, parse, fuel)
      case Err(_) => Some("")
      case Ok(None) => None
      case Ok(Some(t)) => Some(UnescapeHTML(t))
  }

  /** The body is the subject computation followed by `unescapeHTML`; the
      subject is never unescaped. */
  lemma BodyIsUnescapedSubject(fetched: Result<Item>, columnId: string, mapping: seq<VariableRef>, parse: Parser, fuel: nat)
    ensures GetBodyEmail(fetched, columnId, mapping, parse, fuel)
            == match GetSubject(fetched, columnId, mapping, parse, fuel)
               case None => None
               case Some(t) => Some(UnescapeHTML(t))
  {
  }

  /** The body never contains a line feed. */
  lemma BodyHasNoLineFeed(fetched: Result<Item>, columnId: string, mapping: seq<VariableRef>, parse: Parser, fuel: nat)
    requires GetBodyEmail(fetched, columnId, mapping, parse, fuel).Some?
    ensures '\n' !in GetBodyEmail(fetched, columnId, mapping, parse, fuel).value
  {
  }

  /** A subject or body column the item lacks renders as the empty text. */
  lemma MissingColumnRendersEmpty(item: Item, columnId: string, mapping: seq<VariableRef>, parse: Parser, fuel: nat)
    requires fuel >= 1
    requires columnId !in ColumnIds(item.columnValues)
    ensures GetSubject(Ok(item), columnId, mapping, parse, fuel) == Some("")
    ensures GetBodyEmail(Ok(item), columnId, mapping, parse, fuel) == Some("")
  {
    match Normalize(item.columnValues, parse)
    case Err(_) =>
    case Ok(cvs) =>
      MissingColumnNoText(item.columnValues, parse, columnId);
      match VariablesValues(mapping, cvs, item.name)
      case Err(_) =>
      case Ok(vars) =>
        assert Scan("") == [];
        assert Pass("", vars) == "";
  }

  /** The subject is settled: one more substitution pass with the same
      variables leaves it unchanged. */
  lemma SubjectIsSettled(item: Item, columnId: string, mapping: seq<VariableRef>, parse: Parser, fuel: nat)
    requires Normalize(item.columnValues, parse).Ok?
    requires VariablesValues(mapping, Normalize(item.columnValues, parse).value, item.name).Ok?
    requires RawText(Normalize(item.columnValues, parse).value, columnId).Str?
    requires GetSubject(Ok(item), columnId, mapping, parse, fuel).Some?
    ensures var vars := VariablesValues(mapping, Normalize(item.columnValues, parse).value, item.name).value;
            var t := GetSubject(Ok(item), columnId, mapping, parse, fuel).value;
            Pass(t, vars) == t
  {
    var cvs := Normalize(item.columnValues, parse).value;
    var vars := VariablesValues(mapping, cvs, item.name).value;
    RenderFixedPoint(RawText(cvs, columnId).s, vars, fuel);
  }

  // --- getEmails / extractEmail ----------------------------------------------

  /** An entry of the e-mail query's `column_values`. */
  datatype EmailColumn = EmailColumn(id: string, kind: string, text: Option<string>, displayValue: Option<string>)

  /** The `{ to, cc, bcc }` column ids; a missing one matches no column. */
  datatype EmailsMapping = EmailsMapping(to: Option<string>, cc: Option<string>, bcc: Option<string>)

  datatype Recipients = Recipients(toEmails: string, ccEmails: string, bccEmails: string)

  /** Entry `j` is a null column that `find` reaches: every entry before it
      is a column with another id. */
  predicate NullReached(cols: seq<Option<EmailColumn>>, columnId: Option<string>, j: int) {
    && 0 <= j < |cols| && cols[j].None?
    && forall k :: 0 <= k < j ==> cols[k].Some? && Some(cols[k].value.id) != columnId
  }

  /** `columnValues.find((col) => col.id === columnId)`, as an index; `col.id`
      on a null entry the search reaches throws. */
  function FindColumn(cols: seq<Option<EmailColumn>>, columnId: Option<string>): (r: Result<Option<nat>>)
    ensures r.Err? ==> r.error == TypeError
    ensures r.Err? <==> exists j :: NullReached(cols, columnId, j)
    ensures r.Ok? && r.value.Some? ==>
      var i := r.value.value;
      && i < |cols| && cols[i].Some? && Some(cols[i].value.id) == columnId
      && forall j :: 0 <= j < i ==> cols[j].Some? && Some(cols[j].value.id) != columnId
    ensures r.Ok? && r.value.None? ==> forall j :: 0 <= j < |cols| ==> cols[j].Some? && Some(cols[j].value.id) != columnId
  {
    if cols == [] then Ok(None)
    else if cols[0].None? then
      assert NullReached(cols, columnId, 0);
      Err(TypeError)
    else if Some(cols[0].value.id) == columnId then
      Ok(Some(0))
    else
      var rest := FindColumn(cols[1..], columnId);
      NullReachedShift(cols, columnId);
      match rest
      case Err(e) => Err(e)
      case Ok(None) => Ok(None)
      case Ok(Some(k)) => Ok(Some(k + 1))
  }

  /** Past a first column with another id, the null entries `find` reaches
      are those it reaches in the rest, one place on. */
  lemma NullReachedShift(cols: seq<Option<EmailColumn>>, columnId: Option<string>)
    requires |cols| > 0 && cols[0].Some? && Some(cols[0].value.id) != columnId
    ensures (exists j :: NullReached(cols, columnId, j)) <==> (exists j :: NullReached(cols[1..], columnId, j))
  {
    if exists j :: NullReached(cols, columnId, j) {
      var j :| NullReached(cols, columnId, j);
      assert j > 0;
      assert NullReached(cols[1..], columnId, j - 1) by {
        forall k | 0 <= k < j - 1 ensures cols[1..][k].Some? && Some(cols[1..][k].value.id) != columnId {
          assert cols[1..][k] == cols[k + 1];
        }
      }
    }
    if exists j :: NullReached(cols[1..], columnId, j) {
      var j :| NullReached(cols[1..], columnId, j);
      assert NullReached(cols, columnId, j + 1) by {
        forall k | 0 <= k < j + 1 ensures cols[k].Some? && Some(cols[k].value.id) != columnId {
          if k > 0 {
            assert cols[k] == cols[1..][k - 1];
          }
        }
      }
    }
  }

  /** `extractEmail(columnId)`: the first column with that id, read as a
      mirror's display value or an e-mail column's text. */
  function ExtractEmail(cols: seq<Option<EmailColumn>>, columnId: Option<string>): (r: Result<string>)
    ensures r.Err? <==> exists j :: NullReached(cols, columnId, j)
    ensures r.Err? ==> r.error == TypeError
    ensures r.Ok? && (forall j :: 0 <= j < |cols| && cols[j].Some? ==> Some(cols[j].value.id) != columnId) ==>
      r.value == ""
    ensures r.Ok? && r.value != "" ==>
      exists i :: 0 <= i < |cols| && cols[i].Some? && Some(cols[i].value.id) == columnId &&
        ((cols[i].value.kind == "mirror" && cols[i].value.displayValue == Some(r.value)) ||
         (cols[i].value.kind == "email" && cols[i].value.text == Some(r.value)))
  {
    match FindColumn(cols, columnId)
    case Err(e) => Err(e)
    case Ok(None) => Ok("")
    case Ok(Some(i)) =>
      var col := cols[i].value;
      if col.kind == "mirror" then Ok(col.displayValue.GetOr(""))
      else if col.kind == "email" then Ok(col.text.GetOr(""))
      else Ok("")
  }

  /** The column `extractEmail` reads is the first with the id; any other
      type than `mirror` or `email` gives nothing. */
  lemma ExtractEmailFirstMatch(cols: seq<Option<EmailColumn>>, columnId: Option<string>, i: nat)
    requires i < |cols| && cols[i].Some? && Some(cols[i].value.id) == columnId
    requires forall j :: 0 <= j < i ==> cols[j].Some? && Some(cols[j].value.id) != columnId
    ensures var col := cols[i].value;
      && (col.kind == "mirror" ==> ExtractEmail(cols, columnId) == Ok(col.displayValue.GetOr("")))
      && (col.kind == "email" ==> ExtractEmail(cols, columnId) == Ok(col.text.GetOr("")))
      && (col.kind != "mirror" && col.kind != "email" ==> ExtractEmail(cols, columnId) == Ok(""))
  {
    var r := FindColumn(cols, columnId);
    assert r.Ok? && r.value.Some? && r.value.value == i;
  }

  const NoPulseData := "No se encontraron datos para el Pulse ID proporcionado."

  /** `getEmails`: `emailsMapping` (None when null or undefined, where
      `Object.values` throws before any request), and `res.data.items` of
      the e-mail query (None when `data` or `items` is missing, a null entry
      for an item the API could not return). The three addresses are
      extracted in order, and the first that throws ends the call. */
  function GetEmails(response: Option<seq<Option<seq<Option<EmailColumn>>>>>, mapping: Option<EmailsMapping>): (r: Result<Recipients>)
    ensures mapping.None? ==> r == Err(TypeError)
    ensures mapping.Some? && (response.None? || |response.value| == 0) ==> r == Err(NoPulseData)
    ensures mapping.Some? && response.Some? && |response.value| > 0 && response.value[0].None? ==> r == Err(TypeError)
    ensures r.Ok? <==>
      && mapping.Some? && response.Some? && |response.value| > 0 && response.value[0].Some?
      && var cols := response.value[0].value;
      && ExtractEmail(cols, mapping.value.to).Ok?
      && ExtractEmail(cols, mapping.value.cc).Ok?
      && ExtractEmail(cols, mapping.value.bcc).Ok?
    ensures r.Ok? ==>
      var cols := response.value[0].value;
      r.value == Recipients(ExtractEmail(cols, mapping.value.to).value, ExtractEmail(cols, mapping.value.cc).value,
                            ExtractEmail(cols, mapping.value.bcc).value)
    ensures r.Err? && r.error != NoPulseData ==> r.error == TypeError
  {
    match mapping
    // `Object.values(emailsMapping)` on a nullish mapping
    case None => Err(TypeError)
    case Some(m) =>
      match response
      case None => Err(NoPulseData)
      case Some(items) =>
        if |items| == 0 then Err(NoPulseData)
        else match items[0]
          // `res.data.items[0].column_values` on a null item
          case None => Err(TypeError)
          case Some(cols) =>
            match ExtractEmail(cols, m.to)
            case Err(e) => Err(e)
            case Ok(to) =>
              match ExtractEmail(cols, m.cc)
              case Err(e) => Err(e)
              case Ok(cc) =>
                match ExtractEmail(cols, m.bcc)
                case Err(e) => Err(e)
                case Ok(bcc) => Ok(Recipients(to, cc, bcc))
  }

  /** A column list without null entries never makes `getEmails` throw
      once the item is there. */
  lemma GetEmailsNoNulls(items: seq<Option<seq<Option<EmailColumn>>>>, m: EmailsMapping)
    requires |items| > 0 && items[0].Some?
    requires forall j :: 0 <= j < |items[0].value| ==> items[0].value[j].Some?
    ensures GetEmails(Some(items), Some(m)).Ok?
  {
    var cols := items[0].value;
    forall id: Option<string> ensures ExtractEmail(cols, id).Ok? {
      assert forall j :: !NullReached(cols, id, j);
    }
  }

  // --- getColumnsMirror / isMirrorFile ---------------------------------------

  /** A `mirrored_items` entry: the `__typename` of its mirrored value, None
      when the value is null. */
  datatype MirroredItem = MirroredItem(typename: Option<string>)

  /** `mirroredItems.some((item) => item.mirrored_value?.__typename === 'FileValue')`. */
  function AnyFileValue(items: seq<MirroredItem>): (r: bool)
    ensures r <==> exists i :: 0 <= i < |items| && items[i].typename == Some("FileValue")
  {
    if items == [] then false
    else items[0].typename == Some("FileValue") || AnyFileValue(items[1..])
  }

  /** `isMirrorFile`, with a missing `mirrored_items` read as `[]`. */
  function IsMirrorFile(mirrored: Option<seq<MirroredItem>>): (r: bool)
    ensures r <==> mirrored.Some? && exists i :: 0 <= i < |mirrored.value| && mirrored.value[i].typename == Some("FileValue")
  {
    AnyFileValue(mirrored.GetOr([]))
  }

  // --- getAssets --------------------------------------------------------------

  /** An entry of `item.assets`; `id` is already `asset.id.toString()`. */
  datatype Asset = Asset(id: string, publicUrl: string, name: string)

  /** The queried attachment column: its type, JSON value and, for a
      mirror, the ids of its linked items (None for a null `linked_item`). */
  datatype AssetColumn = AssetColumn(kind: string, value: Option<string>, linkedItems: Option<seq<Option<string>>>)

  /** `res.data?.items?.[0]` of the asset query, with its first column value
      and its assets. */
  datatype AssetItem = AssetItem(column: Option<AssetColumn>, assets: Option<seq<Asset>>)

  /** `parsedValue.files.map((file) => file.assetId)` followed by
      `.map(String)`; a null file throws. */
  function AssetIds(files: seq<JsValue>): (r: Result<seq<string>>)
    ensures r.Ok? <==> forall i :: 0 <= i < |files| ==> !IsNullish(files[i])
    ensures r.Err? ==> r.error == TypeError
    ensures r.Ok? ==> |r.value| == |files| && forall i :: 0 <= i < |files| ==> r.value[i] == ToString(Get(files[i], "assetId"))
  {
    if files == [] then Ok([])
    else if IsNullish(files[0]) then Err(TypeError)
    else match AssetIds(files[1..])
      case Err(e) => Err(e)
      case Ok(rest) => Ok([ToString(Get(files[0], "assetId"))] + rest)
  }

  /** `assets.filter((asset) => ids.includes(asset.id.toString()))`. */
  function FilterAssets(assets: seq<Asset>, ids: seq<string>): (r: seq<Asset>)
    ensures forall a :: a in r <==> a in assets && a.id in ids
    ensures |r| <= |assets|
  {
    if assets == [] then []
    else (if assets[0].id in ids then [assets[0]] else []) + FilterAssets(assets[1..], ids)
  }

  /** The filter keeps the order of the assets: filtering a concatenation
      concatenates the filtered parts. */
  lemma {:induction false} FilterAssetsAppend(a: seq<Asset>, b: seq<Asset>, ids: seq<string>)
    ensures FilterAssets(a + b, ids) == FilterAssets(a, ids) + FilterAssets(b, ids)
  {
    if a != [] {
      assert (a + b)[1..] == a[1..] + b;
      FilterAssetsAppend(a[1..], b, ids);
    } else {
      assert a + b == b;
    }
  }

  /** Assets whose ids are all listed pass through unchanged. */
  lemma {:induction false} FilterAssetsAll(assets: seq<Asset>, ids: seq<string>)
    requires forall i :: 0 <= i < |assets| ==> assets[i].id in ids
    ensures FilterAssets(assets, ids) == assets
  {
    if assets != [] {
      FilterAssetsAll(assets[1..], ids);
    }
  }

  /** `parsedValue`: the column's parsed value, `{ files: [] }` for a column
      without a value, None when `JSON.parse` throws. */
  function ParsedColumnValue(item: Option<AssetItem>, parse: Parser): Option<JsValue>
  {
    var column := if item.Some? then item.value.column else None;
    if column.Some? && column.value.value.Some? && column.value.value.value != "" then
      parse(column.value.value.value)
    else Some(Obj(map["files" := Arr([])]))
  }

  /** The native-file branch of `getAssets`: a column without a value stands
      for `{ files: [] }`; a value that does not parse, or whose `files` is
      not an array, throws; missing item assets give `undefined` (None). */
  function NativeAssets(item: Option<AssetItem>, parse: Parser): (r: Result<Option<seq<Asset>>>)
    ensures r == Err("SyntaxError") <==> ParsedColumnValue(item, parse).None?
    ensures ParsedColumnValue(item, parse).Some? && !Get(ParsedColumnValue(item, parse).value, "files").Arr? ==>
      r == Err(TypeError)
    ensures ParsedColumnValue(item, parse).Some? && Get(ParsedColumnValue(item, parse).value, "files").Arr? ==>
      var ids := AssetIds(Get(ParsedColumnValue(item, parse).value, "files").elems);
      && (ids.Err? ==> r == Err(TypeError))
      && (ids.Ok? && item.Some? && item.value.assets.Some? ==>
            r == Ok(Some(FilterAssets(item.value.assets.value, ids.value))))
      && (ids.Ok? && !(item.Some? && item.value.assets.Some?) ==> r == Ok(None))
    ensures r.Ok? && r.value.Some? ==> item.Some? && item.value.assets.Some?
    ensures r.Ok? && r.value.Some? ==> forall a :: a in r.value.value ==> a in item.value.assets.value
  {
    match ParsedColumnValue(item, parse)
    case None => Err("SyntaxError")
    case Some(p) =>
      var files := Get(p, "files");
      if !files.Arr? then Err(TypeError)
      else
        match AssetIds(files.elems)
        case Err(e) => Err(e)
        case Ok(ids) =>
          if item.Some? && item.value.assets.Some? then Ok(Some(FilterAssets(item.value.assets.value, ids)))
          else Ok(None)
  }

  /** A file column without a value contributes no asset of the item. */
  lemma NativeAssetsWithoutValue(item: AssetItem, parse: Parser)
    requires item.column.None? || item.column.value.value.None? || item.column.value.value.value == ""
    requires item.assets.Some?
    ensures NativeAssets(Some(item), parse) == Ok(Some([]))
  {
    FilterAssetsNone(item.assets.value);
  }

  /** Filtering by no id keeps no asset. */
  lemma {:induction false} FilterAssetsNone(assets: seq<Asset>)
    ensures FilterAssets(assets, []) == []
  {
    if assets != [] {
      FilterAssetsNone(assets[1..]);
    }
  }

  /** The assets one mirrored item contributes: those of its linked item,
      fetched when the id is present and non-empty, `[]` when the answer
      holds none. */
  function LinkedAssets(link: Option<string>, lookup: string -> Option<seq<Asset>>): seq<Asset>
  {
    match link
    case None => []
    case Some(id) => if id == "" then [] else lookup(id).GetOr([])
  }

  /** Everything the mirror branch of `getAssets` collects, in order. */
  function MirrorAssets(links: seq<Option<string>>, lookup: string -> Option<seq<Asset>>): seq<Asset>
  {
    if links == [] then [] else LinkedAssets(links[0], lookup) + MirrorAssets(links[1..], lookup)
  }

  lemma {:induction false} MirrorAssetsAppend(a: seq<Option<string>>, b: seq<Option<string>>, lookup: string -> Option<seq<Asset>>)
    ensures MirrorAssets(a + b, lookup) == MirrorAssets(a, lookup) + MirrorAssets(b, lookup)
  {
    if a != [] {
      assert (a + b)[1..] == a[1..] + b;
      MirrorAssetsAppend(a[1..], b, lookup);
    } else {
      assert a + b == b;
    }
  }

  /** An asset is collected exactly when some linked item with an id
      carries it. */
  lemma {:induction false} MirrorAssetsMembers(links: seq<Option<string>>, lookup: string -> Option<seq<Asset>>, a: Asset)
    ensures a in MirrorAssets(links, lookup) <==>
      exists i :: 0 <= i < |links| && a in LinkedAssets(links[i], lookup)
  {
    if links != [] {
      MirrorAssetsMembers(links[1..], lookup, a);
      if a in MirrorAssets(links[1..], lookup) {
        var i :| 0 <= i < |links[1..]| && a in LinkedAssets(links[1..][i], lookup);
        assert links[i + 1] == links[1..][i];
      }
      if exists i :: 0 <= i < |links| && a in LinkedAssets(links[i], lookup) {
        var i :| 0 <= i < |links| && a in LinkedAssets(links[i], lookup);
        if i > 0 {
          assert links[1..][i - 1] == links[i];
        }
      }
    }
  }

  /** The `for ... of mirroredItems` loop of `getAssets`: one lookup per
      linked item with an id, its assets pushed in turn. */
  method CollectMirrorAssets(links: seq<Option<string>>, lookup: string -> Option<seq<Asset>>) returns (collected: seq<Asset>)
    ensures collected == MirrorAssets(links, lookup)
  {
    collected := [];
    var i := 0;
    while i < |links|
      invariant 0 <= i <= |links|
      invariant collected == MirrorAssets(links[..i], lookup)
    {
      var link := links[i];
      if link.Some? && link.value != "" {
        collected := collected + lookup(link.value).GetOr([]);
      }
      MirrorAssetsAppend(links[..i], [links[i]], lookup);
      assert links[..i + 1] == links[..i] + [links[i]];
      assert MirrorAssets([links[i]], lookup) == LinkedAssets(links[i], lookup);
      i := i + 1;
    }
    assert links[..i] == links;
  }

  /** `getAssets`: a mirror column that mirrors files collects the linked
      items' assets; anything else takes the native-file branch. `mirrored`
      is what `getColumnsMirror` reads for the column and `lookup` the
      asset query for a linked item. */
  method GetAssets(item: Option<AssetItem>, mirrored: Option<seq<MirroredItem>>,
                   lookup: string -> Option<seq<Asset>>, parse: Parser)
    returns (r: Result<Option<seq<Asset>>>)
    ensures var column := if item.Some? then item.value.column else None;
      if column.Some? && column.value.kind == "mirror" && IsMirrorFile(mirrored)
      then r == Ok(Some(MirrorAssets(column.value.linkedItems.GetOr([]), lookup)))
      else r == NativeAssets(item, parse)
  {
    var column := if item.Some? then item.value.column else None;
    if column.Some? && column.value.kind == "mirror" {
      if IsMirrorFile(mirrored) {
        var collected := CollectMirrorAssets(column.value.linkedItems.GetOr([]), lookup);
        return Ok(Some(collected));
      }
    }
    return NativeAssets(item, parse);
  }

  // --- getAttachmentColumns ---------------------------------------------------

  /** A board column as `getColumnsList` returns it. */
  datatype BoardColumn = BoardColumn(id: string, title: string, kind: string)

  /** A column holds attachments: a file column, or a mirror whose mirrored
      values are files. */
  predicate HoldsFiles(column: BoardColumn, mirrored: string -> Option<seq<MirroredItem>>) {
    column.kind == "file" || (column.kind == "mirror" && IsMirrorFile(mirrored(column.id)))
  }

  /** The attachment columns, in board order. */
  function FileColumns(columns: seq<BoardColumn>, mirrored: string -> Option<seq<MirroredItem>>): (r: seq<BoardColumn>)
    ensures forall c :: c in r <==> c in columns && HoldsFiles(c, mirrored)
  {
    if columns == [] then []
    else (if HoldsFiles(columns[0], mirrored) then [columns[0]] else []) + FileColumns(columns[1..], mirrored)
  }

  lemma {:induction false} FileColumnsAppend(a: seq<BoardColumn>, b: seq<BoardColumn>, mirrored: string -> Option<seq<MirroredItem>>)
    ensures FileColumns(a + b, mirrored) == FileColumns(a, mirrored) + FileColumns(b, mirrored)
  {
    if a != [] {
      assert (a + b)[1..] == a[1..] + b;
      FileColumnsAppend(a[1..], b, mirrored);
    } else {
      assert a + b == b;
    }
  }

  function NoItemsIn(boardId: string): string {
    "No items found in board with ID " + boardId
  }

  /** `getAttachmentColumns`: fails when the board has no item (from
      `getFirstPulseId`), otherwise keeps file columns and the mirror columns
      that mirror files of the first item. `mirrored(pulseId, columnId)` is
      what `getColumnsMirror` reads. */
  method GetAttachmentColumns(boardId: string, itemIds: seq<string>, columns: seq<BoardColumn>,
                              mirrored: (string, string) -> Option<seq<MirroredItem>>)
    returns (r: Result<seq<BoardColumn>>)
    ensures |itemIds| == 0 ==> r == Err(NoItemsIn(boardId))
    ensures |itemIds| > 0 ==> r == Ok(FileColumns(columns, (id: string) => mirrored(itemIds[0], id)))
  {
    if |itemIds| == 0 {
      return Err(NoItemsIn(boardId));
    }
    var pulseId := itemIds[0];
    ghost var forItem := (id: string) => mirrored(pulseId, id);
    var attachments: seq<BoardColumn> := [];
    var i := 0;
    while i < |columns|
      invariant 0 <= i <= |columns|
      invariant attachments == FileColumns(columns[..i], forItem)
    {
      var column := columns[i];
      if column.kind == "file" {
        attachments := attachments + [column];
      } else if column.kind == "mirror" {
        if IsMirrorFile(mirrored(pulseId, column.id)) {
          attachments := attachments + [column];
        }
      }
      FileColumnsAppend(columns[..i], [columns[i]], forItem);
      assert columns[..i + 1] == columns[..i] + [columns[i]];
      assert FileColumns([columns[i]], forItem) == (if HoldsFiles(columns[i], forItem) then [columns[i]] else []);
      i := i + 1;
    }
    assert columns[..i] == columns;
    return Ok(attachments);
  }
}
