/** The DynamoDB column-mapping store (`src/utils/mappingUtils.js`): the
    `columnMapping` table is a value from item key to item, and each call
    returns the table it leaves behind. Whether the database call itself
    succeeds is a parameter. */
module MappingUtils {
  import opened Js
  import opened ColumnMapping

  /** A table item: its `boardId` attribute (the prefixed key) and the fields. */
  datatype StoredItem = StoredItem(boardId: string, mapping: Mapping)

  type Table = map<string, StoredItem>

  const SaveError := "Error al guardar el mapping."
  const ReadError := "Error al leer el mapping."

  /** `saveColumnMapping`: a `PutCommand` that replaces the whole item of the
      board. The item is built before the `try`, so a nullish `mappingData`
      escapes as the `TypeError` itself; a failing put becomes `SaveError`. */
  function SaveColumnMapping(table: Table, boardId: string, data: JsValue, putOk: bool): (r: Result<Table>)
    ensures IsNullish(data) ==> r == Err(TypeError)
    ensures !IsNullish(data) && !putOk ==> r == Err(SaveError)
    ensures r.Ok? <==> !IsNullish(data) && putOk
    ensures r.Ok? ==> r.value.Keys == table.Keys + {DocumentKey(boardId)}
  {
    match Normalize(data)
    case Err(e) => Err(e)
    case Ok(m) =>
      if !putOk then Err(SaveError)
      else Ok(table[DocumentKey(boardId) := StoredItem(DocumentKey(boardId), m)])
  }

  /** `getColumnMapping`: the stored item as it is, or a default carrying the
      board id as given when there is none. A miss writes nothing. */
  function GetColumnMapping(table: Table, boardId: string, getOk: bool): (r: Result<MappingView>)
    ensures !getOk ==> r == Err(ReadError)
    ensures getOk && DocumentKey(boardId) !in table ==> r == Ok(MappingView(boardId, DefaultMapping))
    ensures getOk && DocumentKey(boardId) in table ==>
      r.Ok? && r.value.mapping == table[DocumentKey(boardId)].mapping
  {
    if !getOk then Err(ReadError)
    else if DocumentKey(boardId) !in table then Ok(MappingView(boardId, DefaultMapping))
    else
      var item := table[DocumentKey(boardId)];
      Ok(MappingView(item.boardId, item.mapping))
  }

  /** Reading a board back after saving it gives the normalised request,
      under the prefixed board id. */
  lemma SaveThenGet(table: Table, boardId: string, data: JsValue)
    requires !IsNullish(data)
    ensures SaveColumnMapping(table, boardId, data, true).Ok?
    ensures GetColumnMapping(SaveColumnMapping(table, boardId, data, true).value, boardId, true)
         == Ok(MappingView(DocumentKey(boardId), Normalize(data).value))
  {
  }

  /** Saving one board leaves what every other board reads unchanged. */
  lemma SaveKeepsOtherBoards(table: Table, boardId: string, other: string, data: JsValue)
    requires !IsNullish(data) && other != boardId
    ensures SaveColumnMapping(table, boardId, data, true).Ok?
    ensures GetColumnMapping(SaveColumnMapping(table, boardId, data, true).value, other, true)
         == GetColumnMapping(table, other, true)
  {
    if DocumentKey(other) == DocumentKey(boardId) {
      DocumentKeyInjective(other, boardId);
    }
  }

  /** Saving twice is saving once: the second save replaces the first. */
  lemma SaveOverwrites(table: Table, boardId: string, first: JsValue, second: JsValue)
    requires !IsNullish(first) && !IsNullish(second)
    ensures SaveColumnMapping(table, boardId, first, true).Ok?
    ensures SaveColumnMapping(SaveColumnMapping(table, boardId, first, true).value, boardId, second, true)
         == SaveColumnMapping(table, boardId, second, true)
  {
    var k := DocumentKey(boardId);
    var once := table[k := StoredItem(k, Normalize(first).value)];
    assert once[k := StoredItem(k, Normalize(second).value)] == table[k := StoredItem(k, Normalize(second).value)];
  }

  /** A board read back after a save reports the prefixed id, while a board
      never saved reports the id as given: the two paths of
      `getColumnMapping` disagree on `boardId`. */
  lemma HitAndMissBoardIds(table: Table, boardId: string, data: JsValue)
    requires !IsNullish(data) && DocumentKey(boardId) !in table
    ensures SaveColumnMapping(table, boardId, data, true).Ok?
    ensures GetColumnMapping(table, boardId, true).value.boardId == boardId
    ensures GetColumnMapping(SaveColumnMapping(table, boardId, data, true).value, boardId, true).value.boardId != boardId
  {
    assert |DocumentKey(boardId)| != |boardId|;
  }
}
