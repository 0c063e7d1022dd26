/** The Firestore column-mapping store (`src/utils/mappingUtils_firestore.js`):
    the `columnMappings` collection is a field of documents keyed by
    `boardId-<id>` that the two calls update in place. Whether each
    Firestore call succeeds is a parameter. */
module MappingFirestore {
  import opened Js
  import opened ColumnMapping

  const SaveError := "Error al guardar el mapping."
  const ReadError := "Error al leer el mapping."
  const SavedMessage := "Mapping saved successfully"

  /** What `getColumnMapping` returns for a stored document: the board id as
      given, the stored fields, and `variables || []`. */
  function ReadView(boardId: string, doc: Mapping): (r: MappingView)
    ensures r.boardId == boardId
    ensures Truthy(r.mapping.variables)
    ensures IsNormal(doc) ==> r == MappingView(boardId, doc)
  {
    MappingView(boardId, doc.(variables := OrList(doc.variables)))
  }

  class MappingStore {
    /** The documents of the collection, by document id. */
    var docs: map<string, Mapping>

    /** Every document was written by one of the two calls below. */
    predicate Valid()
      reads this
    {
      forall k :: k in docs ==> IsNormal(docs[k])
    }

    constructor()
      ensures docs == map[] && Valid()
    {
      docs := map[];
    }

    /** `saveColumnMapping`: the document of the board is replaced by the
        normalised request. Here the record is built inside the `try`, so a
        nullish `mappingData` is reported as `SaveError` too. */
    method SaveColumnMapping(boardId: string, data: JsValue, setOk: bool) returns (r: Result<string>)
      requires Valid()
      modifies this
      ensures Valid()
      ensures r.Ok? <==> !IsNullish(data) && setOk
      ensures r.Ok? ==> r.value == SavedMessage && docs == old(docs)[DocumentKey(boardId) := Normalize(data).value]
      ensures r.Err? ==> r.error == SaveError && docs == old(docs)
    {
      var m := Normalize(data);
      if m.Err? || !setOk {
        return Err(SaveError);
      }
      NormalizeIsNormal(data);
      docs := docs[DocumentKey(boardId) := m.value];
      r := Ok(SavedMessage);
    }

    /** `getColumnMapping`: a stored document is returned as `ReadView`; a
        missing one is first created with the default fields, then
        returned under the board id as given. */
    method GetColumnMapping(boardId: string, getOk: bool, setOk: bool) returns (r: Result<MappingView>)
      requires Valid()
      modifies this
      ensures Valid()
      ensures !getOk ==> r == Err(ReadError) && docs == old(docs)
      ensures getOk && DocumentKey(boardId) in old(docs) ==>
        r == Ok(MappingView(boardId, old(docs)[DocumentKey(boardId)])) && docs == old(docs)
      ensures getOk && DocumentKey(boardId) !in old(docs) && setOk ==>
        r == Ok(MappingView(boardId, DefaultMapping)) && docs == old(docs)[DocumentKey(boardId) := DefaultMapping]
      ensures getOk && DocumentKey(boardId) !in old(docs) && !setOk ==>
        r == Err(ReadError) && docs == old(docs)
    {
      if !getOk {
        return Err(ReadError);
      }
      var key := DocumentKey(boardId);
      if key !in docs {
        if !setOk {
          return Err(ReadError);
        }
        docs := docs[key := DefaultMapping];
        return Ok(MappingView(boardId, DefaultMapping));
      }
      r := Ok(ReadView(boardId, docs[key]));
    }
  }

  /** A save followed by a read returns the normalised request under the
      board id as given, and a second read returns the same as the first. */
  method SaveThenReadTwice(store: MappingStore, boardId: string, data: JsValue)
      returns (first: Result<MappingView>, second: Result<MappingView>)
    requires store.Valid() && !IsNullish(data)
    modifies store
    ensures store.Valid()
    ensures first == second == Ok(MappingView(boardId, Normalize(data).value))
    ensures store.docs == old(store.docs)[DocumentKey(boardId) := Normalize(data).value]
  {
    var saved := store.SaveColumnMapping(boardId, data, true);
    first := store.GetColumnMapping(boardId, true, true);
    second := store.GetColumnMapping(boardId, true, true);
  }

  /** A read of a board never saved creates its document, so the next read
      finds it and returns the same default. */
  method ReadMissTwice(store: MappingStore, boardId: string)
      returns (first: Result<MappingView>, second: Result<MappingView>)
    requires store.Valid() && DocumentKey(boardId) !in store.docs
    modifies store
    ensures store.Valid()
    ensures first == second == Ok(MappingView(boardId, DefaultMapping))
    ensures store.docs == old(store.docs)[DocumentKey(boardId) := DefaultMapping]
  {
    first := store.GetColumnMapping(boardId, true, true);
    second := store.GetColumnMapping(boardId, true, true);
  }
}
