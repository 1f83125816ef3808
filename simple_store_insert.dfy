/**
 * The simple store's `insert` action. The store's module data maps each
 * collection path to a map from document id to document; `insert` either
 * stores the payload under its id in a collection, or shallow-merges it into
 * one document, creating that document first when it is missing.
 *
 * A module path arrives already parsed into a collection or a document
 * target (`isCollectionModule` and `getCollectionPathDocIdEntry` are not part
 * of this model), and the id `generateRandomId` would return is a parameter.
 * Map keys are JavaScript values: a truthy `payload.id` is used as the key as
 * it is, whatever its type.
 */
module SimpleStore {
  import opened Wrappers
  import opened Values

  /** A parsed module path. */
  datatype ModulePath =
    | CollectionModule(collectionPath: string)
    | DocModule(collectionPath: string, docId: string)

  /** One collection of the store: `Map<id, document>`. */
  type CollectionMap = map<Value, PlainObject>

  /** Reading `.set`/`.get` of a collection map that was never set up throws a TypeError. */
  datatype InsertError = MissingCollection(collectionPath: string)

  /**
   * `Object.entries(payload).forEach(([key, value]) => { doc[key] = value })`:
   * every payload key overwrites the document's value and every other key of
   * the document keeps its value.
   */
  method ShallowMerge(doc: PlainObject, payload: PlainObject) returns (merged: PlainObject)
    ensures merged.Keys == doc.Keys + payload.Keys
    ensures forall key :: key in payload ==> merged[key] == payload[key]
    ensures forall key :: key in doc && key !in payload ==> merged[key] == doc[key]
  {
    merged := doc;
    var entries := payload.Keys;
    while entries != {}
      invariant entries <= payload.Keys
      invariant merged.Keys == doc.Keys + (payload.Keys - entries)
      invariant forall key :: key in payload && key !in entries ==> merged[key] == payload[key]
      invariant forall key :: key in doc && (key !in payload || key in entries) ==> merged[key] == doc[key]
      decreases entries
    {
      var key :| key in entries;
      merged := merged[key := payload[key]];
      entries := entries - {key};
    }
  }

  class Store {
    /** `moduleData`: collection path to its collection map. */
    var moduleData: map<string, CollectionMap>

    constructor (initial: map<string, CollectionMap>)
      ensures moduleData == initial
    {
      moduleData := initial;
    }

    /**
     * `insert(payload, modulePath)`. On a collection: the id is `payload.id`
     * when truthy, else a generated one, and the payload is stored under it.
     * On a document: the document is created empty when missing, the payload
     * is merged into it, and the document id is returned.
     */
    method Insert(payload: PlainObject, target: ModulePath, generatedId: string) returns (r: Result<Value, InsertError>)
      modifies this
      ensures target.collectionPath !in old(moduleData) ==>
                r == Err(MissingCollection(target.collectionPath)) && moduleData == old(moduleData)
      ensures target.collectionPath in old(moduleData) ==>
                r.Ok? && moduleData.Keys == old(moduleData).Keys
                && (forall c :: c in moduleData && c != target.collectionPath ==> moduleData[c] == old(moduleData)[c])
                && r.value in moduleData[target.collectionPath]
                && (forall id :: id in old(moduleData)[target.collectionPath] && id != r.value ==>
                      id in moduleData[target.collectionPath]
                      && moduleData[target.collectionPath][id] == old(moduleData)[target.collectionPath][id])
                && moduleData[target.collectionPath].Keys == old(moduleData)[target.collectionPath].Keys + {r.value}
      ensures target.CollectionModule? && target.collectionPath in old(moduleData) ==>
                (Truthy(Get(payload, "id")) ==> r == Ok(payload["id"]))
                && (!Truthy(Get(payload, "id")) ==> r == Ok(Str(generatedId)))
                && moduleData[target.collectionPath][r.value] == payload
      ensures target.DocModule? && target.collectionPath in old(moduleData) ==>
                r == Ok(Str(target.docId)) && Str(target.docId) in moduleData[target.collectionPath]
                && var before := old(moduleData)[target.collectionPath];
                var after := moduleData[target.collectionPath][Str(target.docId)];
                var existing := if Str(target.docId) in before then before[Str(target.docId)] else map[];
                after.Keys == existing.Keys + payload.Keys
                && (forall key :: key in payload ==> after[key] == payload[key])
                && (forall key :: key in existing && key !in payload ==> after[key] == existing[key])
    {
      if target.CollectionModule? {
        var id := Or(Get(payload, "id"), Str(generatedId));
        var collectionPath := target.collectionPath;
        if collectionPath !in moduleData {
          return Err(MissingCollection(collectionPath));
        }
        moduleData := moduleData[collectionPath := moduleData[collectionPath][id := payload]];
        return Ok(id);
      }
      // else it's a doc
      var collectionPath, docId := target.collectionPath, target.docId;
      if collectionPath !in moduleData {
        return Err(MissingCollection(collectionPath));
      }
      var collectionMap := moduleData[collectionPath];
      // a stored document is an object, so it is truthy exactly when present
      if Str(docId) !in collectionMap {
        collectionMap := collectionMap[Str(docId) := map[]];
      }
      var docDataToMutate := ShallowMerge(collectionMap[Str(docId)], payload);
      collectionMap := collectionMap[Str(docId) := docDataToMutate];
      moduleData := moduleData[collectionPath := collectionMap];
      return Ok(Str(docId));
    }
  }
}
