/**
 * The Firestore store's `delete` action: it resolves the id of the document
 * to delete, refuses to go on without one, works out the document path and
 * the debounce window, and hands the deletion to the batch-sync debouncer,
 * whose result it returns unchanged.
 *
 * `getFirestoreDocPath` is not part of this model and is the parameter
 * `docPath`; the debouncer is opaque here and is the parameter `batchDelete`,
 * applied to the call `delete` makes on it.
 */
module FirestoreDelete {
  import opened Wrappers
  import opened Values

  const NoId := "No ID passed to delete action."

  /** The call made on the debouncer: `batchSync.delete(documentPath, syncDebounceMs)`. */
  datatype DeleteCall = DeleteCall(documentPath: string, syncDebounceMs: Value)

  /** `docId || payload`. */
  function ResolveId(docId: Option<string>, payload: Value): (id: Value)
    ensures docId.Some? && docId.value != "" ==> id == Str(docId.value)
    ensures !(docId.Some? && docId.value != "") ==> id == payload
  {
    Or(OptionalString(docId), payload)
  }

  /** The action's own `syncDebounceMs` when it is a number, else the module's, whatever it is. */
  function DebounceMs(actionConfig: PlainObject, pluginModuleConfig: PlainObject): (ms: Value)
    ensures IsNumber(Get(actionConfig, "syncDebounceMs")) ==> ms == actionConfig["syncDebounceMs"]
    ensures !IsNumber(Get(actionConfig, "syncDebounceMs")) ==> ms == Get(pluginModuleConfig, "syncDebounceMs")
  {
    var fromAction := Get(actionConfig, "syncDebounceMs");
    if IsNumber(fromAction) then fromAction else Get(pluginModuleConfig, "syncDebounceMs")
  }

  /**
   * The action. It rejects with `NoId` exactly when neither a truthy `docId`
   * nor a non-empty string payload names the document; otherwise the path is
   * built from the collection path and that id, never from `docId` alone, and
   * the result is the debouncer's.
   */
  function Delete<R>(
    payload: Value,
    collectionPath: string,
    docId: Option<string>,
    actionConfig: PlainObject,
    pluginModuleConfig: PlainObject,
    docPath: (string, string) -> string,
    batchDelete: DeleteCall -> R
  ): (r: Result<R, string>)
    ensures docId.Some? && docId.value != "" ==>
              r == Ok(batchDelete(DeleteCall(docPath(collectionPath, docId.value), DebounceMs(actionConfig, pluginModuleConfig))))
    ensures !(docId.Some? && docId.value != "") && IsFullString(payload) ==>
              r == Ok(batchDelete(DeleteCall(docPath(collectionPath, payload.s), DebounceMs(actionConfig, pluginModuleConfig))))
    ensures !(docId.Some? && docId.value != "") && !IsFullString(payload) ==> r == Err(NoId)
  {
    var id := ResolveId(docId, payload);
    if !IsFullString(id) then Err(NoId)
    else
      var documentPath := docPath(collectionPath, id.s);
      var syncDebounceMs := DebounceMs(actionConfig, pluginModuleConfig);
      Ok(batchDelete(DeleteCall(documentPath, syncDebounceMs)))
  }
}
