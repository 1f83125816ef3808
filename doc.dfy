/**
 * A document module instance (`createDocWithContext`): its id, its full
 * path, the `collection` function for nested collections, and its actions,
 * each bound to the same `[collectionPath, docId]` pair.
 *
 * `handleActionPerStore` and `handleStreamPerStore` are not part of this
 * model: binding an action is recorded as the arguments it is bound with.
 * `actionNameTypeMap` is not part of this model either and is the parameter
 * `typeOf`; the streams registry is an opaque value of type `S`. The global
 * config and `docFn`, passed through untouched, are left out.
 */
module Doc {
  import opened Wrappers
  import opened Values

  datatype ActionName = Insert | Merge | Assign | Replace | DeleteProp | Delete | Fetch | Stream

  const AllActions: set<ActionName> := {Insert, Merge, Assign, Replace, DeleteProp, Delete, Fetch, Stream}

  /** What an action is bound to: `handleActionPerStore(...)` or `handleStreamPerStore(...)`. */
  datatype BoundAction<S, T> =
    | PerStore(target: ModuleTarget, moduleConfig: PlainObject, actionName: ActionName, actionType: T)
    | StreamPerStore(target: ModuleTarget, moduleConfig: PlainObject, actionType: T, streams: S)

  datatype DocInstance<S, T> = DocInstance(
    id: Option<string>,
    path: string,
    streams: S,
    actions: map<ActionName, BoundAction<S, T>>)

  /** The call `collection(collectionId, moduleConfig)` makes on `collectionFn`. */
  datatype CollectionCall = CollectionCall(path: string, moduleConfig: PlainObject)

  /** `[collectionPath, docId].join('/')`: an absent `docId` joins as the empty string. */
  function JoinPath(collectionPath: string, docId: Option<string>): (path: string)
    ensures |path| > |collectionPath| && path[..|collectionPath| + 1] == collectionPath + "/"
    ensures '/' !in docId.GetOr("") ==> LastSegment(path) == docId.GetOr("")
  {
    var path := collectionPath + "/" + docId.GetOr("");
    assert path[..|collectionPath| + 1] == collectionPath + "/";
    assert '/' !in docId.GetOr("") ==> LastSegment(path) == docId.GetOr("") by {
      if '/' !in docId.GetOr("") {
        LastSegmentOfJoin(collectionPath, docId.GetOr(""));
      }
    }
    path
  }

  function CreateDocWithContext<S, T>(target: ModuleTarget, moduleConfig: PlainObject, streams: S, typeOf: ActionName -> T): (doc: DocInstance<S, T>)
    ensures doc.id == target.docId
    ensures doc.path == JoinPath(target.collectionPath, target.docId)
    ensures doc.streams == streams
    ensures doc.actions.Keys == AllActions
    ensures forall a :: a in doc.actions && a != Stream ==> doc.actions[a] == PerStore(target, moduleConfig, a, typeOf(a))
    ensures doc.actions[Stream] == StreamPerStore(target, moduleConfig, typeOf(Stream), streams)
  {
    var actions := map a | a in AllActions ::
      if a == Stream then StreamPerStore(target, moduleConfig, typeOf(a), streams)
      else PerStore(target, moduleConfig, a, typeOf(a));
    DocInstance(target.docId, JoinPath(target.collectionPath, target.docId), streams, actions)
  }

  /**
   * `collection(collectionId, moduleConfig)`: the nested collection lives
   * under the document's path, with the collection id as its final part.
   */
  function Collection<S, T>(doc: DocInstance<S, T>, collectionId: string, moduleConfig: PlainObject): (call: CollectionCall)
    ensures call.moduleConfig == moduleConfig
    ensures |call.path| == |doc.path| + 1 + |collectionId|
    ensures call.path[..|doc.path| + 1] == doc.path + "/"
    ensures '/' !in collectionId ==> Split(call.path) == Some((doc.path, collectionId))
  {
    var path := doc.path + "/" + collectionId;
    assert path[..|doc.path| + 1] == doc.path + "/";
    assert '/' !in collectionId ==> Split(path) == Some((doc.path, collectionId)) by {
      if '/' !in collectionId {
        SplitJoin(doc.path, collectionId);
      }
    }
    CollectionCall(path, moduleConfig)
  }

  /** The part of a path after its last '/'; the whole path when it has none. */
  function LastSegment(path: string): (last: string)
    ensures |last| <= |path| && last == path[|path| - |last|..]
    ensures '/' !in last
    ensures |last| < |path| ==> path[|path| - |last| - 1] == '/'
    decreases |path|
  {
    if path == [] || path[|path| - 1] == '/' then []
    else LastSegment(path[..|path| - 1]) + [path[|path| - 1]]
  }

  /** A path cut at its last '/': the parent path and the final part; none when there is no '/'. */
  function Split(path: string): (parts: Option<(string, string)>)
    ensures parts.Some? ==> parts.value.0 + "/" + parts.value.1 == path && '/' !in parts.value.1
  {
    var last := LastSegment(path);
    if |last| == |path| then None
    else
      assert path == path[..|path| - |last| - 1] + "/" + last;
      Some((path[..|path| - |last| - 1], last))
  }

  /** Appending a '/'-free segment makes it the last segment. */
  lemma {:induction false} LastSegmentOfJoin(parent: string, segment: string)
    requires '/' !in segment
    ensures LastSegment(parent + "/" + segment) == segment
    decreases |segment|
  {
    var path := parent + "/" + segment;
    if segment == [] {
      assert path[|path| - 1] == '/';
    } else {
      var shorter := segment[..|segment| - 1];
      LastSegmentOfJoin(parent, shorter);
      assert path[..|path| - 1] == parent + "/" + shorter;
      assert shorter + [segment[|segment| - 1]] == segment;
    }
  }

  /** Splitting a joined path gives back the pair it was joined from. */
  lemma SplitJoin(parent: string, segment: string)
    requires '/' !in segment
    ensures Split(parent + "/" + segment) == Some((parent, segment))
  {
    LastSegmentOfJoin(parent, segment);
    var path := parent + "/" + segment;
    assert path[..|path| - |segment| - 1] == parent;
  }

  /**
   * The document's path is its collection path and its id, joined: `id` is
   * only the final part of `path`, never the full path.
   */
  lemma IdIsFinalPart<S, T>(target: ModuleTarget, moduleConfig: PlainObject, streams: S, typeOf: ActionName -> T)
    requires target.docId.Some? && '/' !in target.docId.value
    ensures var doc := CreateDocWithContext(target, moduleConfig, streams, typeOf);
            Split(doc.path) == Some((target.collectionPath, target.docId.value))
            && doc.id == Some(LastSegment(doc.path))
  {
    SplitJoin(target.collectionPath, target.docId.value);
  }

  /**
   * A nested collection's path splits into the document's path and the
   * collection id, and that path in turn into the collection path and the
   * document id.
   */
  lemma NestedCollectionPath<S, T>(target: ModuleTarget, moduleConfig: PlainObject, streams: S, typeOf: ActionName -> T,
                                   collectionId: string, nestedConfig: PlainObject)
    requires target.docId.Some? && '/' !in target.docId.value && '/' !in collectionId
    ensures var doc := CreateDocWithContext(target, moduleConfig, streams, typeOf);
            var call := Collection(doc, collectionId, nestedConfig);
            Split(call.path) == Some((doc.path, collectionId))
            && Split(doc.path) == Some((target.collectionPath, target.docId.value))
            && call.moduleConfig == nestedConfig
  {
    var doc := CreateDocWithContext(target, moduleConfig, streams, typeOf);
    SplitJoin(doc.path, collectionId);
    SplitJoin(target.collectionPath, target.docId.value);
  }
}
