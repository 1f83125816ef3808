/**
 * The mock remote store the engine is tested against: one function per
 * action (`insert`, `merge`/`assign`/`replace`, `deleteProp`, `delete`,
 * `get`, `stream`) plus `revert`.
 *
 * `throwIfEmulatedError` is not part of this model: whether it throws for
 * the payload at hand is the parameter `emulatedError`, and what it throws is
 * `EmulatedError`. `generateRandomId` is the parameter `generatedId`. The
 * pokedex records a collection query retrieves (the pokedex itself and
 * `filterDataPerClauses` are not part of this model) are the parameter
 * `collectionRecords`. Waiting (`waitMs`, `setTimeout`) is left out except
 * for the order in which the stream's timers fire.
 */
module MockRemote {
  import opened Wrappers
  import opened Values

  const OnCollection := "An non-existent action was triggered on a collection"

  datatype MockError = EmulatedError | Thrown(message: string)

  datatype WriteActionName = Merge | Assign | Replace

  /** `{ data, exists, id }` (`exists` is `docExists` here), as handed to the engine for each retrieved record. */
  datatype DocMetadata = DocMetadata(data: PlainObject, docExists: bool, id: Value)

  datatype GetResponse = GetResponse(docs: seq<DocMetadata>)

  /** The one record a document query retrieves. */
  const LucaDoc: PlainObject := map["name" := Str("Luca"), "age" := Num(10.0), "dream" := Str("job")]

  /** The records a document stream delivers, one timer each. */
  const LucaStream: seq<PlainObject> := [
    map["name" := Str("Luca"), "age" := Num(10.0)],
    map["name" := Str("Luca"), "age" := Num(10.0)],
    map["name" := Str("Luca"), "age" := Num(10.0), "dream" := Str("job")],
    map["name" := Str("Luca"), "age" := Num(10.0), "dream" := Str("job"), "colour" := Str("blue")]
  ]

  /** `insert`: the given `docId`, or a generated id when there is none. */
  function Insert(payload: PlainObject, target: ModuleTarget, emulatedError: bool, generatedId: string): (r: Result<string, MockError>)
    ensures emulatedError ==> r == Err(EmulatedError)
    ensures !emulatedError && HasDocId(target) ==> r == Ok(target.docId.value)
    ensures !emulatedError && !HasDocId(target) ==> r == Ok(generatedId)
  {
    if emulatedError then Err(EmulatedError)
    else if !HasDocId(target) then Ok(generatedId)
    else Ok(target.docId.value)
  }

  /** `merge`, `assign` and `replace`: refused on a collection. */
  function Write(action: WriteActionName, payload: PlainObject, target: ModuleTarget, emulatedError: bool): (r: Result<(), MockError>)
    ensures r.Ok? <==> !emulatedError && HasDocId(target)
    ensures emulatedError ==> r == Err(EmulatedError)
    ensures !emulatedError && !HasDocId(target) ==> r == Err(Thrown(OnCollection))
  {
    if emulatedError then Err(EmulatedError)
    else if !HasDocId(target) then Err(Thrown(OnCollection))
    else Ok(())
  }

  /** `deleteProp`: refused on a collection. */
  function DeleteProp(payload: seq<string>, target: ModuleTarget, emulatedError: bool): (r: Result<(), MockError>)
    ensures r.Ok? <==> !emulatedError && HasDocId(target)
    ensures emulatedError ==> r == Err(EmulatedError)
    ensures !emulatedError && !HasDocId(target) ==> r == Err(Thrown(OnCollection))
  {
    if emulatedError then Err(EmulatedError)
    else if !HasDocId(target) then Err(Thrown(OnCollection))
    else Ok(())
  }

  /** `delete`: no guard on `docId`; only the emulated error fails it. */
  function Delete(target: ModuleTarget, emulatedError: bool): (r: Result<(), MockError>)
    ensures r.Ok? <==> !emulatedError
    ensures emulatedError ==> r == Err(EmulatedError)
  {
    if emulatedError then Err(EmulatedError) else Ok(())
  }

  /** `mockDataRetrieval`: a document yields the single Luca record; a collection its query's records. */
  function Retrieve(isDoc: bool, collectionRecords: seq<PlainObject>): (records: seq<PlainObject>)
    ensures isDoc ==> records == [LucaDoc] && "id" !in records[0]
    ensures !isDoc ==> records == collectionRecords
  {
    if isDoc then [LucaDoc] else collectionRecords
  }

  /** The metadata of one record: its own truthy `id`, else the module's `docId`. */
  function Metadata(data: PlainObject, docId: Option<string>): (meta: DocMetadata)
    ensures meta.data == data && meta.docExists
    ensures Truthy(Get(data, "id")) ==> meta.id == data["id"]
    ensures !Truthy(Get(data, "id")) ==> meta.id == OptionalString(docId)
  {
    DocMetadata(data, true, Or(Get(data, "id"), OptionalString(docId)))
  }

  /** `dataRetrieved.map(...)`: one metadata record per retrieved record, in order. */
  function MapMetadata(records: seq<PlainObject>, docId: Option<string>): (docs: seq<DocMetadata>)
    ensures |docs| == |records|
    ensures forall i :: 0 <= i < |records| ==> docs[i] == Metadata(records[i], docId)
    decreases |records|
  {
    if records == [] then []
    else [Metadata(records[0], docId)] + MapMetadata(records[1..], docId)
  }

  /** `get`: the emulated error, or every retrieved record mapped to `{ data, exists: true, id }`. */
  function GetAction(target: ModuleTarget, emulatedError: bool, collectionRecords: seq<PlainObject>): (r: Result<GetResponse, MockError>)
    ensures emulatedError ==> r == Err(EmulatedError)
    ensures !emulatedError && HasDocId(target) ==>
              r == Ok(GetResponse([DocMetadata(LucaDoc, true, Str(target.docId.value))]))
    ensures !emulatedError && !HasDocId(target) ==>
              r.Ok? && |r.value.docs| == |collectionRecords|
              && forall i :: 0 <= i < |collectionRecords| ==>
                   r.value.docs[i].data == collectionRecords[i] && r.value.docs[i].docExists
                   && r.value.docs[i].id == Or(Get(collectionRecords[i], "id"), OptionalString(target.docId))
  {
    if emulatedError then Err(EmulatedError)
    else
      assert "id" !in LucaDoc;
      assert HasDocId(target) ==> MapMetadata([LucaDoc], target.docId) == [Metadata(LucaDoc, target.docId)];
      Ok(GetResponse(MapMetadata(Retrieve(HasDocId(target), collectionRecords), target.docId)))
  }

  /** `revert`: does nothing and never fails. */
  function Revert(payload: Value, target: ModuleTarget, actionName: string): (r: Result<(), MockError>)
    ensures r == Ok(())
  {
    Ok(())
  }

  /** The records a stream schedules: the four Luca records for a document, else the query's. */
  function StreamRecords(target: ModuleTarget, collectionRecords: seq<PlainObject>): (records: seq<PlainObject>)
    ensures HasDocId(target) ==> records == LucaStream && |records| == 4
    ensures !HasDocId(target) ==> records == collectionRecords
  {
    if HasDocId(target) then LucaStream else collectionRecords
  }

  /**
   * One open mock stream: `stopStreaming.stopped`, the records whose timers
   * have not fired yet (timer i waits 10 + 200 * i ms, so they fire in
   * order), the `added` calls made so far, and whether `streaming` resolved.
   */
  class MockStream {
    const docId: Option<string>
    var stopped: bool
    var scheduled: seq<PlainObject>
    var added: seq<DocMetadata>
    var streamingResolved: bool

    /** `stream(payload, [collectionPath, docId], ...)`: schedule every record, nothing delivered yet. */
    constructor Open(target: ModuleTarget, collectionRecords: seq<PlainObject>)
      ensures docId == target.docId
      ensures scheduled == StreamRecords(target, collectionRecords)
      ensures !stopped && added == [] && !streamingResolved
    {
      docId := target.docId;
      stopped := false;
      scheduled := StreamRecords(target, collectionRecords);
      added := [];
      streamingResolved := false;
    }

    /** The next timer fires: it delivers its record unless the stream was stopped. */
    method Tick()
      modifies this
      ensures scheduled == if old(scheduled) == [] then [] else old(scheduled)[1..]
      ensures old(stopped) || old(scheduled) == [] ==> added == old(added)
      ensures !old(stopped) && old(scheduled) != [] ==> added == old(added) + [Metadata(old(scheduled)[0], docId)]
      ensures stopped == old(stopped) && streamingResolved == old(streamingResolved)
    {
      if scheduled == [] {
        return;
      }
      var data := scheduled[0];
      scheduled := scheduled[1..];
      // mock when the stream is already stopped
      if stopped {
        return;
      }
      added := added + [Metadata(data, docId)];
    }

    /** `stop()`: set the flag and resolve `streaming`; timers still pending stay scheduled. */
    method Stop()
      modifies this
      ensures stopped && streamingResolved
      ensures scheduled == old(scheduled) && added == old(added)
    {
      stopped := true;
      streamingResolved := true;
    }
  }

  /**
   * Open a stream, let `k` timers fire, stop it, let the rest fire: exactly
   * the first `k` records were delivered, in order, and nothing after `stop()`.
   */
  method StreamUntilStopped(target: ModuleTarget, collectionRecords: seq<PlainObject>, k: nat)
    returns (delivered: seq<DocMetadata>)
    requires k <= |StreamRecords(target, collectionRecords)|
    ensures delivered == MapMetadata(StreamRecords(target, collectionRecords)[..k], target.docId)
  {
    var records := StreamRecords(target, collectionRecords);
    var stream := new MockStream.Open(target, collectionRecords);
    var i := 0;
    while i < k
      invariant 0 <= i <= k
      invariant !stream.stopped && stream.docId == target.docId
      invariant stream.scheduled == records[i..]
      invariant stream.added == MapMetadata(records[..i], target.docId)
    {
      stream.Tick();
      i := i + 1;
    }
    stream.Stop();
    while i < |records|
      invariant k <= i <= |records|
      invariant stream.stopped
      invariant stream.scheduled == records[i..]
      invariant stream.added == MapMetadata(records[..k], target.docId)
    {
      stream.Tick();
      i := i + 1;
    }
    delivered := stream.added;
  }
}
