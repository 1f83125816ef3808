# Magnetar store plugins — a Dafny model

Magnetar runs one data action (insert, merge, assign, replace, deleteProp,
delete, fetch, stream) across several stores attached to the same document
or collection. This project models the parts of it that sit inside single
stores and modules:

- **The Firestore batch-sync debouncer** (`batch_sync.dfy`, module
  `BatchSync`). The closure state `{ queue, countdown }` is the class
  `BatchSync.BatchSync`. `set`, `update` and `delete` each count one
  operation into the head stack of the queue. Each records its call on that
  stack's write batch and pushes its promise's resolver and rejecter there.
  Each then restarts the shared countdown. When the countdown fires,
  `executeSync` shifts the head stack off and commits its batch. Every
  promise of that stack then resolves, or every one rejects with the
  commit's error. A promise is a `Ticket`, and `settled` records what each
  promise settled to. The Firestore SDK is reduced to the calls it receives:
  a batch is the sequence of its `set`/`update`/`delete` records, and
  `commits` lists the batches passed to `commit()`. Whether a commit
  succeeds is an input of `Fire`.
- **The simple store's `insert`** (`simple_store_insert.dfy`, module
  `SimpleStore`). The store's `moduleData` is a field of class
  `SimpleStore.Store`. On a collection, `insert` stores the payload under its
  truthy `id` or a generated one. On a document, it shallow-merges the
  payload into the document, creating the document first when it is missing.
- **The Firestore `delete` action** (`firestore_delete.dfy`, module
  `FirestoreDelete`). It resolves the id as `docId || payload` and rejects
  when that is not a non-empty string. The action's number-valued
  `syncDebounceMs` takes precedence over the module's. The result is what
  the debouncer returns.
- **The mock remote store** (`mock_remote.dfy`, module `MockRemote`). This is
  the adapter the engine's tests run against. It covers insert id selection,
  the "non-existent action on a collection" guards, and the mapping of
  retrieved records to `{ data, exists, id }`. It also covers the mock
  stream, modelled as the class `MockRemote.MockStream`, whose `stopped`
  flag drops every event after `stop()`. `revert` does nothing.
- **Document instances** (`doc.dfy`, module `Doc`). A document's `id` is its
  `docId`, and its `path` is `[collectionPath, docId].join('/')`. Nested
  collections live at `path + "/" + collectionId`. Every action is bound to
  the same `[collectionPath, docId]` pair.

`values.dfy` holds the shared vocabulary. It has the `Option`/`Result`
wrappers and a model of JavaScript values with JavaScript truthiness, where
`0`, `""`, `null`, `undefined`, `NaN` and `false` are falsy. It also has
is-what's `isNumber` and `isFullString`.

What is proved, beyond each operation's contract:

- The debouncer's invariant holds, provided the SDK calls do not throw (see "Left out"). At most one stack is ever queued. A
  countdown exists exactly when a stack is queued. The queued stack has one
  operation, one resolver and one rejecter per call. Its promises are all
  still pending.
- Under that invariant, `executeSync` never throws when the countdown fires.
- Any number of calls made from an empty queue form a single stack. Its
  count is the number of calls, its batch lists the calls in order, and its
  resolvers are the calls' promises in the same order
  (`BatchSync.RunFromEmpty`). There is no cap: 501 calls give one stack of
  501 operations.
- Settlement is all or nothing (`BatchSync.SettleAllOrNothing`). In a whole
  burst-then-fire run, there is exactly one commit, it holds every call, and
  every promise gets the commit's outcome (`BatchSync.BurstThenFire`).
- For a `docId` without `/`, splitting a document's path at its last `/`
  gives back the collection path and the id. For a collection id without
  `/` as well, splitting a nested collection's path gives back the
  document's path and the collection id (`Doc.SplitJoin`,
  `Doc.IdIsFinalPart`, `Doc.NestedCollectionPath`). An id parsed out of a
  path, as in `doc('pokedex/25')`, never contains `/`; a `docId` with `/` in
  it makes the path split somewhere else.

A Firestore batched write holds at most 500 operations, and the comment on
`SyncStack.operationCount` says "Maximum 500!". Even so, `prepareSyncStack`
never checks the count and never starts a second stack. Nothing limits
commits in flight either. The model follows the code.

## Model

| member | source | states |
|---|---|---|
| `BatchSync.CountOperations` | packages/plugin-firestore/src/helpers/batchSync.ts:43-47 | every payload counts as exactly one batched operation |
| `BatchSync.Recorded` | packages/plugin-firestore/src/helpers/batchSync.ts:148-189 | `set` records its path, payload and `options \|\| {}`; `update` records its path and payload; `delete` records its path |
| `BatchSync.NewSyncStack` | packages/plugin-firestore/src/helpers/batchSync.ts:86-91 | a new stack has count 0, an empty batch and no resolvers or rejecters, so it is well-formed and all its promises count as pending |
| `BatchSync.RunFromEmpty` | packages/plugin-firestore/src/helpers/batchSync.ts:86-98 | calls made on an empty queue build one stack whose count is the number of calls, whose batch holds the calls in call order, and whose resolvers and rejecters are the calls' promises in that order; a second stack is never opened |
| `BatchSync.SettleAllOrNothing` | packages/plugin-firestore/src/helpers/batchSync.ts:121-124 | settling a stack's callbacks gives every pending promise among them the same outcome, keeps every promise already settled, and touches no other promise |
| `BatchSync.BatchSync.constructor` | packages/plugin-firestore/src/helpers/batchSync.ts:81-84 | the debouncer starts with an empty queue, no countdown, no commits and no settled promises, and its invariant holds |
| `BatchSync.BatchSync.PrepareSyncStack` | packages/plugin-firestore/src/helpers/batchSync.ts:93-98 | a fresh stack with count 0 and no batch, resolvers or rejecters is pushed only when the queue is empty; the head's count grows by exactly the given count and the rest of the queue is unchanged |
| `BatchSync.BatchSync.RecordInBatch` | packages/plugin-firestore/src/helpers/batchSync.ts:155-156 | the call is appended to the head stack's batch and nothing else changes |
| `BatchSync.BatchSync.NewPromise` | packages/plugin-firestore/src/helpers/batchSync.ts:157-160 | a new promise is handed out, and it is appended both to the head stack's resolvers and to its rejecters |
| `BatchSync.BatchSync.PrepareCountdown` | packages/plugin-firestore/src/helpers/batchSync.ts:132-141 | a countdown is created only when none exists; an existing one is returned unchanged |
| `BatchSync.BatchSync.TriggerSync` | packages/plugin-firestore/src/helpers/batchSync.ts:143-146 | after the call a countdown exists; a new one has been restarted once and an existing one once more |
| `BatchSync.BatchSync.Enqueue` | packages/plugin-firestore/src/helpers/batchSync.ts:153-162 | the steps that `set`, `update` and `delete` share: the operation, its count and its promise all land in the same head stack, the countdown is restarted, commits and settled promises are unchanged, and the invariant is kept |
| `BatchSync.BatchSync.Set` | packages/plugin-firestore/src/helpers/batchSync.ts:148-163 | `set` lands in the head stack with count one, recording `options` or `{}`; it returns a fresh promise, restarts the countdown and keeps the invariant |
| `BatchSync.BatchSync.Update` | packages/plugin-firestore/src/helpers/batchSync.ts:165-176 | `update` lands in the head stack with count one; it returns a fresh promise, restarts the countdown and keeps the invariant |
| `BatchSync.BatchSync.Delete` | packages/plugin-firestore/src/helpers/batchSync.ts:178-189 | `_delete` lands in the head stack with count one; it returns a fresh promise, restarts the countdown and keeps the invariant |
| `BatchSync.BatchSync.SettleAll` | packages/plugin-firestore/src/helpers/batchSync.ts:123-124 | calling each resolver, or each rejecter with the error, in order, settles the promises as `Settle` says |
| `BatchSync.BatchSync.ExecuteSync` | packages/plugin-firestore/src/helpers/batchSync.ts:116-125 | on an empty queue it throws "executeSync executed before it was instantiated" and changes nothing; otherwise it removes exactly the head stack, commits that stack's batch once, and settles its resolvers on success or its rejecters with the error on failure |
| `BatchSync.BatchSync.Fire` | packages/plugin-firestore/src/helpers/batchSync.ts:135-138 | when the countdown fires under the invariant, `executeSync` does not throw, the head stack's batch is committed, every one of its promises gets the commit's outcome, earlier outcomes are kept, the queue is empty, the countdown is reset, and the invariant holds |
| `BatchSync.BurstThenFire` | packages/plugin-firestore/src/helpers/batchSync.ts:132-189 | a burst of `set`/`update`/`delete` calls followed by one firing of the countdown makes exactly one commit, which records every call in call order; every returned promise then settles to that commit's outcome |
| `SimpleStore.ShallowMerge` | packages/simple-store/src/actions/insert.ts:33-36 | every payload key takes the payload's value, every other key of the document keeps its value, and no other key appears |
| `SimpleStore.Store.constructor` | packages/simple-store/src/actions/insert.ts:10-14 | the action works on the store's module data as given |
| `SimpleStore.Store.Insert` | packages/simple-store/src/actions/insert.ts:15-38 | on a collection, the id is `payload.id` when truthy and the generated id otherwise, and the payload is stored under that id; on a document, the document id is returned, a missing document starts out empty, and the payload is shallow-merged into it; all other documents and collections are unchanged; a collection map that was never set up gives an error |
| `FirestoreDelete.ResolveId` | packages/plugin-firestore/src/actions/delete.ts:18 | the id is `docId` when it is a non-empty string, otherwise the payload |
| `FirestoreDelete.DebounceMs` | packages/plugin-firestore/src/actions/delete.ts:22-24 | the action config's `syncDebounceMs` when it is a number, otherwise the module config's value, whatever that is |
| `FirestoreDelete.Delete` | packages/plugin-firestore/src/actions/delete.ts:11-28 | it rejects with "No ID passed to delete action." exactly when neither a truthy `docId` nor a non-empty string payload names the document; otherwise it deletes the path built from the collection path and that resolved id, with the chosen debounce value, and returns the debouncer's result unchanged |
| `MockRemote.Insert` | packages/core/test/helpers/pluginMockRemoteActions.ts:44-61 | the emulated error first; otherwise the `docId` when there is one, else the generated id |
| `MockRemote.Write` | packages/core/test/helpers/pluginMockRemoteActions.ts:25-42 | `merge`, `assign` and `replace` succeed exactly when no emulated error fires and a `docId` is given; without a `docId` they reject with "An non-existent action was triggered on a collection" |
| `MockRemote.DeleteProp` | packages/core/test/helpers/pluginMockRemoteActions.ts:63-79 | `deleteProp` succeeds exactly when no emulated error fires and a `docId` is given; without a `docId` it rejects with the same collection error |
| `MockRemote.Delete` | packages/core/test/helpers/pluginMockRemoteActions.ts:81-93 | `delete` has no `docId` guard; it succeeds exactly when no emulated error fires, and otherwise rejects with the emulated error |
| `MockRemote.Retrieve` | packages/core/test/helpers/pluginMockRemoteActions.ts:95-104 | a document query retrieves exactly the one Luca record, which has no `id` of its own; a collection query retrieves its query's records as they are |
| `MockRemote.Metadata` | packages/core/test/helpers/pluginMockRemoteActions.ts:123 | a record becomes `{ data, exists: true, id }`, where `id` is the record's truthy `id`, else the module's `docId` |
| `MockRemote.MapMetadata` | packages/core/test/helpers/pluginMockRemoteActions.ts:122-125 | one metadata record per retrieved record, in the same order |
| `MockRemote.GetAction` | packages/core/test/helpers/pluginMockRemoteActions.ts:106-130 | the emulated error rejects; a document yields exactly one record, the Luca record with the document's id; a collection yields its records in order, each with `exists: true` and the id rule above |
| `MockRemote.Revert` | packages/core/test/helpers/pluginMockRemoteActions.ts:182-193 | `revert` never rejects |
| `MockRemote.StreamRecords` | packages/core/test/helpers/pluginMockRemoteActions.ts:142-149 | a document stream schedules exactly the four Luca records; a collection stream schedules its query's records |
| `MockRemote.MockStream.Open` | packages/core/test/helpers/pluginMockRemoteActions.ts:142-153 | a document stream schedules the four Luca records and a collection stream its query's records; the stream starts unstopped, with nothing delivered |
| `MockRemote.MockStream.Tick` | packages/core/test/helpers/pluginMockRemoteActions.ts:155-164 | the next timer fires in order; it delivers its record's metadata to `added` unless the stream is stopped, and then nothing is delivered |
| `MockRemote.MockStream.Stop` | packages/core/test/helpers/pluginMockRemoteActions.ts:174-177 | `stop()` sets `stopped` and resolves `streaming`; nothing is delivered by it |
| `MockRemote.StreamUntilStopped` | packages/core/test/helpers/pluginMockRemoteActions.ts:150-177 | if `k` timers fire, then `stop()` is called, then the remaining timers fire, exactly the first `k` records are delivered, in order; no `added` call happens after `stop()` |
| `Doc.JoinPath` | packages/core/src/Doc.ts:77 | the path starts with the collection path and a `/`; a `/`-free `docId` is its last segment, and an absent `docId` leaves an empty last segment |
| `Doc.CreateDocWithContext` | packages/core/src/Doc.ts:62-106 | `id` is the `docId` and `path` is `collectionPath + "/" + docId`; every write and fetch action is bound to the same `[collectionPath, docId]` and module config with its own name and type; `stream` is bound to the same pair and to the shared streams registry |
| `Doc.Collection` | packages/core/src/Doc.ts:79-81 | the nested collection is asked for with the module config passed through unchanged, at a path that starts with the document's path and a `/`, is one `/` and the collection id longer, and for a `/`-free collection id splits at its last `/` into exactly the document's path and the collection id |
| `Doc.SplitJoin` | packages/core/src/Doc.ts:77 | for a document id without `/`, splitting the joined path at its last `/` gives back the collection path and the document id |
| `Doc.IdIsFinalPart` | packages/core/src/Doc.ts:32-40 | for a present `docId` without `/`, the document's `id` is only the final part of its `path`, and the rest of the path is the collection path |
| `Doc.NestedCollectionPath` | packages/core/src/Doc.ts:79-81 | for a `docId` and a collection id without `/`, a nested collection's path splits into the document's path and the collection id, which splits in turn into the collection path and the document id |

## Left out

- The cross-store orchestrator, the stream coordinator and config resolution (`handleActionPerStore`, `handleStreamPerStore`, `moduleHelpers`) are not part of this model. packages/core/test/internal/modifyPayloadAndReadResponse.ts only exercises them end to end, so it is not modelled either.
- The `Countdown` helper is not part of this model. Timing is left out: the debounce window, `setTimeout` and `waitMs`. Firing is the explicit `Fire` event, and a restart only counts restarts.
- BatchSync.BatchSync.Fire: `executeSync` shifts the stack synchronously but the commit settles later. The model settles the promises in the same step. Between the two steps, new calls can happen, and so can further firings: a new call arms a new countdown, which can shift and commit the next stack while the first commit is still pending. None of them touches the shifted stack. The second stack's promises can then settle before the first's; the model fixes settlement order to firing order.
- BatchSync.BatchSync.ExecuteSync: the `!syncStack.batch` half of the guard is not modelled, because every stack is created with a batch.
- The Firestore SDK (`batch()`, `doc()`, `commit()`, the query builders) and `queryHelpers.ts` are not modelled. A batch is its list of recorded calls, and a document reference is its path.
- BatchSync.BatchSync.Enqueue: the SDK calls `firestoreInstance.doc()` and `batch.set`/`batch.update`/`batch.delete` are assumed not to throw. In the source, `prepareSyncStack` runs before them, so when one throws synchronously (a bad path, bad data) the head stack is left counted with no resolver or rejecter for that call, and, if the stack was new, without a countdown until the next call. The debouncer's invariant (one operation, one resolver and one rejecter per call; a countdown exactly when a stack is queued) holds only under that assumption.
- The 500-operation cap, sealing full stacks, and one commit in flight at a time are not implemented by `batchSync.ts`, so they are not modelled.
- `preparePayload` passes the payload through unchanged and is folded into `Set` and `Update`.
- SimpleStore.Store.Insert: JavaScript stores the payload object itself and mutates the stored document in place. The model stores values, so aliasing is not captured. For example, a later document merge does not change the caller's original payload object.
- SimpleStore.Store.Insert: `isCollectionModule` and `getCollectionPathDocIdEntry` are not part of this model. The module path arrives already parsed.
- The unused `simpleStoreConfig`, `makeDataSnapshot` and `pluginModuleConfig` arguments of the simple store's `insert` are not modelled.
- `generateRandomId` is not part of this model. Its result is a parameter.
- `throwIfEmulatedError` is not part of this model. Whether it throws is a parameter, and what it throws is `EmulatedError`.
- `getFirestoreDocPath` is not part of this model. It is the function parameter `docPath` of `FirestoreDelete.Delete`, taken to close over the `pluginModuleConfig` and `firestorePluginOptions` arguments it also receives, so it is given only the collection path and the id.
- Inside `delete.ts` the debouncer is opaque, and the call it receives is recorded with both arguments. `delete.ts` calls `batchSync.delete(documentPath, syncDebounceMs)`, but `_delete` in `batchSync.ts` (packages/plugin-firestore/src/helpers/batchSync.ts:178) takes only the path, and JavaScript ignores the extra argument.
- The pokedex data and `filterDataPerClauses` are not part of this model. A collection query's records are a parameter.
- MockRemote.MockStream.Open: the emulated error in the mock stream is thrown inside a timer callback. It is an uncaught exception, not a rejection of `streaming`, and it is not modelled.
- `actionNameTypeMap` is not part of this model. It is the parameter `typeOf` of `Doc.CreateDocWithContext`.
- Doc.Collection: the `_moduleConfig = {}` default is not modelled; the module config is always passed explicitly.
- The global config and `docFn` that `Doc.ts` passes through to the action handlers are not modelled.
- The `Proxy` data accessor (`getDataProxyHandler`) and `executeSetupModulePerStore` in `Doc.ts` are not modelled.
- The type-only files are not modelled: packages/core/src/types/base.ts, packages/core/src/types/helpers.ts and packages/plugin-vue2/types/CreatePlugin.d.ts.
- packages/test-utils/src/pluginMockRemote/index.ts only assembles the actions, so it is not modelled.
- Tests against a live Firestore are not modelled: packages/plugin-firestore/test/external/stream.ts and packages/plugin-firestore/test/helpers/firestoreDeepEqual.ts.
- JavaScript values are limited to `undefined`, `null`, booleans, numbers (reals and `NaN`), strings and plain objects. Arrays, functions, symbols and object identity are not modelled.
