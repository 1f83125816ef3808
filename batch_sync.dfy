/**
 * The Firestore batch-sync debouncer: `set`, `update` and `delete` calls are
 * recorded into the write batch of the stack at the head of a queue, every
 * call restarts one shared countdown, and when the countdown fires the head
 * stack is shifted off, its batch is committed, and every promise handed out
 * for it is resolved (commit succeeded) or rejected with the same error
 * (commit failed).
 *
 * The closure state `{ queue, countdown }` becomes the fields of the class
 * `BatchSync`. A promise is a `Ticket`; its resolver and rejecter are that
 * ticket pushed onto the stack's `resolves` and `rejects`, and what the
 * promise settled to is kept in `settled`. The Firestore SDK is reduced to
 * the record of calls it receives: a write batch is the sequence of its
 * `set`/`update`/`delete` calls, a document reference is its path, and
 * `commits` lists the batches handed to `commit()`, in order. Whether a
 * commit succeeds is an input of `Fire`.
 */
module BatchSync {
  import opened Wrappers
  import opened Values

  /** One promise returned by `set`, `update` or `delete`. */
  type Ticket = nat

  /** Firestore's `SetOptions`; `{}` is `NoOptions`. */
  datatype SetOptions = SetOptions(merge: Option<bool>, mergeFields: Option<seq<string>>)

  const NoOptions := SetOptions(None, None)

  /** One call recorded on a write batch; the document reference is its path. */
  datatype BatchOp =
    | SetOp(path: string, payload: PlainObject, options: SetOptions)
    | UpdateOp(path: string, payload: PlainObject)
    | DeleteOp(path: string)

  datatype SyncStack = SyncStack(
    operationCount: nat,
    batch: seq<BatchOp>,
    resolves: seq<Ticket>,
    rejects: seq<Ticket>)

  datatype Settlement = Resolved | Rejected(error: string)

  /** A countdown instance: which one it is, and how often it was restarted. */
  datatype Countdown = Countdown(serial: nat, restarts: nat)

  /** A call into the debouncer, as its caller makes it. */
  datatype Request =
    | SetRequest(path: string, payload: PlainObject, options: Option<SetOptions>)
    | UpdateRequest(path: string, payload: PlainObject)
    | DeleteRequest(path: string)

  const NotInstantiated := "executeSync executed before it was instantiated"

  /** Every write counts as one batched operation; field transforms are not counted yet. */
  function CountOperations(payload: PlainObject): (count: nat)
    ensures count == 1
  {
    1
  }

  /** `newSyncStack()`: a stack with a fresh, empty batch and no callbacks, well-formed from the start. */
  function NewSyncStack(): (stack: SyncStack)
    ensures WellFormed(stack) && stack.operationCount == 0
    ensures stack.batch == [] && stack.resolves == [] && stack.rejects == []
    ensures forall settled, nextTicket :: Pending(stack, settled, nextTicket)
  {
    SyncStack(0, [], [], [])
  }

  /** The stack an enqueue lands in: the head of the queue, or a new one when it is empty. */
  function Head(queue: seq<SyncStack>): SyncStack {
    if queue == [] then NewSyncStack() else queue[0]
  }

  function Tail(queue: seq<SyncStack>): seq<SyncStack> {
    if queue == [] then [] else queue[1..]
  }

  /** What the batch records for a request; `set` without options records `{}`. */
  function Recorded(request: Request): (op: BatchOp)
    ensures request.SetRequest? ==> op == SetOp(request.path, request.payload, request.options.GetOr(NoOptions))
    ensures request.UpdateRequest? ==> op == UpdateOp(request.path, request.payload)
    ensures request.DeleteRequest? ==> op == DeleteOp(request.path)
  {
    match request
    case SetRequest(path, payload, options) => SetOp(path, payload, options.GetOr(NoOptions))
    case UpdateRequest(path, payload) => UpdateOp(path, payload)
    case DeleteRequest(path) => DeleteOp(path)
  }

  /** The queue after one call: its operation, count and promise all land in the head stack. */
  function Enqueued(queue: seq<SyncStack>, op: BatchOp, count: nat, promise: Ticket): seq<SyncStack> {
    var head := Head(queue);
    [SyncStack(head.operationCount + count, head.batch + [op], head.resolves + [promise], head.rejects + [promise])]
      + Tail(queue)
  }

  /** The queue after the calls `ops`, made in order, handed the tickets `first`, `first + 1`, ... */
  function EnqueueRun(queue: seq<SyncStack>, ops: seq<BatchOp>, first: Ticket): seq<SyncStack>
    decreases |ops|
  {
    if ops == [] then queue
    else Enqueued(EnqueueRun(queue, ops[..|ops| - 1], first), ops[|ops| - 1], 1, first + |ops| - 1)
  }

  function Tickets(first: Ticket, n: nat): (ts: seq<Ticket>)
    ensures |ts| == n && forall i :: 0 <= i < n ==> ts[i] == first + i
  {
    seq(n, i requires 0 <= i < n => first + i)
  }

  /**
   * Calls on an empty queue build a single stack whose count is the number of
   * calls, whose batch records them in call order, and whose resolvers and
   * rejecters are their promises in the same order: nothing ever opens a
   * second stack, whatever the number of calls.
   */
  lemma {:induction false} RunFromEmpty(ops: seq<BatchOp>, first: Ticket)
    ensures EnqueueRun([], ops, first)
         == if ops == [] then [] else [SyncStack(|ops|, ops, Tickets(first, |ops|), Tickets(first, |ops|))]
    decreases |ops|
  {
    if ops != [] {
      var n := |ops|;
      var prefix := ops[..n - 1];
      RunFromEmpty(prefix, first);
      assert prefix + [ops[n - 1]] == ops;
      assert Tickets(first, n - 1) + [first + n - 1] == Tickets(first, n);
    }
  }

  /** Settling a list of callbacks in order; a promise keeps the first outcome it gets. */
  function Settle(settled: map<Ticket, Settlement>, callbacks: seq<Ticket>, outcome: Settlement): map<Ticket, Settlement>
    decreases |callbacks|
  {
    if callbacks == [] then settled
    else
      var before := Settle(settled, callbacks[..|callbacks| - 1], outcome);
      var t := callbacks[|callbacks| - 1];
      if t in before then before else before[t := outcome]
  }

  /**
   * All or nothing: every promise in the list that was still pending gets the
   * same outcome, promises already settled keep theirs, and no other promise
   * is touched.
   */
  lemma {:induction false} SettleAllOrNothing(settled: map<Ticket, Settlement>, callbacks: seq<Ticket>, outcome: Settlement)
    ensures Settle(settled, callbacks, outcome).Keys == settled.Keys + set t | t in callbacks
    ensures forall t :: t in settled ==> Settle(settled, callbacks, outcome)[t] == settled[t]
    ensures forall t :: t in callbacks && t !in settled ==> Settle(settled, callbacks, outcome)[t] == outcome
    decreases |callbacks|
  {
    if callbacks != [] {
      var prefix := callbacks[..|callbacks| - 1];
      SettleAllOrNothing(settled, prefix, outcome);
      assert forall t :: t in callbacks <==> t in prefix || t == callbacks[|callbacks| - 1];
    }
  }

  function OutcomeOf(commitSucceeds: bool, error: string): Settlement {
    if commitSucceeds then Resolved else Rejected(error)
  }

  /** A stack as every call leaves it: one operation, one resolver and one rejecter per call. */
  ghost predicate WellFormed(stack: SyncStack) {
    stack.operationCount == |stack.batch| == |stack.resolves|
    && stack.resolves == stack.rejects
  }

  /** The promises of a queued stack are handed out and not yet settled. */
  ghost predicate Pending(stack: SyncStack, settled: map<Ticket, Settlement>, nextTicket: Ticket) {
    forall t :: t in stack.resolves ==> t !in settled && t < nextTicket
  }

  class BatchSync {
    var queue: seq<SyncStack>
    var countdown: Option<Countdown>
    var countdownsCreated: nat
    var commits: seq<seq<BatchOp>>
    var settled: map<Ticket, Settlement>
    var nextTicket: Ticket

    /**
     * At most one stack is queued; a countdown exists exactly when one is;
     * the queued stack is well formed and its promises are pending; only
     * promises already handed out have settled.
     */
    ghost predicate Valid()
      reads this
    {
      |queue| <= 1
      && (countdown.Some? <==> |queue| == 1)
      && (forall i :: 0 <= i < |queue| ==> WellFormed(queue[i]) && Pending(queue[i], settled, nextTicket))
      && (forall t :: t in settled ==> t < nextTicket)
    }

    /** `batchSyncFactory`: the initial closure state. */
    constructor ()
      ensures Valid()
      ensures queue == [] && countdown == None && countdownsCreated == 0
      ensures commits == [] && settled == map[] && nextTicket == 0
    {
      queue := [];
      countdown := None;
      countdownsCreated := 0;
      commits := [];
      settled := map[];
      nextTicket := 0;
    }

    /** `prepareSyncStack`: push a new stack when the queue is empty, then count into the head. */
    method PrepareSyncStack(operationCount: nat)
      modifies this`queue
      ensures queue == [Head(old(queue)).(operationCount := Head(old(queue)).operationCount + operationCount)]
                       + Tail(old(queue))
    {
      if |queue| == 0 {
        queue := queue + [NewSyncStack()];
      }
      var syncStack := queue[0];
      queue := queue[0 := syncStack.(operationCount := syncStack.operationCount + operationCount)];
    }

    /** `batch.set` / `batch.update` / `batch.delete` on the head stack's batch. */
    method RecordInBatch(op: BatchOp)
      requires queue != []
      modifies this`queue
      ensures queue == old(queue)[0 := old(queue)[0].(batch := old(queue)[0].batch + [op])]
    {
      queue := queue[0 := queue[0].(batch := queue[0].batch + [op])];
    }

    /** `new Promise(...)`: push its resolver and rejecter onto the head stack. */
    method NewPromise() returns (promise: Ticket)
      requires queue != []
      modifies this`queue, this`nextTicket
      ensures promise == old(nextTicket) && nextTicket == promise + 1
      ensures queue == old(queue)[0 := old(queue)[0].(resolves := old(queue)[0].resolves + [promise],
                                                      rejects := old(queue)[0].rejects + [promise])]
    {
      promise := nextTicket;
      nextTicket := nextTicket + 1;
      queue := queue[0 := queue[0].(resolves := queue[0].resolves + [promise], rejects := queue[0].rejects + [promise])];
    }

    /** `prepareCountdown`: create a countdown only when none exists. */
    method PrepareCountdown() returns (c: Countdown)
      modifies this`countdown, this`countdownsCreated
      ensures countdown == Some(c)
      ensures old(countdown).Some? ==> c == old(countdown).value && countdownsCreated == old(countdownsCreated)
      ensures old(countdown).None? ==> c == Countdown(old(countdownsCreated), 0) && countdownsCreated == old(countdownsCreated) + 1
    {
      if countdown.None? {
        countdown := Some(Countdown(countdownsCreated, 0));
        countdownsCreated := countdownsCreated + 1;
      }
      c := countdown.value;
    }

    /** `triggerSync`: prepare the countdown, then restart it. */
    method TriggerSync()
      modifies this`countdown, this`countdownsCreated
      ensures old(countdown).Some? ==> countdown == Some(old(countdown).value.(restarts := old(countdown).value.restarts + 1))
                                       && countdownsCreated == old(countdownsCreated)
      ensures old(countdown).None? ==> countdown == Some(Countdown(old(countdownsCreated), 1))
                                       && countdownsCreated == old(countdownsCreated) + 1
    {
      var c := PrepareCountdown();
      countdown := Some(c.(restarts := c.restarts + 1));
    }

    /** The steps `set`, `update` and `_delete` share once the operation count is known. */
    method Enqueue(op: BatchOp, operationCount: nat) returns (promise: Ticket)
      requires Valid() && operationCount == 1
      modifies this
      ensures Valid()
      ensures promise == old(nextTicket) && nextTicket == promise + 1
      ensures queue == Enqueued(old(queue), op, operationCount, promise)
      ensures old(countdown).Some? ==> countdown == Some(old(countdown).value.(restarts := old(countdown).value.restarts + 1))
                                       && countdownsCreated == old(countdownsCreated)
      ensures old(countdown).None? ==> countdown == Some(Countdown(old(countdownsCreated), 1))
                                       && countdownsCreated == old(countdownsCreated) + 1
      ensures commits == old(commits) && settled == old(settled)
    {
      PrepareSyncStack(operationCount);
      RecordInBatch(op);
      promise := NewPromise();
      TriggerSync();
    }

    /** `set(documentPath, payload, options)`: `options || {}` is recorded. */
    method Set(documentPath: string, payload: PlainObject, options: Option<SetOptions>) returns (promise: Ticket)
      requires Valid()
      modifies this
      ensures Valid()
      ensures promise == old(nextTicket) && nextTicket == promise + 1
      ensures queue == Enqueued(old(queue), SetOp(documentPath, payload, options.GetOr(NoOptions)), CountOperations(payload), promise)
      ensures old(countdown).Some? ==> countdown == Some(old(countdown).value.(restarts := old(countdown).value.restarts + 1))
                                       && countdownsCreated == old(countdownsCreated)
      ensures old(countdown).None? ==> countdown == Some(Countdown(old(countdownsCreated), 1))
                                       && countdownsCreated == old(countdownsCreated) + 1
      ensures commits == old(commits) && settled == old(settled)
    {
      var operationCount := CountOperations(payload);
      promise := Enqueue(SetOp(documentPath, payload, options.GetOr(NoOptions)), operationCount);
    }

    /** `update(documentPath, payload)`. */
    method Update(documentPath: string, payload: PlainObject) returns (promise: Ticket)
      requires Valid()
      modifies this
      ensures Valid()
      ensures promise == old(nextTicket) && nextTicket == promise + 1
      ensures queue == Enqueued(old(queue), UpdateOp(documentPath, payload), CountOperations(payload), promise)
      ensures old(countdown).Some? ==> countdown == Some(old(countdown).value.(restarts := old(countdown).value.restarts + 1))
                                       && countdownsCreated == old(countdownsCreated)
      ensures old(countdown).None? ==> countdown == Some(Countdown(old(countdownsCreated), 1))
                                       && countdownsCreated == old(countdownsCreated) + 1
      ensures commits == old(commits) && settled == old(settled)
    {
      var operationCount := CountOperations(payload);
      promise := Enqueue(UpdateOp(documentPath, payload), operationCount);
    }

    /** `_delete(documentPath)`: always one operation. */
    method Delete(documentPath: string) returns (promise: Ticket)
      requires Valid()
      modifies this
      ensures Valid()
      ensures promise == old(nextTicket) && nextTicket == promise + 1
      ensures queue == Enqueued(old(queue), DeleteOp(documentPath), 1, promise)
      ensures old(countdown).Some? ==> countdown == Some(old(countdown).value.(restarts := old(countdown).value.restarts + 1))
                                       && countdownsCreated == old(countdownsCreated)
      ensures old(countdown).None? ==> countdown == Some(Countdown(old(countdownsCreated), 1))
                                       && countdownsCreated == old(countdownsCreated) + 1
      ensures commits == old(commits) && settled == old(settled)
    {
      promise := Enqueue(DeleteOp(documentPath), 1);
    }

    /** `resolves.forEach(r => r())` or `rejects.forEach(r => r(error))`. */
    method SettleAll(callbacks: seq<Ticket>, outcome: Settlement)
      modifies this`settled
      ensures settled == Settle(old(settled), callbacks, outcome)
    {
      var i := 0;
      while i < |callbacks|
        invariant 0 <= i <= |callbacks|
        invariant settled == Settle(old(settled), callbacks[..i], outcome)
      {
        assert callbacks[..i + 1][..i] == callbacks[..i];
        var t := callbacks[i];
        if t !in settled {
          settled := settled[t := outcome];
        }
        i := i + 1;
      }
      assert callbacks[..i] == callbacks;
    }

    /**
     * `executeSync`: shift the head stack off, commit its batch, and settle
     * all of its promises the same way. Throws when the queue is empty.
     */
    method ExecuteSync(commitSucceeds: bool, error: string) returns (r: Result<SyncStack, string>)
      modifies this`queue, this`commits, this`settled
      ensures old(queue) == [] ==> r == Err(NotInstantiated) && queue == [] && commits == old(commits) && settled == old(settled)
      ensures old(queue) != [] ==> r == Ok(old(queue)[0]) && queue == old(queue)[1..]
                                   && commits == old(commits) + [old(queue)[0].batch]
      ensures old(queue) != [] && commitSucceeds ==> settled == Settle(old(settled), old(queue)[0].resolves, Resolved)
      ensures old(queue) != [] && !commitSucceeds ==> settled == Settle(old(settled), old(queue)[0].rejects, Rejected(error))
    {
      if |queue| == 0 {
        return Err(NotInstantiated);
      }
      var syncStack := queue[0];
      queue := queue[1..];
      commits := commits + [syncStack.batch];
      if commitSucceeds {
        SettleAll(syncStack.resolves, Resolved);
      } else {
        SettleAll(syncStack.rejects, Rejected(error));
      }
      r := Ok(syncStack);
    }

    /**
     * The countdown fires: `executeSync()` and then `countdown = null`. While
     * the invariant holds a countdown exists only with a stack queued, so
     * `executeSync` never throws here; the fired stack's promises all get the
     * commit's outcome and the next call starts a new stack and countdown.
     */
    method Fire(commitSucceeds: bool, error: string) returns (r: Result<SyncStack, string>)
      requires Valid() && countdown.Some?
      modifies this
      ensures Valid()
      ensures r == Ok(old(queue)[0])
      ensures queue == [] && countdown == None
      ensures commits == old(commits) + [old(queue)[0].batch]
      ensures settled == Settle(old(settled), old(queue)[0].resolves, OutcomeOf(commitSucceeds, error))
      ensures forall t :: t in old(queue)[0].resolves ==> t in settled && settled[t] == OutcomeOf(commitSucceeds, error)
      ensures forall t :: t in old(settled) ==> t in settled && settled[t] == old(settled)[t]
      ensures nextTicket == old(nextTicket) && countdownsCreated == old(countdownsCreated)
    {
      r := ExecuteSync(commitSucceeds, error);
      if r.Ok? {
        countdown := None;
      }
      SettleAllOrNothing(old(settled), old(queue)[0].resolves, OutcomeOf(commitSucceeds, error));
    }
  }

  /**
   * A burst of calls inside one debounce window, then the countdown fires:
   * exactly one commit, recording every call in call order, and every
   * returned promise settles to the commit's outcome.
   */
  method BurstThenFire(requests: seq<Request>, commitSucceeds: bool, error: string)
    returns (commits: seq<seq<BatchOp>>, promises: seq<Ticket>, outcomes: map<Ticket, Settlement>)
    requires requests != []
    ensures |commits| == 1 && |commits[0]| == |requests|
    ensures forall i :: 0 <= i < |requests| ==> commits[0][i] == Recorded(requests[i])
    ensures |promises| == |requests|
    ensures forall i :: 0 <= i < |promises| ==> promises[i] in outcomes && outcomes[promises[i]] == OutcomeOf(commitSucceeds, error)
  {
    var sync := new BatchSync();
    ghost var ops: seq<BatchOp> := [];
    promises := [];
    var i := 0;
    while i < |requests|
      invariant 0 <= i <= |requests|
      invariant sync.Valid()
      invariant |ops| == i && forall j :: 0 <= j < i ==> ops[j] == Recorded(requests[j])
      invariant sync.queue == EnqueueRun([], ops, 0)
      invariant promises == Tickets(0, i) && sync.nextTicket == i
      invariant sync.commits == [] && sync.settled == map[]
    {
      var promise;
      match requests[i] {
        case SetRequest(path, payload, options) =>
          promise := sync.Set(path, payload, options);
        case UpdateRequest(path, payload) =>
          promise := sync.Update(path, payload);
        case DeleteRequest(path) =>
          promise := sync.Delete(path);
      }
      assert (ops + [Recorded(requests[i])])[..i] == ops;
      ops := ops + [Recorded(requests[i])];
      promises := promises + [promise];
      i := i + 1;
    }
    RunFromEmpty(ops, 0);
    var fired := sync.Fire(commitSucceeds, error);
    commits := sync.commits;
    outcomes := sync.settled;
  }
}
