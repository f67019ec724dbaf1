/**
  The batch record kept in Redis and the seven Lua scripts that change it,
  as functions from the old record to the new one.  `History` holds what Redis
  does not store but the properties speak about.
 */
module Batches {
  import opened Ids

  /** How a member ended, as named by the completion script's protocol. */
  datatype Result = Success | Failure | Death | Invalidated | EmptySuccess

  datatype Kind = OnDeath | OnComplete | OnSuccess

  datatype Config = Config(
    id: BatchId, parent: Option<BatchId>, callbackQueue: QueueName,
    onComplete: bool, onSuccess: bool, onDeath: bool)

  datatype History = History(
    deaths: nat,              // members that ended with a death result
    invalidatedResults: nat,  // members that ended with an invalidated result
    unflushed: nat,           // initial members counted but not yet tracked
    reopened: nat,            // links that cleared complete_fired
    rollbacks: nat,           // links taken back
    issued: seq<Kind>)        // callbacks in the order they were issued

  /** The progress hash. */
  datatype Progress = Progress(
    total: int, pending: int, successes: int, failures: int, callbacksPending: int, callbackSeq: nat,
    dead: bool, deathFired: bool, completeFired: bool, successFired: bool, invalidated: bool)

  datatype Batch = Batch(
    cfg: Config, p: Progress,
    jobs: set<Id>, failed: set<Id>, callbacks: set<Id>,
    hist: History)

  /** The record EnqueueBatch stores before any of its `members` is tracked. */
  function NewBatch(cfg: Config, members: nat): Batch {
    Batch(cfg, Progress(members, members, 0, 0, 0, 0, false, false, false, false, false),
          {}, {}, {}, History(0, 0, members, 0, 0, []))
  }

  /** All members and all callbacks are done and the batch has fired. */
  predicate Settled(b: Batch) {
    b.p.pending == 0 && b.p.callbacksPending == 0 && b.p.completeFired
  }

  function Clamp(n: int): int {
    if n < 0 then 0 else n
  }

  function Tracked(ids: seq<Id>): set<Id> {
    set id | id in ids
  }

  /** The ids of callbacks number first+1 .. first+count of a batch. */
  function CallbackIds(batch: BatchId, first: nat, count: nat): seq<Id> {
    seq(count, i requires 0 <= i => Callback(batch, first + i + 1))
  }

  // ---------------------------------------------------------------------
  // batch_complete.lua

  datatype CompleteReply =
    | NotFound
    | NotEmpty
    | AlreadyProcessed
    | Recorded(pending: int, successes: int, failures: int, dead: bool, invalidated: bool,
               completedNow: bool, enqueued: seq<Id>)

  predicate IsTerminal(r: Result) {
    r.Success? || r.Death? || r.Invalidated?
  }

  function PendingAfter(b: Batch, r: Result): int {
    Clamp(if IsTerminal(r) then b.p.pending - 1 else b.p.pending)
  }

  predicate DeadAfter(b: Batch, r: Result) {
    b.p.dead || (r.Death? && !b.p.invalidated)
  }

  predicate InvalidatedAfter(b: Batch, r: Result) {
    b.p.invalidated || r.Invalidated?
  }

  predicate FiresDeath(b: Batch, r: Result) {
    r.Death? && !b.p.invalidated && !b.p.deathFired && b.cfg.onDeath
  }

  predicate FiresComplete(b: Batch, r: Result) {
    PendingAfter(b, r) == 0 && !b.p.completeFired
  }

  predicate FiresSuccess(b: Batch, r: Result) {
    FiresComplete(b, r) && !DeadAfter(b, r) && !InvalidatedAfter(b, r) && !b.p.successFired && b.cfg.onSuccess
  }

  function FiredKinds(b: Batch, r: Result): seq<Kind> {
    (if FiresDeath(b, r) then [OnDeath] else []) +
    (if FiresComplete(b, r) && b.cfg.onComplete then [OnComplete] else []) +
    (if FiresSuccess(b, r) then [OnSuccess] else [])
  }

  function Refusal(b: Batch, job: Id, r: Result): Option<CompleteReply> {
    if r.EmptySuccess? then
      if b.p.pending != 0 then Some(NotEmpty)
      else if b.p.completeFired then Some(AlreadyProcessed)
      else None
    else if job !in b.jobs then Some(AlreadyProcessed)
    else None
  }

  function Record(b: Batch, job: Id, r: Result): Batch {
    var kinds := FiredKinds(b, r);
    var newlyFailed := (r.Failure? || r.Death?) && job !in b.failed;
    b.(p := b.p.(successes := b.p.successes + (if r.Success? then 1 else 0),
                 failures := b.p.failures + (if newlyFailed then 1 else 0),
                 pending := if IsTerminal(r) then PendingAfter(b, r) else b.p.pending,
                 dead := DeadAfter(b, r),
                 invalidated := InvalidatedAfter(b, r),
                 deathFired := b.p.deathFired || FiresDeath(b, r),
                 completeFired := b.p.completeFired || FiresComplete(b, r),
                 successFired := b.p.successFired || FiresSuccess(b, r),
                 callbacksPending := b.p.callbacksPending + |kinds|,
                 callbackSeq := b.p.callbackSeq + |kinds|),
       jobs := if IsTerminal(r) then b.jobs - {job} else b.jobs,
       failed := if newlyFailed then b.failed + {job} else b.failed,
       callbacks := b.callbacks + Tracked(CallbackIds(b.cfg.id, b.p.callbackSeq, |kinds|)),
       hist := b.hist.(deaths := b.hist.deaths + (if r.Death? then 1 else 0),
                       invalidatedResults := b.hist.invalidatedResults + (if r.Invalidated? then 1 else 0),
                       issued := b.hist.issued + kinds))
  }

  function Complete(b: Batch, job: Id, r: Result): (Batch, CompleteReply) {
    var refusal := Refusal(b, job, r);
    if refusal.Some? then (b, refusal.value)
    else
      var c := Record(b, job, r);
      (c, Recorded(PendingAfter(b, r), c.p.successes, c.p.failures, c.p.dead, c.p.invalidated,
                   PendingAfter(b, r) == 0 && c.p.callbacksPending == 0 && c.p.completeFired,
                   CallbackIds(b.cfg.id, b.p.callbackSeq, |FiredKinds(b, r)|)))
  }

  // ---------------------------------------------------------------------
  // batch_callback_complete.lua

  datatype CallbackReply = CallbackReply(already: bool, shouldPropagate: bool, dead: bool, invalidated: bool)

  function CallbackComplete(b: Batch, cb: Id): (Batch, CallbackReply) {
    if cb !in b.callbacks then (b, CallbackReply(true, false, b.p.dead, b.p.invalidated))
    else
      var left := Clamp(b.p.callbacksPending - 1);
      (b.(callbacks := b.callbacks - {cb}, p := b.p.(callbacksPending := left)),
       CallbackReply(false, b.p.pending == 0 && left == 0 && b.p.completeFired, b.p.dead, b.p.invalidated))
  }

  // ---------------------------------------------------------------------
  // batch_add_child.lua, batch_remove_child.lua

  function AddChild(b: Batch, child: Id): Batch {
    if b.p.invalidated || child in b.jobs then b
    else
      b.(jobs := b.jobs + {child},
         p := b.p.(total := b.p.total + 1, pending := b.p.pending + 1,
                   completeFired := false,
                   successFired := b.p.successFired && !b.p.completeFired),
         hist := b.hist.(reopened := b.hist.reopened + (if b.p.completeFired then 1 else 0)))
  }

  function RemoveChild(b: Batch, child: Id): Batch {
    if child !in b.jobs then b
    else
      var pending := Clamp(b.p.pending - 1);
      b.(jobs := b.jobs - {child},
         p := b.p.(total := Clamp(b.p.total - 1), pending := pending,
                   completeFired := b.p.completeFired || pending == 0,
                   successFired := b.p.successFired || (pending == 0 && !b.p.dead && !b.p.invalidated)),
         hist := b.hist.(rollbacks := b.hist.rollbacks + 1))
  }

  // ---------------------------------------------------------------------
  // batch_add_jobs.lua, batch_enqueue_jobs.lua, batch_invalidate.lua

  predicate AcceptsJobs(b: Batch) {
    !b.p.invalidated && !b.p.completeFired
  }

  function AddJobs(b: Batch, ids: seq<Id>): Batch {
    if !AcceptsJobs(b) then b
    else b.(jobs := b.jobs + Tracked(ids),
            p := b.p.(total := b.p.total + |ids|, pending := b.p.pending + |ids|))
  }

  function EnqueueJobs(b: Batch, ids: seq<Id>): Batch {
    b.(jobs := b.jobs + Tracked(ids),
       hist := b.hist.(unflushed := Clamp(b.hist.unflushed - |ids|)))
  }

  function Invalidate(b: Batch): Batch {
    b.(p := b.p.(invalidated := true))
  }
}
