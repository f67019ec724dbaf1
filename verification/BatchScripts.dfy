/**
  The batch Lua scripts as they run inside Redis: hash fields, sets and queue
  lists updated in place.  Each script is proved against its function in Batches.
 */
module BatchScripts {
  import opened Ids
  import opened Batches

  /** A job to be tracked, with the queue it is pushed to. */
  datatype Item = Item(id: Id, queue: QueueName)

  type Queues = map<QueueName, seq<Id>>

  function ItemIds(items: seq<Item>): seq<Id> {
    seq(|items|, i requires 0 <= i < |items| => items[i].id)
  }

  function CallbackItems(queue: QueueName, ids: seq<Id>): seq<Item> {
    seq(|ids|, i requires 0 <= i < |ids| => Item(ids[i], queue))
  }

  /** LPUSH: the newest entry is at the head, fetches take from the tail. */
  function Push(queues: Queues, item: Item): Queues {
    queues[item.queue := [item.id] + (if item.queue in queues then queues[item.queue] else [])]
  }

  function PushAll(queues: Queues, items: seq<Item>): Queues {
    if items == [] then queues
    else Push(PushAll(queues, items[..|items| - 1]), items[|items| - 1])
  }

  /** The locals of batch_complete that end in "_after", and its callback list. */
  datatype Decision = Decision(
    pending: int, dead: bool, invalidated: bool, deathFired: bool, completeFired: bool, successFired: bool,
    callbackList: seq<Kind>, successesDelta: int, addFailedJob: bool)

  /** The decision before completion is looked at. */
  ghost function Classified(b: Batch, job: Id, r: Result): Decision {
    Decision(PendingAfter(b, r), DeadAfter(b, r), InvalidatedAfter(b, r),
             b.p.deathFired || FiresDeath(b, r), b.p.completeFired, b.p.successFired,
             if FiresDeath(b, r) then [OnDeath] else [],
             if r.Success? then 1 else 0, (r.Failure? || r.Death?) && job !in b.failed)
  }

  ghost function Decided(b: Batch, job: Id, r: Result): Decision {
    Decision(PendingAfter(b, r), DeadAfter(b, r), InvalidatedAfter(b, r),
             b.p.deathFired || FiresDeath(b, r), b.p.completeFired || FiresComplete(b, r),
             b.p.successFired || FiresSuccess(b, r), FiredKinds(b, r),
             if r.Success? then 1 else 0, (r.Failure? || r.Death?) && job !in b.failed)
  }

  ghost function Written(b: Batch, job: Id, r: Result, d: Decision): Batch {
    b.(p := b.p.(successes := b.p.successes + d.successesDelta,
                 failures := if d.addFailedJob then b.p.failures + 1 else b.p.failures,
                 pending := if IsTerminal(r) then d.pending else b.p.pending,
                 dead := d.dead, invalidated := d.invalidated,
                 deathFired := d.deathFired, completeFired := d.completeFired, successFired := d.successFired,
                 callbacksPending := b.p.callbacksPending + |d.callbackList|),
       jobs := if IsTerminal(r) then b.jobs - {job} else b.jobs,
       failed := if d.addFailedJob then b.failed + {job} else b.failed)
  }

  /** The batch after `count` callbacks have been numbered and tracked. */
  ghost function Issued(b: Batch, count: nat, hist: History): Batch {
    b.(callbacks := b.callbacks + Tracked(CallbackIds(b.cfg.id, b.p.callbackSeq, count)),
       p := b.p.(callbackSeq := b.p.callbackSeq + count),
       hist := hist)
  }

  /** The reply of batch_complete, from the batch as written. */
  ghost function ReplyTo(b: Batch, d: Decision): CompleteReply {
    Recorded(d.pending, b.p.successes, b.p.failures, b.p.dead, b.p.invalidated,
             d.pending == 0 && b.p.callbacksPending == 0 && d.completeFired,
             CallbackIds(b.cfg.id, b.p.callbackSeq, |d.callbackList|))
  }

  /** The script replies from its locals; that is the batch as written. */
  lemma ReplyFromLocals(b: Batch, job: Id, r: Result, d: Decision)
    ensures ReplyTo(Written(b, job, r, d), d)
      == Recorded(d.pending, b.p.successes + d.successesDelta,
                  if d.addFailedJob then b.p.failures + 1 else b.p.failures, d.dead, d.invalidated,
                  d.pending == 0 && b.p.callbacksPending + |d.callbackList| == 0 && d.completeFired,
                  CallbackIds(b.cfg.id, b.p.callbackSeq, |d.callbackList|))
  {
  }

  /** Writing a decision and issuing its callbacks records the result. */
  lemma WrittenIsComplete(b: Batch, job: Id, r: Result)
    requires Refusal(b, job, r) == None
    ensures var d := Decided(b, job, r);
      var w := Written(b, job, r, d);
      Complete(b, job, r) == (Issued(w, |d.callbackList|, Record(b, job, r).hist), ReplyTo(w, d))
  {
  }

  class BatchKeys {
    const cfg: Config
    var present: bool  // the metadata key exists
    var progress: Progress
    var jobs: set<Id>
    var failed: set<Id>
    var callbacks: set<Id>
    var queues: Queues
    ghost var hist: History

    ghost function Value(): Batch
      reads this
    {
      Batch(cfg, progress, jobs, failed, callbacks, hist)
    }

    /** EnqueueBatch step 1: buildBatchState and storeBatchState. */
    constructor (cfg: Config, members: nat, queues: Queues)
      ensures present && Value() == NewBatch(cfg, members) && this.queues == queues
    {
      this.cfg := cfg;
      present := true;
      progress := Progress(members, members, 0, 0, 0, 0, false, false, false, false, false);
      jobs, failed, callbacks := {}, {}, {};
      this.queues := queues;
      hist := History(0, 0, members, 0, 0, []);
    }

    /** What the result itself does to the counters and flags, and whether it fires the death callback. */
    method Classify(job: Id, r: Result) returns (d: Decision)
      ensures d == Classified(Value(), job, r)
    {
      var pendingAfter := progress.pending;
      var deadAfter, invalidatedAfter := progress.dead, progress.invalidated;
      var deathFiredAfter := progress.deathFired;
      var callbackList: seq<Kind> := [];
      var successesDelta, addFailedJob := 0, false;
      match r {
        case Success =>
          successesDelta := 1;
          pendingAfter := pendingAfter - 1;
        case Failure =>
          addFailedJob := job !in failed;
        case Death =>
          addFailedJob := job !in failed;
          pendingAfter := pendingAfter - 1;
          if !invalidatedAfter {
            deadAfter := true;
            if !deathFiredAfter && cfg.onDeath {
              deathFiredAfter := true;
              callbackList := callbackList + [OnDeath];
            }
          }
        case Invalidated =>
          pendingAfter := pendingAfter - 1;
          invalidatedAfter := true;
        case EmptySuccess =>
      }
      if pendingAfter < 0 { pendingAfter := 0; }
      d := Decision(pendingAfter, deadAfter, invalidatedAfter, deathFiredAfter, progress.completeFired,
                    progress.successFired, callbackList, successesDelta, addFailedJob);
    }

    /** The middle part of batch_complete: what the result does to the counters
        and flags, and which callbacks it fires, before anything is written. */
    method Decide(job: Id, r: Result) returns (d: Decision)
      ensures d == Decided(Value(), job, r)
    {
      d := Classify(job, r);
      if d.pending == 0 && !d.completeFired {
        d := d.(completeFired := true);
        if cfg.onComplete { d := d.(callbackList := d.callbackList + [OnComplete]); }
        if !d.dead && !d.invalidated && !d.successFired && cfg.onSuccess {
          d := d.(successFired := true, callbackList := d.callbackList + [OnSuccess]);
        }
      }
    }

    method CompleteScript(job: Id, r: Result) returns (reply: CompleteReply)
      modifies this
      ensures present == old(present)
      ensures !present ==> reply == NotFound && Value() == old(Value()) && queues == old(queues)
      ensures present ==>
        && (Value(), reply) == Complete(old(Value()), job, r)
        && queues == PushAll(old(queues),
                             CallbackItems(cfg.callbackQueue, if reply.Recorded? then reply.enqueued else []))
    {
      if !present { return NotFound; }
      if r.EmptySuccess? {
        if progress.pending != 0 { return NotEmpty; }
        if progress.completeFired { return AlreadyProcessed; }
      } else if job !in jobs {
        return AlreadyProcessed;
      }
      reply := RecordResult(job, r);
    }

    /** The counter, flag and membership writes of batch_complete. */
    method Write(job: Id, r: Result, d: Decision)
      modifies `progress, `jobs, `failed
      ensures Value() == Written(old(Value()), job, r, d)
    {
      ghost var after := Written(Value(), job, r, d);
      progress := progress.(
        successes := progress.successes + d.successesDelta,
        failures := if d.addFailedJob then progress.failures + 1 else progress.failures,
        pending := if r.Success? || r.Death? || r.Invalidated? then d.pending else progress.pending,
        dead := d.dead, invalidated := d.invalidated,
        deathFired := d.deathFired, completeFired := d.completeFired, successFired := d.successFired,
        callbacksPending := progress.callbacksPending + |d.callbackList|);
      assert progress == after.p;
      if !r.EmptySuccess? && !r.Failure? { jobs := jobs - {job}; }
      if d.addFailedJob { failed := failed + {job}; }
      assert jobs == after.jobs && failed == after.failed;
    }

    /** The writing part of batch_complete, once the result is not refused. */
    method RecordResult(job: Id, r: Result) returns (reply: CompleteReply)
      requires present && Refusal(Value(), job, r) == None
      modifies this
      ensures present == old(present)
      ensures (Value(), reply) == Complete(old(Value()), job, r)
      ensures reply.Recorded? && queues == PushAll(old(queues), CallbackItems(cfg.callbackQueue, reply.enqueued))
    {
      WrittenIsComplete(Value(), job, r);
      var d := Decide(job, r);
      reply := Apply(job, r, d, Record(Value(), job, r).hist);
    }

    method Apply(job: Id, r: Result, d: Decision, ghost after: History) returns (reply: CompleteReply)
      modifies this
      ensures present == old(present)
      ensures var w := Written(old(Value()), job, r, d);
              Value() == Issued(w, |d.callbackList|, after) && reply == ReplyTo(w, d)
      ensures reply.Recorded? && queues == PushAll(old(queues), CallbackItems(cfg.callbackQueue, reply.enqueued))
    {
      ReplyFromLocals(Value(), job, r, d);
      var completedNow := d.pending == 0 && progress.callbacksPending + |d.callbackList| == 0 && d.completeFired;
      var successes := progress.successes + d.successesDelta;
      var failures := if d.addFailedJob then progress.failures + 1 else progress.failures;
      var ids := WriteAndIssue(job, r, d, after);
      reply := Recorded(d.pending, successes, failures, d.dead, d.invalidated, completedNow, ids);
    }

    method WriteAndIssue(job: Id, r: Result, d: Decision, ghost after: History) returns (ids: seq<Id>)
      modifies this
      ensures present == old(present)
      ensures Value() == Issued(Written(old(Value()), job, r, d), |d.callbackList|, after)
      ensures ids == CallbackIds(cfg.id, old(progress.callbackSeq), |d.callbackList|)
      ensures queues == PushAll(old(queues), CallbackItems(cfg.callbackQueue, ids))
    {
      Write(job, r, d);
      hist := after;
      ids := IssueCallbacks(|d.callbackList|);
    }

    /** The loop of batch_complete that numbers callback jobs. */
    method NumberCallbacks(count: nat) returns (ids: seq<Id>)
      modifies `progress
      ensures ids == CallbackIds(cfg.id, old(progress.callbackSeq), count)
      ensures progress == old(progress).(callbackSeq := old(progress.callbackSeq) + count)
    {
      ids := [];
      for i := 0 to count
        invariant ids == CallbackIds(cfg.id, old(progress.callbackSeq), i)
        invariant progress == old(progress).(callbackSeq := old(progress.callbackSeq) + i)
      {
        progress := progress.(callbackSeq := progress.callbackSeq + 1);
        ids := ids + [Callback(cfg.id, progress.callbackSeq)];
      }
    }

    /** The loop of batch_complete that tracks and pushes them. */
    method PushCallbacks(ids: seq<Id>)
      modifies `callbacks, `queues
      ensures callbacks == old(callbacks) + Tracked(ids)
      ensures queues == PushAll(old(queues), CallbackItems(cfg.callbackQueue, ids))
    {
      for i := 0 to |ids|
        invariant callbacks == old(callbacks) + Tracked(ids[..i])
        invariant queues == PushAll(old(queues), CallbackItems(cfg.callbackQueue, ids[..i]))
      {
        callbacks := callbacks + {ids[i]};
        queues := Push(queues, Item(ids[i], cfg.callbackQueue));
        assert ids[..i + 1] == ids[..i] + [ids[i]];
        assert CallbackItems(cfg.callbackQueue, ids[..i + 1])[..i] == CallbackItems(cfg.callbackQueue, ids[..i]);
      }
      assert ids[..|ids|] == ids;
    }

    method IssueCallbacks(count: nat) returns (ids: seq<Id>)
      modifies `progress, `callbacks, `queues
      ensures Value() == Issued(old(Value()), count, hist)
      ensures ids == CallbackIds(cfg.id, old(progress.callbackSeq), count)
      ensures queues == PushAll(old(queues), CallbackItems(cfg.callbackQueue, ids))
    {
      ids := NumberCallbacks(count);
      PushCallbacks(ids);
    }

    method CallbackCompleteScript(cb: Id) returns (reply: Option<CallbackReply>)
      modifies `callbacks, `progress
      ensures reply.None? <==> !present
      ensures present ==> (Value(), reply.value) == CallbackComplete(old(Value()), cb)
      ensures !present ==> Value() == old(Value())
    {
      if !present { return None; }
      if cb !in callbacks { return Some(CallbackReply(true, false, progress.dead, progress.invalidated)); }
      callbacks := callbacks - {cb};
      var left := progress.callbacksPending - 1;
      if left < 0 { left := 0; }
      progress := progress.(callbacksPending := left);
      var shouldPropagate := false;
      if progress.pending == 0 && left == 0 && progress.completeFired { shouldPropagate := true; }
      reply := Some(CallbackReply(false, shouldPropagate, progress.dead, progress.invalidated));
    }

    /** Fails when the batch is missing or invalidated; linking twice changes nothing. */
    method AddChildScript(child: Id) returns (ok: bool)
      modifies `jobs, `progress, `hist
      ensures ok <==> present && !old(progress.invalidated)
      ensures Value() == if present then AddChild(old(Value()), child) else old(Value())
    {
      if !present || progress.invalidated { return false; }
      ok := true;
      if child in jobs { return; }
      hist := hist.(reopened := hist.reopened + (if progress.completeFired then 1 else 0));
      jobs := jobs + {child};
      progress := progress.(total := progress.total + 1, pending := progress.pending + 1);
      if progress.completeFired {
        progress := progress.(completeFired := false, successFired := false);
      }
    }

    method RemoveChildScript(child: Id)
      modifies `jobs, `progress, `hist
      ensures Value() == if present then RemoveChild(old(Value()), child) else old(Value())
    {
      if !present || child !in jobs { return; }
      hist := hist.(rollbacks := hist.rollbacks + 1);
      jobs := jobs - {child};
      var total := progress.total - 1;
      if total < 0 { total := 0; }
      var pending := progress.pending - 1;
      if pending < 0 { pending := 0; }
      progress := progress.(total := total, pending := pending);
      if pending == 0 {
        var success := progress.successFired || (!progress.dead && !progress.invalidated);
        progress := progress.(completeFired := true, successFired := success);
      }
    }

    /** The SADD and LPUSH loop shared by batch_add_jobs and batch_enqueue_jobs. */
    method TrackAndPush(items: seq<Item>)
      modifies `jobs, `queues
      ensures jobs == old(jobs) + Tracked(ItemIds(items))
      ensures queues == PushAll(old(queues), items)
    {
      for i := 0 to |items|
        invariant jobs == old(jobs) + Tracked(ItemIds(items[..i]))
        invariant queues == PushAll(old(queues), items[..i])
      {
        jobs := jobs + {items[i].id};
        queues := Push(queues, items[i]);
        assert items[..i + 1][..i] == items[..i];
        assert ItemIds(items[..i + 1]) == ItemIds(items[..i]) + [items[i].id];
      }
      assert items[..|items|] == items;
    }

    method AddJobsScript(items: seq<Item>) returns (ok: bool)
      modifies `jobs, `queues, `progress
      ensures ok <==> present && old(AcceptsJobs(Value()))
      ensures Value() == if ok then AddJobs(old(Value()), ItemIds(items)) else old(Value())
      ensures queues == if ok then PushAll(old(queues), items) else old(queues)
    {
      if !present || progress.invalidated || progress.completeFired { return false; }
      TrackAndPush(items);
      progress := progress.(total := progress.total + |items|, pending := progress.pending + |items|);
      ok := true;
    }

    /** One chunk of the initial members; this script does not look at the batch key. */
    method EnqueueJobsScript(items: seq<Item>)
      modifies `jobs, `queues, `hist
      ensures Value() == EnqueueJobs(old(Value()), ItemIds(items))
      ensures queues == PushAll(old(queues), items)
    {
      hist := hist.(unflushed := Clamp(hist.unflushed - |items|));
      TrackAndPush(items);
    }

    method InvalidateScript() returns (ok: bool)
      modifies `progress
      ensures ok <==> present
      ensures Value() == if present then Invalidate(old(Value())) else old(Value())
    {
      ok := present;
      if ok { progress := progress.(invalidated := true); }
    }
  }

  // ---------------------------------------------------------------------
  // Queues after a script

  function Occurrences(queues: Queues, q: QueueName, id: Id): nat {
    if q in queues then multiset(queues[q])[id] else 0
  }

  /** Pushing items adds each of them once to the queue it names and nothing anywhere else. */
  lemma {:induction false} PushAllAdds(queues: Queues, items: seq<Item>, q: QueueName, id: Id)
    ensures Occurrences(PushAll(queues, items), q, id) == Occurrences(queues, q, id) + multiset(items)[Item(id, q)]
  {
    if items != [] {
      var front, last := items[..|items| - 1], items[|items| - 1];
      assert items == front + [last];
      PushAllAdds(queues, front, q, id);
      var before := PushAll(queues, front);
      assert q == last.queue ==>
        multiset(Push(before, last)[q]) == multiset{last.id} + multiset(if q in before then before[q] else []);
    }
  }

  /** Of these items the ids bound for the queue, the last of them first. */
  function NewestFirst(items: seq<Item>, q: QueueName): seq<Id> {
    if items == [] then []
    else NewestFirst(items[1..], q) + if items[0].queue == q then [items[0].id] else []
  }

  lemma {:induction false} NewestFirstAdds(items: seq<Item>, last: Item, q: QueueName)
    ensures NewestFirst(items + [last], q) == (if last.queue == q then [last.id] else []) + NewestFirst(items, q)
    decreases |items|
  {
    if items == [] {
      assert (items + [last])[1..] == [];
    } else {
      assert (items + [last])[1..] == items[1..] + [last];
      NewestFirstAdds(items[1..], last, q);
    }
  }

  function Listed(queues: Queues, q: QueueName): seq<Id> {
    if q in queues then queues[q] else []
  }

  lemma PushAdds(queues: Queues, item: Item, q: QueueName)
    ensures Listed(Push(queues, item), q) == (if item.queue == q then [item.id] else []) + Listed(queues, q)
  {
  }

  /** Pushed items line up behind what is in the queue, in order: fetches take from the tail. */
  lemma {:induction false} PushAllLinesUp(queues: Queues, items: seq<Item>, q: QueueName)
    ensures Listed(PushAll(queues, items), q) == NewestFirst(items, q) + Listed(queues, q)
  {
    if items != [] {
      var front, last := items[..|items| - 1], items[|items| - 1];
      assert items == front + [last];
      PushAllLinesUp(queues, front, q);
      PushAdds(PushAll(queues, front), last, q);
      NewestFirstAdds(front, last, q);
    }
  }
}
