/**
  What every batch script keeps, and so every run of a batch: counters agree with
  sets, results are conserved, and flags and the log of callbacks are disciplined.
 */
module BatchInvariants {
  import opened Ids
  import opened Batches

  // ---------------------------------------------------------------------
  // The invariant

  /** How often a callback of kind k was issued. */
  function Count(s: seq<Kind>, k: Kind): nat {
    multiset(s)[k]
  }

  function One(p: bool): nat {
    if p then 1 else 0
  }

  /** Every counter is the size of the set it caches. */
  ghost predicate CountersAgree(b: Batch) {
    && b.p.pending == |b.jobs| + b.hist.unflushed
    && b.p.failures == |b.failed|
    && b.p.callbacksPending == |b.callbacks|
    && b.p.callbackSeq == |b.hist.issued|
    && forall c :: c in b.callbacks ==> c.Callback? && c.batch == b.cfg.id && 1 <= c.n <= b.p.callbackSeq
  }

  /** No member result is lost or counted twice. */
  ghost predicate Conserved(b: Batch) {
    && b.p.total == b.p.pending + b.p.successes + b.hist.deaths + b.hist.invalidatedResults
    && 0 <= b.p.successes
    && (b.hist.deaths > 0 ==> b.p.dead || b.p.invalidated)
    && (b.hist.invalidatedResults > 0 ==> b.p.invalidated)
  }

  ghost predicate FlagsDisciplined(b: Batch) {
    && (b.p.completeFired ==> b.p.pending == 0)
    && (b.p.successFired ==> b.p.completeFired && !b.p.dead)
    && (b.p.completeFired && b.cfg.onSuccess && !b.p.dead && !b.p.invalidated ==> b.p.successFired)
    && (b.p.pending == 0 && !b.p.completeFired ==> b.p.total == 0)
    && (b.p.deathFired <==> b.p.dead && b.cfg.onDeath)
  }

  ghost predicate CallbackLog(b: Batch) {
    && Count(b.hist.issued, OnDeath) == One(b.p.deathFired)
    && Count(b.hist.issued, OnComplete) <= b.hist.reopened + One(b.p.completeFired)
    && (b.cfg.onComplete && b.hist.rollbacks == 0 ==>
          Count(b.hist.issued, OnComplete) == b.hist.reopened + One(b.p.completeFired))
  }

  ghost predicate Inv(b: Batch) {
    CountersAgree(b) && Conserved(b) && FlagsDisciplined(b) && CallbackLog(b)
  }

  // ---------------------------------------------------------------------
  // Steps and runs

  datatype Step =
    | DoComplete(job: Id, result: Result)
    | DoCallback(cb: Id)
    | DoAddChild(child: Id)
    | DoRemoveChild(child: Id)
    | DoAddJobs(ids: seq<Id>)
    | DoEnqueueJobs(ids: seq<Id>)
    | DoInvalidate

  predicate Distinct(ids: seq<Id>) {
    forall i, j :: 0 <= i < j < |ids| ==> ids[i] != ids[j]
  }

  /** New members have new ids, and only counted members are tracked later. */
  predicate Enabled(b: Batch, s: Step) {
    match s
    case DoAddJobs(ids) => Distinct(ids) && Tracked(ids) !! b.jobs
    case DoEnqueueJobs(ids) => Distinct(ids) && Tracked(ids) !! b.jobs && |ids| <= b.hist.unflushed
    case _ => true
  }

  function Next(b: Batch, s: Step): Batch {
    match s
    case DoComplete(job, r) => Complete(b, job, r).0
    case DoCallback(cb) => CallbackComplete(b, cb).0
    case DoAddChild(child) => AddChild(b, child)
    case DoRemoveChild(child) => RemoveChild(b, child)
    case DoAddJobs(ids) => AddJobs(b, ids)
    case DoEnqueueJobs(ids) => EnqueueJobs(b, ids)
    case DoInvalidate => Invalidate(b)
  }

  /** The reply tells the caller to report this batch to its parent. */
  predicate Signals(b: Batch, s: Step) {
    match s
    case DoComplete(job, r) => var reply := Complete(b, job, r).1; reply.Recorded? && reply.completedNow
    case DoCallback(cb) => CallbackComplete(b, cb).1.shouldPropagate
    case _ => false
  }

  predicate Possible(b: Batch, steps: seq<Step>)
    decreases |steps|
  {
    steps == [] || (Enabled(b, steps[0]) && Possible(Next(b, steps[0]), steps[1..]))
  }

  function Run(b: Batch, steps: seq<Step>): Batch
    decreases |steps|
  {
    if steps == [] then b else Run(Next(b, steps[0]), steps[1..])
  }

  // ---------------------------------------------------------------------
  // Set sizes

  lemma {:induction false} TrackedSize(ids: seq<Id>, base: set<Id>)
    requires Distinct(ids) && Tracked(ids) !! base
    ensures |base + Tracked(ids)| == |base| + |ids|
  {
    if ids == [] {
      assert base + Tracked(ids) == base;
    } else {
      var id, rest := ids[0], ids[1..];
      assert Tracked(ids) == {id} + Tracked(rest);
      assert base + Tracked(ids) == (base + {id}) + Tracked(rest);
      assert id !in Tracked(rest);
      TrackedSize(rest, base + {id});
    }
  }

  lemma CallbackIdsFresh(b: Batch, count: nat)
    requires CountersAgree(b)
    ensures var ids := CallbackIds(b.cfg.id, b.p.callbackSeq, count);
      Distinct(ids) && Tracked(ids) !! b.callbacks && |b.callbacks + Tracked(ids)| == |b.callbacks| + count
  {
    TrackedSize(CallbackIds(b.cfg.id, b.p.callbackSeq, count), b.callbacks);
  }

  // ---------------------------------------------------------------------
  // Every script keeps the invariant

  lemma RecordKeepsCounters(b: Batch, job: Id, r: Result)
    requires CountersAgree(b) && Refusal(b, job, r) == None
    ensures CountersAgree(Record(b, job, r))
  {
    CallbackIdsFresh(b, |FiredKinds(b, r)|);
  }

  lemma RecordKeepsLog(b: Batch, job: Id, r: Result)
    requires Inv(b) && Refusal(b, job, r) == None
    ensures CallbackLog(Record(b, job, r))
  {
    assert Record(b, job, r).hist.issued == b.hist.issued + FiredKinds(b, r);
  }

  lemma RecordKeepsInv(b: Batch, job: Id, r: Result)
    requires Inv(b) && Refusal(b, job, r) == None
    ensures Inv(Record(b, job, r))
  {
    RecordKeepsCounters(b, job, r);
    RecordKeepsLog(b, job, r);
  }

  lemma TrackingKeepsInv(b: Batch, s: Step)
    requires Inv(b) && Enabled(b, s) && (s.DoAddJobs? || s.DoEnqueueJobs?)
    ensures Inv(Next(b, s))
  {
    TrackedSize(s.ids, b.jobs);
  }

  lemma LinkingKeepsInv(b: Batch, s: Step)
    requires Inv(b) && Enabled(b, s) && !s.DoComplete? && !s.DoAddJobs? && !s.DoEnqueueJobs?
    ensures Inv(Next(b, s))
  {
  }

  lemma StepKeepsInv(b: Batch, s: Step)
    requires Inv(b) && Enabled(b, s)
    ensures Inv(Next(b, s))
  {
    match s
    case DoComplete(job, r) =>
      if Refusal(b, job, r) == None { RecordKeepsInv(b, job, r); }
    case DoAddJobs(_) => TrackingKeepsInv(b, s);
    case DoEnqueueJobs(_) => TrackingKeepsInv(b, s);
    case _ => LinkingKeepsInv(b, s);
  }

  lemma {:induction false} RunKeepsInv(b: Batch, steps: seq<Step>)
    requires Inv(b) && Possible(b, steps)
    ensures Inv(Run(b, steps))
    decreases |steps|
  {
    if steps != [] {
      StepKeepsInv(b, steps[0]);
      RunKeepsInv(Next(b, steps[0]), steps[1..]);
    }
  }

  /** Every state a stored batch can reach satisfies the invariant. */
  lemma ReachableInv(cfg: Config, members: nat, steps: seq<Step>)
    requires Possible(NewBatch(cfg, members), steps)
    ensures Inv(Run(NewBatch(cfg, members), steps))
  {
    RunKeepsInv(NewBatch(cfg, members), steps);
  }
}
