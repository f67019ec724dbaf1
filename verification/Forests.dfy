/**
  Batches nested under parents, and the recursion that reports a finished batch
  to its parent, grandparent and so on (updateBatchProgress in the worker,
  propagateBatchCompletion in the client).
 */
module Forests {
  import opened Ids
  import opened Batches
  import opened BatchInvariants
  import BatchTheorems

  type Forest = map<BatchId, Batch>

  /** ParentResultType: how a settled batch counts in its parent. */
  function ParentResult(dead: bool, invalidated: bool): Result {
    if dead then Death else if invalidated then Invalidated else Success
  }

  /** A settled batch is reported dead if it is, else invalidated if it is, and else as a success,
      and then every member succeeded. */
  lemma ReportedSuccess(b: Batch)
    requires Inv(b) && Settled(b)
    ensures ParentResult(b.p.dead, b.p.invalidated) == Death <==> b.p.dead
    ensures ParentResult(b.p.dead, b.p.invalidated) == Invalidated <==> !b.p.dead && b.p.invalidated
    ensures ParentResult(b.p.dead, b.p.invalidated) == Success ==> b.p.successes == b.p.total && b.jobs == {}
  {
    assert |b.jobs| == 0;
  }

  /** Every membership in the forest; its size is the sum of |jobs| over all batches. */
  ghost function Edges(f: Forest): set<(BatchId, Id)> {
    set b, id | b in f && id in f[b].jobs :: (b, id)
  }

  lemma EdgesShrink(f: Forest, b: BatchId, job: Id, r: Result)
    requires b in f && Complete(f[b], job, r).1.Recorded?
    ensures Edges(f[b := Complete(f[b], job, r).0]) <= Edges(f)
    ensures IsTerminal(r) ==> Edges(f[b := Complete(f[b], job, r).0]) < Edges(f)
  {
    var g := f[b := Complete(f[b], job, r).0];
    forall e | e in Edges(g)
      ensures e in Edges(f)
    {
      assert e.1 in f[e.0].jobs;
    }
    if IsTerminal(r) {
      assert (b, job) in Edges(f) && (b, job) !in Edges(g);
    }
  }

  /** Record a result in batch b and carry completion up through its ancestors.
      No acyclicity is assumed: each level of the recursion removes a membership. */
  function Propagate(f: Forest, job: Id, b: BatchId, r: Result): Forest
    decreases Edges(f), !IsTerminal(r)
  {
    if b !in f then f
    else
      var (c, reply) := Complete(f[b], job, r);
      var g := f[b := c];
      if reply.Recorded? && reply.completedNow && c.cfg.parent.Some? then
        EdgesShrink(f, b, job, r);
        Propagate(g, Child(b), c.cfg.parent.value, ParentResult(reply.dead, reply.invalidated))
      else g
  }

  /** The recursion goes on from the forest with the result recorded, to the parent if the reply asks for it. */
  lemma PropagateUnfolds(f: Forest, job: Id, b: BatchId, r: Result)
    requires b in f
    ensures var (c, reply) := Complete(f[b], job, r);
      Propagate(f, job, b, r)
        == if reply.Recorded? && reply.completedNow && c.cfg.parent.Some?
           then Propagate(f[b := c], Child(b), c.cfg.parent.value, ParentResult(c.p.dead, c.p.invalidated))
           else f[b := c]
  {
  }

  /** handleBatchCallbackComplete: retire a callback, then report the batch if that settled it. */
  function RetireCallback(f: Forest, cb: Id, b: BatchId): Forest {
    if b !in f then f
    else
      var (c, reply) := CallbackComplete(f[b], cb);
      if reply.shouldPropagate && c.cfg.parent.Some? then
        Propagate(f[b := c], Child(b), c.cfg.parent.value, ParentResult(reply.dead, reply.invalidated))
      else f[b := c]
  }

  lemma RetireUnfolds(f: Forest, cb: Id, b: BatchId)
    requires b in f
    ensures var (c, reply) := CallbackComplete(f[b], cb);
      RetireCallback(f, cb, b)
        == if reply.shouldPropagate && c.cfg.parent.Some?
           then Propagate(f[b := c], Child(b), c.cfg.parent.value, ParentResult(c.p.dead, c.p.invalidated))
           else f[b := c]
  {
  }

  // ---------------------------------------------------------------------
  // Consistency of links

  ghost predicate AllInv(f: Forest) {
    forall b :: b in f ==> f[b].cfg.id == b && Inv(f[b])
  }

  /** Child c is tracked by p rightly: p is its parent, and it is unsettled unless excused. */
  ghost predicate GoodLink(f: Forest, p: BatchId, c: BatchId, excused: Option<BatchId>)
    requires p in f
  {
    Child(c) in f[p].jobs ==>
      c in f && f[c].cfg.parent == Some(p) && (Some(c) == excused || !Settled(f[c]))
  }

  ghost predicate LinksGood(f: Forest, excused: Option<BatchId>) {
    forall p, c :: p in f ==> GoodLink(f, p, c, excused)
  }

  /** A child id stays in its parent's jobs set only while the child is unsettled. */
  ghost predicate Consistent(f: Forest) {
    AllInv(f) && LinksGood(f, None)
  }

  /** Replacing one batch by a later version of itself that tracks no more members. */
  lemma UpdateKeepsLinks(f: Forest, b: BatchId, c: Batch, excused: Option<BatchId>, excused': Option<BatchId>)
    requires b in f && LinksGood(f, excused) && c.cfg == f[b].cfg && c.jobs <= f[b].jobs
    requires Settled(c) ==> Settled(f[b]) || excused' == Some(b)
    requires forall x :: excused == Some(x) && excused' != Some(x) ==>
      x in f && f[x].cfg.parent == Some(b) && Child(x) !in c.jobs && x != b
    ensures LinksGood(f[b := c], excused')
  {
    var g := f[b := c];
    forall p, x | p in g
      ensures GoodLink(g, p, x, excused')
    {
      assert GoodLink(f, p, x, excused);
    }
  }

  /** A batch that no batch in the forest has to hear from needs no excuse. */
  lemma DropExcuse(f: Forest, x: BatchId)
    requires LinksGood(f, Some(x))
    requires x in f ==> f[x].cfg.parent.None? || f[x].cfg.parent.value !in f
    ensures LinksGood(f, None)
  {
    forall p, c | p in f
      ensures GoodLink(f, p, c, None)
    {
      assert GoodLink(f, p, c, Some(x));
    }
  }

  ghost predicate NoSelfParent(f: Forest) {
    forall x :: x in f ==> f[x].cfg.parent != Some(x)
  }

  /** The child whose link may be stale while its completion is on the way up. */
  function Excused(job: Id): Option<BatchId> {
    if job.Child? then Some(job.batch) else None
  }

  ghost predicate Reports(f: Forest, job: Id, b: BatchId, r: Result) {
    job.Child? ==> IsTerminal(r) && job.batch in f && f[job.batch].cfg.parent == Some(b)
  }

  lemma CompleteKeepsLinks(f: Forest, job: Id, b: BatchId, r: Result)
    requires b in f && AllInv(f) && NoSelfParent(f) && Reports(f, job, b, r) && LinksGood(f, Excused(job))
    ensures var g := f[b := Complete(f[b], job, r).0];
      && AllInv(g) && NoSelfParent(g)
      && LinksGood(g, if Signals(f[b], DoComplete(job, r)) then Some(b) else None)
  {
    StepKeepsInv(f[b], DoComplete(job, r));
    BatchTheorems.SignalIffSettles(f[b], DoComplete(job, r));
    UpdateKeepsLinks(f, b, Complete(f[b], job, r).0, Excused(job),
                     if Signals(f[b], DoComplete(job, r)) then Some(b) else None);
  }

  /** Propagation repairs the one link that a settled child left behind, at every level. */
  lemma {:induction false} PropagateKeepsConsistent(f: Forest, job: Id, b: BatchId, r: Result)
    requires AllInv(f) && NoSelfParent(f) && Reports(f, job, b, r) && LinksGood(f, Excused(job))
    ensures Consistent(Propagate(f, job, b, r))
    decreases Edges(f), !IsTerminal(r)
  {
    if b !in f {
      if job.Child? { DropExcuse(f, job.batch); }
    } else {
      CompleteKeepsLinks(f, job, b, r);
      var (c, reply) := Complete(f[b], job, r);
      var g := f[b := c];
      if Signals(f[b], DoComplete(job, r)) {
        if c.cfg.parent.Some? {
          EdgesShrink(f, b, job, r);
          PropagateKeepsConsistent(g, Child(b), c.cfg.parent.value, ParentResult(reply.dead, reply.invalidated));
        } else {
          DropExcuse(g, b);
        }
      }
    }
  }

  /** Retiring a callback, with propagation, keeps the forest consistent. */
  lemma RetireCallbackKeepsConsistent(f: Forest, cb: Id, b: BatchId)
    requires Consistent(f) && NoSelfParent(f)
    ensures Consistent(RetireCallback(f, cb, b))
  {
    if b in f {
      var (c, reply) := CallbackComplete(f[b], cb);
      StepKeepsInv(f[b], DoCallback(cb));
      BatchTheorems.SignalIffSettles(f[b], DoCallback(cb));
      UpdateKeepsLinks(f, b, c, None, if reply.shouldPropagate then Some(b) else None);
      var g := f[b := c];
      if reply.shouldPropagate {
        if c.cfg.parent.Some? {
          PropagateKeepsConsistent(g, Child(b), c.cfg.parent.value, ParentResult(reply.dead, reply.invalidated));
        } else {
          DropExcuse(g, b);
        }
      }
    }
  }

  /** Completing a job, with propagation, keeps the forest consistent. */
  lemma JobKeepsConsistent(f: Forest, job: Id, b: BatchId, r: Result)
    requires Consistent(f) && NoSelfParent(f) && !job.Child?
    ensures Consistent(Propagate(f, job, b, r))
  {
    PropagateKeepsConsistent(f, job, b, r);
  }
}
