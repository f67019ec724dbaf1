/**
  Consequences of the batch invariant over whole runs: when a batch reports to
  its parent, what a success callback means, and what a rolled-back link undoes.
 */
module BatchTheorems {
  import opened Ids
  import opened Batches
  import opened BatchInvariants

  // ---------------------------------------------------------------------
  // Exactly one parent signal per settling

  /** Apart from rollback, a step signals the parent iff it settles the batch. */
  lemma SignalIffSettles(b: Batch, s: Step)
    requires Inv(b) && Enabled(b, s) && !s.DoRemoveChild?
    ensures Signals(b, s) <==> !Settled(b) && Settled(Next(b, s))
  {
    if s.DoAddChild? && !b.p.invalidated && s.child !in b.jobs {
      assert Next(b, s).p.pending > 0;
    }
  }

  /** A rollback never signals, and it settles a batch exactly when it takes
      back the last pending member after the callbacks are done. */
  lemma RollbackSettlesSilently(b: Batch, child: Id)
    requires Inv(b)
    ensures !Signals(b, DoRemoveChild(child))
    ensures !Settled(b) && Settled(RemoveChild(b, child)) <==>
      child in b.jobs && b.p.pending == 1 && b.p.callbacksPending == 0
  {
  }

  function SignalCount(b: Batch, steps: seq<Step>): nat
    decreases |steps|
  {
    if steps == [] then 0
    else One(Signals(b, steps[0])) + SignalCount(Next(b, steps[0]), steps[1..])
  }

  /** How often a run leaves the settled state. */
  function Resumptions(b: Batch, steps: seq<Step>): nat
    decreases |steps|
  {
    if steps == [] then 0
    else One(Settled(b) && !Settled(Next(b, steps[0]))) + Resumptions(Next(b, steps[0]), steps[1..])
  }

  /** How often a run settles the batch by taking a link back. */
  function SilentSettlings(b: Batch, steps: seq<Step>): nat
    decreases |steps|
  {
    if steps == [] then 0
    else
      One(steps[0].DoRemoveChild? && !Settled(b) && Settled(Next(b, steps[0])))
      + SilentSettlings(Next(b, steps[0]), steps[1..])
  }

  lemma {:induction false} SignalsBalance(b: Batch, steps: seq<Step>)
    requires Inv(b) && Possible(b, steps)
    ensures SignalCount(b, steps) + SilentSettlings(b, steps) + One(Settled(b))
         == Resumptions(b, steps) + One(Settled(Run(b, steps)))
    decreases |steps|
  {
    if steps != [] {
      var s := steps[0];
      StepKeepsInv(b, s);
      if s.DoRemoveChild? {
        RollbackSettlesSilently(b, s.child);
        assert Settled(b) ==> s.child !in b.jobs;
      } else {
        SignalIffSettles(b, s);
      }
      SignalsBalance(Next(b, s), steps[1..]);
    }
  }

  predicate RollbackFree(steps: seq<Step>) {
    forall i :: 0 <= i < |steps| ==> !steps[i].DoRemoveChild?
  }

  lemma {:induction false} NoSilentSettlings(b: Batch, steps: seq<Step>)
    requires RollbackFree(steps)
    ensures SilentSettlings(b, steps) == 0
    decreases |steps|
  {
    if steps != [] {
      NoSilentSettlings(Next(b, steps[0]), steps[1..]);
    }
  }

  /** Over every rollback-free life of a batch the parent hears of it once per
      settling: one signal for each time it resumed, and one more iff it is settled now. */
  lemma OneSignalPerSettling(cfg: Config, members: nat, steps: seq<Step>)
    requires Possible(NewBatch(cfg, members), steps) && RollbackFree(steps)
    ensures SignalCount(NewBatch(cfg, members), steps)
         == Resumptions(NewBatch(cfg, members), steps) + One(Settled(Run(NewBatch(cfg, members), steps)))
  {
    SignalsBalance(NewBatch(cfg, members), steps);
    NoSilentSettlings(NewBatch(cfg, members), steps);
  }

  /** Some run from here ends settled although the parent is never signalled. */
  ghost predicate CanSettleUnheard(b: Batch) {
    exists steps: seq<Step> :: Possible(b, steps) && SignalCount(b, steps) == 0 && Settled(Run(b, steps))
  }

  lemma UnheardBefore(b: Batch, s: Step)
    requires Enabled(b, s) && !Signals(b, s) && CanSettleUnheard(Next(b, s))
    ensures CanSettleUnheard(b)
  {
    var rest: seq<Step> :| Possible(Next(b, s), rest) && SignalCount(Next(b, s), rest) == 0
      && Settled(Run(Next(b, s), rest));
    var steps := [s] + rest;
    assert steps[1..] == rest;
    assert Run(b, steps) == Run(Next(b, s), rest);
  }

  /** A batch with one callback running and, after a link reopened it, one pending child. */
  predicate Reopened(b: Batch, cb: Id, child: Id) {
    && b.jobs == {child} && b.p.pending == 1 && !b.p.completeFired
    && b.callbacks == {cb} && b.p.callbacksPending == 1
  }

  lemma ReopenedUnheard(b: Batch, cb: Id, child: Id)
    requires Reopened(b, cb, child)
    ensures CanSettleUnheard(b)
  {
    var b1 := Next(b, DoCallback(cb));
    var b2 := Next(b1, DoRemoveChild(child));
    assert Settled(b2) && Run(b2, []) == b2;
    assert CanSettleUnheard(b2);
    UnheardBefore(b1, DoRemoveChild(child));
    UnheardBefore(b, DoCallback(cb));
  }

  lemma CompletedThenReopened(id: BatchId, parent: BatchId, child: BatchId)
    ensures var b0 := NewBatch(Config(id, Some(parent), 0, true, false, false), 0);
      var b := Next(b0, DoComplete(Child(id), EmptySuccess));
      Reopened(Next(b, DoAddChild(Child(child))), Callback(id, 1), Child(child))
  {
    var b0 := NewBatch(Config(id, Some(parent), 0, true, false, false), 0);
    assert FiredKinds(b0, EmptySuccess) == [OnComplete];
    assert CallbackIds(id, 0, 1) == [Callback(id, 1)];
  }

  /** With a rollback the parent may never hear: a completed batch is reopened
      by a link while its callback runs, the callback ends, the link is taken back. */
  lemma RollbackCanLoseTheSignal(id: BatchId, parent: BatchId, child: BatchId)
    ensures CanSettleUnheard(NewBatch(Config(id, Some(parent), 0, true, false, false), 0))
  {
    var b0 := NewBatch(Config(id, Some(parent), 0, true, false, false), 0);
    var b1 := Next(b0, DoComplete(Child(id), EmptySuccess));
    CompletedThenReopened(id, parent, child);
    ReopenedUnheard(Next(b1, DoAddChild(Child(child))), Callback(id, 1), Child(child));
    UnheardBefore(b1, DoAddChild(Child(child)));
    assert FiredKinds(b0, EmptySuccess) == [OnComplete];
    UnheardBefore(b0, DoComplete(Child(id), EmptySuccess));
  }

  // ---------------------------------------------------------------------
  // Success means everything succeeded

  /** A success callback is issued only when every member counted in the batch
      succeeded, and never for a dead or invalidated batch. */
  lemma SuccessMeansAllSucceeded(b: Batch, s: Step)
    requires Inv(b) && Enabled(b, s)
    requires Count(Next(b, s).hist.issued, OnSuccess) > Count(b.hist.issued, OnSuccess)
    ensures Next(b, s).p.successes == Next(b, s).p.total
    ensures Next(b, s).jobs == {} && !Next(b, s).p.dead && !Next(b, s).p.invalidated
  {
    assert s.DoComplete? && Refusal(b, s.job, s.result) == None;
    var c := Record(b, s.job, s.result);
    assert c.hist.issued == b.hist.issued + FiredKinds(b, s.result);
    assert FiresSuccess(b, s.result);
    RecordKeepsInv(b, s.job, s.result);
    assert c.p.pending == 0 && |c.jobs| == 0;
  }

  lemma NoSuccessFired(b: Batch, r: Result)
    requires b.p.dead || b.p.invalidated
    ensures Count(FiredKinds(b, r), OnSuccess) == 0
  {
  }

  lemma CountAdds(s: seq<Kind>, t: seq<Kind>, k: Kind)
    ensures Count(s + t, k) == Count(s, k) + Count(t, k)
  {
  }

  lemma SpoiledStep(b: Batch, s: Step)
    requires b.p.dead || b.p.invalidated
    ensures Count(Next(b, s).hist.issued, OnSuccess) == Count(b.hist.issued, OnSuccess)
    ensures Next(b, s).p.dead || Next(b, s).p.invalidated
  {
    if s.DoComplete? && Refusal(b, s.job, s.result) == None {
      NoSuccessFired(b, s.result);
      CountAdds(b.hist.issued, FiredKinds(b, s.result), OnSuccess);
    }
  }

  /** Once a batch is dead or invalidated no later step issues a success callback. */
  lemma {:induction false} SpoiledNeverSucceeds(b: Batch, steps: seq<Step>)
    requires b.p.dead || b.p.invalidated
    ensures Count(Run(b, steps).hist.issued, OnSuccess) == Count(b.hist.issued, OnSuccess)
    decreases |steps|
  {
    if steps != [] {
      SpoiledStep(b, steps[0]);
      SpoiledNeverSucceeds(Next(b, steps[0]), steps[1..]);
    }
  }

  // ---------------------------------------------------------------------
  // Flag discipline over whole runs

  predicate IsReopening(b: Batch, s: Step) {
    s.DoAddChild? && !b.p.invalidated && s.child !in b.jobs && b.p.completeFired
  }

  function Reopenings(b: Batch, steps: seq<Step>): nat
    decreases |steps|
  {
    if steps == [] then 0
    else One(IsReopening(b, steps[0])) + Reopenings(Next(b, steps[0]), steps[1..])
  }

  lemma {:induction false} HistoryCounts(b: Batch, steps: seq<Step>)
    ensures Run(b, steps).hist.reopened == b.hist.reopened + Reopenings(b, steps)
    ensures RollbackFree(steps) ==> Run(b, steps).hist.rollbacks == b.hist.rollbacks
    ensures Run(b, steps).cfg == b.cfg
    decreases |steps|
  {
    if steps != [] {
      HistoryCounts(Next(b, steps[0]), steps[1..]);
      assert RollbackFree(steps) ==> !steps[0].DoRemoveChild? && RollbackFree(steps[1..]);
    }
  }

  /** The death callback is issued once if it is configured and the batch is dead, and never otherwise;
      complete callbacks number at most one plus the reopenings, and exactly that many once a
      rollback-free batch fires. */
  lemma CallbackDiscipline(cfg: Config, members: nat, steps: seq<Step>)
    requires Possible(NewBatch(cfg, members), steps)
    ensures var b := Run(NewBatch(cfg, members), steps);
      && Count(b.hist.issued, OnDeath) == One(cfg.onDeath && b.p.dead)
      && Count(b.hist.issued, OnComplete) <= 1 + Reopenings(NewBatch(cfg, members), steps)
      && (b.p.completeFired ==> b.jobs == {} && b.p.pending == 0)
      && (b.p.successFired ==> b.p.completeFired)
      && (RollbackFree(steps) && cfg.onComplete && b.p.completeFired ==>
            Count(b.hist.issued, OnComplete) == 1 + Reopenings(NewBatch(cfg, members), steps))
  {
    ReachableInv(cfg, members, steps);
    HistoryCounts(NewBatch(cfg, members), steps);
  }

  // ---------------------------------------------------------------------
  // Counters never run low, and no callback id is issued twice

  /** Whenever a script is about to lower a counter, the counter is positive: no clamp to zero is ever taken. */
  lemma ClampsNeverBind(b: Batch, id: Id, r: Result)
    requires Inv(b)
    ensures IsTerminal(r) && Refusal(b, id, r) == None ==> PendingAfter(b, r) == b.p.pending - 1 >= 0
    ensures id in b.callbacks ==> CallbackComplete(b, id).0.p.callbacksPending == b.p.callbacksPending - 1 >= 0
    ensures id in b.jobs ==>
      && RemoveChild(b, id).p.pending == b.p.pending - 1 >= 0
      && RemoveChild(b, id).p.total == b.p.total - 1 >= 0
  {
    assert id in b.jobs ==> |b.jobs| > 0;
    assert id in b.callbacks ==> |b.callbacks| > 0;
  }

  /** The callback ids that a step pushes. */
  function Pushed(b: Batch, s: Step): seq<Id> {
    if s.DoComplete? && Complete(b, s.job, s.result).1.Recorded? then Complete(b, s.job, s.result).1.enqueued else []
  }

  function AllPushed(b: Batch, steps: seq<Step>): seq<Id>
    decreases |steps|
  {
    if steps == [] then [] else Pushed(b, steps[0]) + AllPushed(Next(b, steps[0]), steps[1..])
  }

  lemma PushedIsNumbered(b: Batch, s: Step)
    ensures b.p.callbackSeq <= Next(b, s).p.callbackSeq && Next(b, s).cfg == b.cfg
    ensures Pushed(b, s) == CallbackIds(b.cfg.id, b.p.callbackSeq, Next(b, s).p.callbackSeq - b.p.callbackSeq)
  {
  }

  lemma NumberingJoins(batch: BatchId, first: nat, m: nat, n: nat)
    ensures CallbackIds(batch, first, m) + CallbackIds(batch, first + m, n) == CallbackIds(batch, first, m + n)
    ensures Distinct(CallbackIds(batch, first, m))
  {
  }

  /** The callback ids of a whole run are numbered without gap or repetition, one per issued callback. */
  lemma {:induction false} EveryCallbackIdOnce(b: Batch, steps: seq<Step>)
    ensures b.p.callbackSeq <= Run(b, steps).p.callbackSeq
    ensures AllPushed(b, steps)
      == CallbackIds(b.cfg.id, b.p.callbackSeq, Run(b, steps).p.callbackSeq - b.p.callbackSeq)
    ensures Distinct(AllPushed(b, steps))
    decreases |steps|
  {
    var n := Run(b, steps).p.callbackSeq - b.p.callbackSeq;
    if steps != [] {
      var c := Next(b, steps[0]);
      PushedIsNumbered(b, steps[0]);
      EveryCallbackIdOnce(c, steps[1..]);
      var m := c.p.callbackSeq - b.p.callbackSeq;
      NumberingJoins(b.cfg.id, b.p.callbackSeq, m, n - m);
    }
    NumberingJoins(b.cfg.id, b.p.callbackSeq, n, 0);
  }

  // ---------------------------------------------------------------------
  // Rollback undoes link

  /** Linking a fresh child and taking the link back, with the run's bookkeeping set aside. */
  function LinkAndRollback(b: Batch, child: Id): Batch {
    RemoveChild(AddChild(b, child), child).(hist := b.hist)
  }

  /** A caller can tell from the parent's flags whether a rollback restores it. */
  predicate RollbackRestores(b: Batch) {
    b.p.pending > 0 || (b.p.completeFired && b.p.successFired == !b.p.dead)
  }

  lemma RollbackUndoesLink(b: Batch, child: Id)
    requires Inv(b) && !b.p.invalidated && child !in b.jobs
    ensures LinkAndRollback(b, child) == b <==> RollbackRestores(b)
    ensures LinkAndRollback(b, child) == b.(p := b.p.(
      completeFired := b.p.completeFired || b.p.pending == 0,
      successFired := if b.p.pending == 0 then !b.p.dead else b.p.successFired))
  {
    assert b.jobs + {child} - {child} == b.jobs;
  }

  /** A batch that has fired and has no success callback is not restored: the rollback sets success_fired. */
  lemma RollbackCanAlterTheParent(id: BatchId, child: Id)
    ensures var b := Run(NewBatch(Config(id, None, 0, false, false, false), 0), [DoComplete(Child(id), EmptySuccess)]);
      && Possible(NewBatch(Config(id, None, 0, false, false, false), 0), [DoComplete(Child(id), EmptySuccess)])
      && !b.p.invalidated && child !in b.jobs && !RollbackRestores(b) && LinkAndRollback(b, child) != b
  {
    var b0 := NewBatch(Config(id, None, 0, false, false, false), 0);
    var steps := [DoComplete(Child(id), EmptySuccess)];
    var b := Next(b0, steps[0]);
    assert steps[1..] == [] && Run(b, []) == b && Run(b0, steps) == b;
    assert FiredKinds(b0, EmptySuccess) == [];
    assert LinkAndRollback(b, child).p.successFired && !b.p.successFired;
  }

  /** Every reachable parent that is pending, or has fired with a success callback configured, is restored. */
  lemma ReachableRollbackRestores(cfg: Config, members: nat, steps: seq<Step>, child: Id)
    requires Possible(NewBatch(cfg, members), steps)
    requires var b := Run(NewBatch(cfg, members), steps);
      !b.p.invalidated && child !in b.jobs && (b.p.pending > 0 || (b.p.completeFired && cfg.onSuccess))
    ensures var b := Run(NewBatch(cfg, members), steps); LinkAndRollback(b, child) == b
  {
    var b := Run(NewBatch(cfg, members), steps);
    ReachableInv(cfg, members, steps);
    HistoryCounts(NewBatch(cfg, members), steps);
    RollbackUndoesLink(b, child);
  }

  // ---------------------------------------------------------------------
  // Repeating a completion changes nothing

  /** A repeated failure finds the job already in the failed set and fires nothing. */
  lemma RepeatedFailure(c: Batch, job: Id)
    requires Inv(c) && job in c.jobs && job in c.failed
    ensures Record(c, job, Failure) == c
  {
    assert c.p.pending > 0;
    assert FiredKinds(c, Failure) == [];
    assert c.callbacks + Tracked(CallbackIds(c.cfg.id, c.p.callbackSeq, 0)) == c.callbacks;
    assert c.hist.issued + [] == c.hist.issued;
  }

  /** Running the completion script again changes nothing, and the repeat does not signal the parent. */
  lemma CompleteIsIdempotent(b: Batch, job: Id, r: Result)
    requires Inv(b)
    ensures var c := Complete(b, job, r).0;
      Complete(c, job, r).0 == c && !Signals(c, DoComplete(job, r))
  {
    if Refusal(b, job, r) == None {
      var c := Record(b, job, r);
      RecordKeepsInv(b, job, r);
      if r.Failure? {
        RepeatedFailure(c, job);
      } else {
        assert Refusal(c, job, r) != None;
      }
    } else {
      assert Complete(b, job, r).0 == b;
    }
  }
}
