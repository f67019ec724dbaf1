/**
  What the record of a batch says is what happened to it: over every run its counters,
  flags, members and callbacks follow from the results taken, the links and the growth.
 */
module BatchAccounts {
  import opened Ids
  import opened Batches
  import opened BatchInvariants
  import opened BatchTheorems

  // ---------------------------------------------------------------------
  // Which results count

  /** The result is for a member still waited for; an empty batch ends by itself, once. */
  predicate Taken(b: Batch, s: Step) {
    && s.DoComplete?
    && if s.result.EmptySuccess? then b.p.pending == 0 && !b.p.completeFired else s.job in b.jobs
  }

  /** A result is recorded exactly when it is taken, and the reply is the record as it then stands. */
  lemma TakenIsRecorded(b: Batch, job: Id, r: Result)
    requires Inv(b)
    ensures var (c, reply) := Complete(b, job, r);
      && (Taken(b, DoComplete(job, r)) ==>
            && reply.Recorded? && reply.pending == c.p.pending
            && reply.successes == c.p.successes && reply.failures == c.p.failures
            && reply.dead == c.p.dead && reply.invalidated == c.p.invalidated
            && reply.completedNow == Settled(c) && Tracked(reply.enqueued) == c.callbacks - b.callbacks)
      && (!Taken(b, DoComplete(job, r)) ==>
            c == b && reply == if r.EmptySuccess? && b.p.pending != 0 then NotEmpty else AlreadyProcessed)
  {
    var c := Complete(b, job, r).0;
    if Taken(b, DoComplete(job, r)) {
      CallbackIdsFresh(b, |FiredKinds(b, r)|);
      assert r.Failure? ==> |b.jobs| > 0;
      assert c.callbacks - b.callbacks == Tracked(CallbackIds(b.cfg.id, b.p.callbackSeq, |FiredKinds(b, r)|));
    }
  }

  /** The reply to a callback's retirement is the record too. */
  lemma RetirementReply(b: Batch, cb: Id)
    requires Inv(b)
    ensures var (c, reply) := CallbackComplete(b, cb);
      && reply.dead == c.p.dead && reply.invalidated == c.p.invalidated
      && (reply.already <==> cb !in b.callbacks) && (reply.already ==> c == b)
      && (!reply.already ==> reply.shouldPropagate == Settled(c))
  {
  }

  // ---------------------------------------------------------------------
  // Counters and flags

  /** How many results r were taken in a run. */
  function Ended(b: Batch, steps: seq<Step>, r: Result): nat
    decreases |steps|
  {
    if steps == [] then 0
    else One(Taken(b, steps[0]) && steps[0].result == r) + Ended(Next(b, steps[0]), steps[1..], r)
  }

  /** The members for which a failure or a death was taken. */
  function Failures(b: Batch, steps: seq<Step>): set<Id>
    decreases |steps|
  {
    if steps == [] then {}
    else
      (if Taken(b, steps[0]) && (steps[0].result.Failure? || steps[0].result.Death?) then {steps[0].job} else {})
      + Failures(Next(b, steps[0]), steps[1..])
  }

  /** Some member died while the batch was not invalidated. */
  predicate Died(b: Batch, steps: seq<Step>)
    decreases |steps|
  {
    steps != [] &&
    ((Taken(b, steps[0]) && steps[0].result.Death? && !b.p.invalidated) || Died(Next(b, steps[0]), steps[1..]))
  }

  /** The batch, or one of its children, was invalidated. */
  predicate Spoilt(b: Batch, steps: seq<Step>)
    decreases |steps|
  {
    steps != [] &&
    (steps[0].DoInvalidate? || (Taken(b, steps[0]) && steps[0].result.Invalidated?)
     || Spoilt(Next(b, steps[0]), steps[1..]))
  }

  /** Members that a step adds to the count: growth of an open batch, a new link, or a link taken back. */
  function Gain(b: Batch, s: Step): int {
    match s
    case DoAddJobs(ids) => if b.p.invalidated || b.p.completeFired then 0 else |ids|
    case DoAddChild(child) => if b.p.invalidated || child in b.jobs then 0 else 1
    case DoRemoveChild(child) => if child in b.jobs then -1 else 0
    case _ => 0
  }

  function Gains(b: Batch, steps: seq<Step>): int
    decreases |steps|
  {
    if steps == [] then 0 else Gain(b, steps[0]) + Gains(Next(b, steps[0]), steps[1..])
  }

  lemma StepCounts(b: Batch, s: Step)
    ensures var c := Next(b, s);
      && c.p.successes == b.p.successes + One(Taken(b, s) && s.result.Success?)
      && c.hist.deaths == b.hist.deaths + One(Taken(b, s) && s.result.Death?)
      && c.hist.invalidatedResults == b.hist.invalidatedResults + One(Taken(b, s) && s.result.Invalidated?)
  {
  }

  lemma StepFlags(b: Batch, s: Step)
    ensures var c := Next(b, s);
      && (c.p.dead <==> b.p.dead || (Taken(b, s) && s.result.Death? && !b.p.invalidated))
      && (c.p.invalidated <==> b.p.invalidated || s.DoInvalidate? || (Taken(b, s) && s.result.Invalidated?))
  {
  }

  lemma StepFailures(b: Batch, s: Step)
    ensures Next(b, s).failed
      == b.failed + if Taken(b, s) && (s.result.Failure? || s.result.Death?) then {s.job} else {}
  {
  }

  lemma StepGains(b: Batch, s: Step)
    requires Inv(b)
    ensures Next(b, s).p.total == b.p.total + Gain(b, s)
  {
    assert s.DoRemoveChild? && s.child in b.jobs ==> |b.jobs| > 0;
  }

  /** Over every run, the counters count the results taken, */
  lemma {:induction false} CountersAreAccount(b: Batch, steps: seq<Step>)
    ensures var c := Run(b, steps);
      && c.p.successes == b.p.successes + Ended(b, steps, Success)
      && c.hist.deaths == b.hist.deaths + Ended(b, steps, Death)
      && c.hist.invalidatedResults == b.hist.invalidatedResults + Ended(b, steps, Invalidated)
    decreases |steps|
  {
    if steps != [] {
      StepCounts(b, steps[0]);
      CountersAreAccount(Next(b, steps[0]), steps[1..]);
    }
  }

  /** the flags say whether a member died in time and whether anything was invalidated, */
  lemma {:induction false} FlagsAreAccount(b: Batch, steps: seq<Step>)
    ensures var c := Run(b, steps);
      && (c.p.dead <==> b.p.dead || Died(b, steps))
      && (c.p.invalidated <==> b.p.invalidated || Spoilt(b, steps))
    decreases |steps|
  {
    if steps != [] {
      StepFlags(b, steps[0]);
      FlagsAreAccount(Next(b, steps[0]), steps[1..]);
    }
  }

  /** and the failed set holds the members that failed or died. */
  lemma {:induction false} FailuresAreAccount(b: Batch, steps: seq<Step>)
    ensures Run(b, steps).failed == b.failed + Failures(b, steps)
    decreases |steps|
  {
    if steps != [] {
      StepFailures(b, steps[0]);
      FailuresAreAccount(Next(b, steps[0]), steps[1..]);
    }
  }

  lemma {:induction false} TotalIsAccount(b: Batch, steps: seq<Step>)
    requires Inv(b) && Possible(b, steps)
    ensures Run(b, steps).p.total == b.p.total + Gains(b, steps)
    decreases |steps|
  {
    if steps != [] {
      StepGains(b, steps[0]);
      StepKeepsInv(b, steps[0]);
      TotalIsAccount(Next(b, steps[0]), steps[1..]);
    }
  }

  /** So the whole hash of a stored batch is told by its life. */
  lemma LifeIsAccount(cfg: Config, members: nat, steps: seq<Step>)
    requires Possible(NewBatch(cfg, members), steps)
    ensures var b0 := NewBatch(cfg, members); var c := Run(b0, steps);
      && c.p.successes == Ended(b0, steps, Success) && c.p.failures == |Failures(b0, steps)|
      && c.p.total == members + Gains(b0, steps)
      && c.p.pending == c.p.total - Ended(b0, steps, Success) - Ended(b0, steps, Death) - Ended(b0, steps, Invalidated)
      && (c.p.dead <==> Died(b0, steps)) && (c.p.invalidated <==> Spoilt(b0, steps))
  {
    var b0 := NewBatch(cfg, members);
    ReachableInv(cfg, members, steps);
    CountersAreAccount(b0, steps);
    FlagsAreAccount(b0, steps);
    FailuresAreAccount(b0, steps);
    TotalIsAccount(b0, steps);
    assert b0.failed + Failures(b0, steps) == Failures(b0, steps);
  }

  // ---------------------------------------------------------------------
  // Members and open callbacks

  predicate Joins(b: Batch, s: Step, id: Id) {
    match s
    case DoAddJobs(ids) => !b.p.invalidated && !b.p.completeFired && id in ids
    case DoEnqueueJobs(ids) => id in ids
    case DoAddChild(child) => !b.p.invalidated && id == child
    case _ => false
  }

  predicate Leaves(b: Batch, s: Step, id: Id) {
    || (s.DoRemoveChild? && s.child == id)
    || (s.DoComplete? && s.job == id && (s.result.Success? || s.result.Death? || s.result.Invalidated?))
  }

  /** Who is waited for after a step: a failure keeps its member, and only links, growth and tracking bring new ones. */
  lemma MembershipIsExact(b: Batch, s: Step, id: Id)
    ensures id in Next(b, s).jobs <==> (id in b.jobs && !Leaves(b, s, id)) || Joins(b, s, id)
    ensures id in Next(b, s).callbacks <==>
      (id in b.callbacks && !(s.DoCallback? && s.cb == id)) || id in Pushed(b, s)
  {
  }

  predicate TracksLate(steps: seq<Step>, id: Id) {
    exists i :: 0 <= i < |steps| && steps[i].DoEnqueueJobs? && id in steps[i].ids
  }

  /** An invalidated batch stays invalidated and takes no new member and no child: what it comes
      to wait for are initial members whose tracking was still to come. */
  lemma {:induction false} InvalidatedForEver(b: Batch, steps: seq<Step>, id: Id)
    requires Inv(b) && Possible(b, steps) && b.p.invalidated
    ensures Run(b, steps).p.invalidated && Run(b, steps).p.total <= b.p.total
    ensures id in Run(b, steps).jobs ==> id in b.jobs || TracksLate(steps, id)
    decreases |steps|
  {
    if steps != [] {
      var c := Next(b, steps[0]);
      StepKeepsInv(b, steps[0]);
      StepFlags(b, steps[0]);
      StepGains(b, steps[0]);
      MembershipIsExact(b, steps[0], id);
      InvalidatedForEver(c, steps[1..], id);
      if TracksLate(steps[1..], id) {
        var i :| 0 <= i < |steps[1..]| && steps[1..][i].DoEnqueueJobs? && id in steps[1..][i].ids;
        assert steps[i + 1] == steps[1..][i];
      }
    }
  }

  // ---------------------------------------------------------------------
  // Callbacks

  predicate Clean(b: Batch) {
    !b.p.dead && !b.p.invalidated
  }

  /** A result ends the last member of a batch that has not fired. */
  predicate Completes(b: Batch, s: Step) {
    Taken(b, s) && Next(b, s).p.pending == 0 && !b.p.completeFired
  }

  function Completions(b: Batch, steps: seq<Step>): nat
    decreases |steps|
  {
    if steps == [] then 0 else One(Completes(b, steps[0])) + Completions(Next(b, steps[0]), steps[1..])
  }

  /** Completions that found no member dead and nothing invalidated. */
  function CleanCompletions(b: Batch, steps: seq<Step>): nat
    decreases |steps|
  {
    if steps == [] then 0
    else
      One(Completes(b, steps[0]) && Clean(Next(b, steps[0]))) + CleanCompletions(Next(b, steps[0]), steps[1..])
  }

  lemma FiresWhen(b: Batch, job: Id, r: Result)
    requires Inv(b) && Taken(b, DoComplete(job, r))
    ensures FiresDeath(b, r) <==> b.cfg.onDeath && DeadAfter(b, r) && !b.p.dead
    ensures FiresComplete(b, r) <==> Completes(b, DoComplete(job, r))
    ensures FiresSuccess(b, r) <==> b.cfg.onSuccess && Completes(b, DoComplete(job, r)) && Clean(Record(b, job, r))
  {
    assert r.Failure? ==> |b.jobs| > 0;
  }

  lemma FiredCounts(b: Batch, r: Result)
    ensures Count(FiredKinds(b, r), OnDeath) == One(FiresDeath(b, r))
    ensures Count(FiredKinds(b, r), OnComplete) == One(FiresComplete(b, r) && b.cfg.onComplete)
    ensures Count(FiredKinds(b, r), OnSuccess) == One(FiresSuccess(b, r))
  {
  }

  lemma TakenIssues(b: Batch, job: Id, r: Result, k: Kind)
    requires Taken(b, DoComplete(job, r))
    ensures Next(b, DoComplete(job, r)) == Record(b, job, r)
    ensures Count(Record(b, job, r).hist.issued, k) == Count(b.hist.issued, k) + Count(FiredKinds(b, r), k)
  {
    CountAdds(b.hist.issued, FiredKinds(b, r), k);
  }

  lemma UntakenIssuesNothing(b: Batch, s: Step)
    requires !Taken(b, s)
    ensures Next(b, s).hist.issued == b.hist.issued && Next(b, s).p.dead == b.p.dead && Next(b, s).cfg == b.cfg
  {
  }

  lemma StepIssues(b: Batch, s: Step)
    requires Inv(b) && Enabled(b, s)
    ensures var c := Next(b, s);
      && c.cfg == b.cfg
      && Count(c.hist.issued, OnDeath) == Count(b.hist.issued, OnDeath) + One(b.cfg.onDeath && c.p.dead && !b.p.dead)
      && Count(c.hist.issued, OnComplete) == Count(b.hist.issued, OnComplete) + One(b.cfg.onComplete && Completes(b, s))
      && Count(c.hist.issued, OnSuccess)
           == Count(b.hist.issued, OnSuccess) + One(b.cfg.onSuccess && Completes(b, s) && Clean(c))
  {
    if Taken(b, s) {
      FiresWhen(b, s.job, s.result);
      FiredCounts(b, s.result);
      TakenIssues(b, s.job, s.result, OnDeath);
      TakenIssues(b, s.job, s.result, OnComplete);
      TakenIssues(b, s.job, s.result, OnSuccess);
    } else {
      UntakenIssuesNothing(b, s);
    }
  }

  lemma {:induction false} RunIssues(b: Batch, steps: seq<Step>)
    requires Inv(b) && Possible(b, steps)
    ensures var c := Run(b, steps);
      && c.cfg == b.cfg
      && Count(c.hist.issued, OnComplete)
           == Count(b.hist.issued, OnComplete) + (if b.cfg.onComplete then Completions(b, steps) else 0)
      && Count(c.hist.issued, OnSuccess)
           == Count(b.hist.issued, OnSuccess) + (if b.cfg.onSuccess then CleanCompletions(b, steps) else 0)
    decreases |steps|
  {
    if steps != [] {
      StepIssues(b, steps[0]);
      StepKeepsInv(b, steps[0]);
      RunIssues(Next(b, steps[0]), steps[1..]);
    }
  }

  lemma {:induction false} CountsAll(s: seq<Kind>)
    ensures |s| == Count(s, OnDeath) + Count(s, OnComplete) + Count(s, OnSuccess)
  {
    if s != [] {
      assert s == [s[0]] + s[1..];
      assert forall k :: Count([s[0]], k) == if k == s[0] then 1 else 0;
      CountsAll(s[1..]);
      CountAdds([s[0]], s[1..], OnDeath);
      CountAdds([s[0]], s[1..], OnComplete);
      CountAdds([s[0]], s[1..], OnSuccess);
    }
  }

  /**
    The callbacks of a whole life, rollbacks and reopenings included: one complete callback for
    each completion, one success callback for each clean completion, one death callback if the
    batch died, each if it is configured, and nothing else is pushed.
   */
  lemma CallbacksAreExact(cfg: Config, members: nat, steps: seq<Step>)
    requires Possible(NewBatch(cfg, members), steps)
    ensures var b0 := NewBatch(cfg, members); var c := Run(b0, steps);
      && Count(c.hist.issued, OnDeath) == One(cfg.onDeath && Died(b0, steps))
      && Count(c.hist.issued, OnComplete) == (if cfg.onComplete then Completions(b0, steps) else 0)
      && Count(c.hist.issued, OnSuccess) == (if cfg.onSuccess then CleanCompletions(b0, steps) else 0)
      && |AllPushed(b0, steps)| == One(cfg.onDeath && Died(b0, steps))
           + (if cfg.onComplete then Completions(b0, steps) else 0)
           + (if cfg.onSuccess then CleanCompletions(b0, steps) else 0)
  {
    var b0 := NewBatch(cfg, members);
    var c := Run(b0, steps);
    ReachableInv(cfg, members, steps);
    FlagsAreAccount(b0, steps);
    RunIssues(b0, steps);
    EveryCallbackIdOnce(b0, steps);
    CountsAll(c.hist.issued);
  }

  lemma IssuedSomewhere(s: seq<Kind>, k: Kind) returns (i: nat)
    requires Count(s, k) > 0
    ensures i < |s| && s[i] == k
  {
    assert k in multiset(s);
    i :| i < |s| && s[i] == k;
  }

  /** A batch with a death callback that has died has issued it, once, and has pushed its job. */
  lemma DeathIsTold(cfg: Config, members: nat, steps: seq<Step>) returns (i: nat)
    requires Possible(NewBatch(cfg, members), steps) && cfg.onDeath && Run(NewBatch(cfg, members), steps).p.dead
    ensures var b0 := NewBatch(cfg, members); var c := Run(b0, steps);
      && Count(c.hist.issued, OnDeath) == 1 && i < |c.hist.issued| && c.hist.issued[i] == OnDeath
      && Callback(cfg.id, i + 1) in AllPushed(b0, steps)
  {
    var b0 := NewBatch(cfg, members);
    var c := Run(b0, steps);
    ReachableInv(cfg, members, steps);
    HistoryCounts(b0, steps);
    EveryCallbackIdOnce(b0, steps);
    i := IssuedSomewhere(c.hist.issued, OnDeath);
    assert CallbackIds(cfg.id, 0, c.p.callbackSeq)[i] == Callback(cfg.id, i + 1);
  }

  function Rank(k: Kind): nat {
    match k
    case OnDeath => 0
    case OnComplete => 1
    case OnSuccess => 2
  }

  /** The callbacks of one completion are numbered death, complete, success. */
  lemma FiredInOrder(b: Batch, r: Result, i: nat, j: nat)
    requires i < j < |FiredKinds(b, r)|
    ensures Rank(FiredKinds(b, r)[i]) < Rank(FiredKinds(b, r)[j])
  {
  }

  /** A batch that ever had a member and has none pending has fired, whether a result or a rollback took the last. */
  lemma DoneHasFired(cfg: Config, members: nat, steps: seq<Step>)
    requires Possible(NewBatch(cfg, members), steps)
    ensures var c := Run(NewBatch(cfg, members), steps);
      c.p.pending == 0 && c.p.total > 0 ==> c.p.completeFired && (c.p.callbacksPending == 0 ==> Settled(c))
  {
    ReachableInv(cfg, members, steps);
  }

  /** success_fired is set only for a batch with nothing pending, dead or invalidated. */
  lemma SuccessIsEarned(b: Batch, s: Step)
    requires Inv(b) && Enabled(b, s) && !b.p.successFired && Next(b, s).p.successFired
    ensures Next(b, s).p.pending == 0 && Clean(Next(b, s))
    ensures s.DoRemoveChild? || (b.cfg.onSuccess && Completes(b, s))
  {
  }
}
