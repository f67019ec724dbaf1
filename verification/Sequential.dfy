/**
  A sequential queue: its Redis lock, and the per-process semaphores that guard the lock
  from the goroutines of one worker.
 */
module Sequential {
  import opened Ids
  import D = Delivery

  type Goroutine = nat

  /**
    Where a goroutine stands with the queue.  An idle goroutine is not listed.  The
    handler runs in Processing; Dropping is the error path of a claim that could not be
    prepared; Freeing has run the unlock script and still holds the semaphore.
   */
  datatype Stage = Asking | Claimed | Processing | Dropping | Releasing | Freeing

  datatype Proc = Proc(worker: WorkerId, stage: Stage)

  datatype State = State(lock: Option<WorkerId>, sema: set<WorkerId>, procs: map<Goroutine, Proc>)

  const INIT := State(None, {}, map[])

  datatype Step =
    | Enter(g: Goroutine, w: WorkerId)
    | Fetch(g: Goroutine, waiting: bool, reply: bool)
    | Prepare(g: Goroutine, ok: bool)
    | Finish(g: Goroutine)
    | Unlock(g: Goroutine, reached: bool)
    | Free(g: Goroutine)
    | Crash(w: WorkerId)
    | Expire

  /** The lock after the claim script, and whether it handed out a job. */
  function ClaimLock(lock: Option<WorkerId>, w: WorkerId, waiting: bool): (Option<WorkerId>, bool) {
    if lock.Some? && lock.value != w then (lock, false)
    else if !waiting then (lock, false)
    else (Some(w), true)
  }

  /** The lock after the holder-checked unlock script. */
  function UnlockBy(lock: Option<WorkerId>, w: WorkerId): Option<WorkerId> {
    if lock == Some(w) then None else lock
  }

  predicate At(s: State, g: Goroutine, stage: Stage) {
    g in s.procs && s.procs[g].stage == stage
  }

  predicate Enabled(s: State, step: Step) {
    match step
    case Enter(g, w) => g !in s.procs
    case Fetch(g, _, _) => At(s, g, Asking)
    case Prepare(g, _) => At(s, g, Claimed)
    case Finish(g) => At(s, g, Processing)
    case Unlock(g, _) => At(s, g, Dropping) || At(s, g, Releasing)
    case Free(g) => At(s, g, Freeing)
    case Crash(_) => true
    case Expire => true
  }

  function Leave(s: State, g: Goroutine): State
    requires g in s.procs
  {
    s.(sema := s.sema - {s.procs[g].worker}, procs := s.procs - {g})
  }

  function Move(s: State, g: Goroutine, stage: Stage): State
    requires g in s.procs
  {
    s.(procs := s.procs[g := s.procs[g].(stage := stage)])
  }

  ghost function Next(s: State, step: Step): State
    requires Enabled(s, step)
  {
    match step
    case Enter(g, w) =>
      if w in s.sema then s
      else s.(sema := s.sema + {w}, procs := s.procs[g := Proc(w, Asking)])
    case Fetch(g, waiting, reply) =>
      var (lock, got) := ClaimLock(s.lock, s.procs[g].worker, waiting);
      var t := s.(lock := lock);
      if got && reply then Move(t, g, Claimed) else Leave(t, g)
    case Prepare(g, ok) => Move(s, g, if ok then Processing else Dropping)
    case Finish(g) => Move(s, g, Releasing)
    case Unlock(g, reached) =>
      var t := Move(s, g, Freeing);
      if reached then t.(lock := UnlockBy(s.lock, s.procs[g].worker)) else t
    case Free(g) => Leave(s, g)
    case Crash(w) =>
      s.(sema := s.sema - {w}, procs := map g | g in s.procs && s.procs[g].worker != w :: s.procs[g])
    case Expire => s.(lock := None)
  }

  /** Holds a claimed job: from the claim script until processing has ended. */
  predicate Busy(s: State, g: Goroutine) {
    At(s, g, Claimed) || At(s, g, Processing)
  }

  /** At most one goroutine of any worker runs a handler for this queue. */
  ghost predicate Exclusive(s: State) {
    forall g, h :: At(s, g, Processing) && At(s, h, Processing) ==> g == h
  }

  /** Every listed goroutine owns its process's semaphore, and a busy one owns the lock. */
  ghost predicate Inv(s: State) {
    && (forall g :: g in s.procs ==> s.procs[g].worker in s.sema)
    && (forall g, h :: g in s.procs && h in s.procs && s.procs[g].worker == s.procs[h].worker ==> g == h)
    && (forall g :: Busy(s, g) ==> s.lock == Some(s.procs[g].worker))
  }

  /** The lock does not run out while a delivery is busy. */
  ghost predicate Timely(s: State, step: Step) {
    step.Expire? ==> forall g :: !Busy(s, g)
  }

  ghost predicate Possible(s: State, steps: seq<Step>)
    decreases |steps|
  {
    steps == [] || (Enabled(s, steps[0]) && Possible(Next(s, steps[0]), steps[1..]))
  }

  ghost function Run(s: State, steps: seq<Step>): State
    requires Possible(s, steps)
    decreases |steps|
  {
    if steps == [] then s else Run(Next(s, steps[0]), steps[1..])
  }

  ghost predicate AllTimely(s: State, steps: seq<Step>)
    requires Possible(s, steps)
    decreases |steps|
  {
    steps == [] || (Timely(s, steps[0]) && AllTimely(Next(s, steps[0]), steps[1..]))
  }

  /** A goroutine changes stage, and nobody else relies on what the lock becomes. */
  lemma MoveKeepsInv(s: State, g: Goroutine, stage: Stage, lock: Option<WorkerId>)
    requires Inv(s) && g in s.procs
    requires stage == Claimed || stage == Processing ==> lock == Some(s.procs[g].worker)
    requires lock == s.lock || forall h :: Busy(s, h) ==> h == g
    ensures Inv(Move(s, g, stage).(lock := lock))
  {
    var t := Move(s, g, stage).(lock := lock);
    forall h | Busy(t, h)
      ensures t.lock == Some(t.procs[h].worker)
    {
      if h != g {
        assert Busy(s, h);
      }
    }
  }

  lemma LeaveKeepsInv(s: State, g: Goroutine, lock: Option<WorkerId>)
    requires Inv(s) && g in s.procs
    requires lock == s.lock || forall h :: Busy(s, h) ==> h == g
    ensures Inv(Leave(s, g).(lock := lock))
  {
    var t := Leave(s, g).(lock := lock);
    forall h | Busy(t, h)
      ensures t.lock == Some(t.procs[h].worker)
    {
      assert Busy(s, h);
    }
  }

  /** The claim script changes the lock only when no other goroutine is busy. */
  lemma FetchKeepsInv(s: State, step: Step)
    requires Inv(s) && Enabled(s, step) && step.Fetch?
    ensures Inv(Next(s, step))
  {
    var (lock, got) := ClaimLock(s.lock, s.procs[step.g].worker, step.waiting);
    if got && step.reply {
      MoveKeepsInv(s, step.g, Claimed, lock);
    } else {
      LeaveKeepsInv(s, step.g, lock);
    }
  }

  lemma StageKeepsInv(s: State, step: Step)
    requires Inv(s) && Enabled(s, step) && (step.Prepare? || step.Finish? || step.Unlock?)
    ensures Inv(Next(s, step))
  {
    match step
    case Prepare(g, ok) => MoveKeepsInv(s, g, if ok then Processing else Dropping, s.lock);
    case Finish(g) => MoveKeepsInv(s, g, Releasing, s.lock);
    case Unlock(g, reached) =>
      MoveKeepsInv(s, g, Freeing, if reached then UnlockBy(s.lock, s.procs[g].worker) else s.lock);
  }

  lemma ProcessKeepsInv(s: State, step: Step)
    requires Inv(s) && Enabled(s, step) && Timely(s, step)
    requires step.Enter? || step.Free? || step.Crash? || step.Expire?
    ensures Inv(Next(s, step))
  {
    var t := Next(s, step);
    if step.Free? {
      LeaveKeepsInv(s, step.g, s.lock);
    } else {
      assert forall h :: Busy(t, h) ==> Busy(s, h) && t.procs[h] == s.procs[h];
    }
  }

  lemma StepKeepsInv(s: State, step: Step)
    requires Inv(s) && Enabled(s, step) && Timely(s, step)
    ensures Inv(Next(s, step))
  {
    match step
    case Fetch(_, _, _) => FetchKeepsInv(s, step);
    case Prepare(_, _) => StageKeepsInv(s, step);
    case Finish(_) => StageKeepsInv(s, step);
    case Unlock(_, _) => StageKeepsInv(s, step);
    case _ => ProcessKeepsInv(s, step);
  }

  lemma {:induction false} RunKeepsInv(s: State, steps: seq<Step>)
    requires Inv(s) && Possible(s, steps) && AllTimely(s, steps)
    ensures Inv(Run(s, steps))
    decreases |steps|
  {
    if steps != [] {
      StepKeepsInv(s, steps[0]);
      RunKeepsInv(Next(s, steps[0]), steps[1..]);
    }
  }

  lemma InvExcludes(s: State)
    requires Inv(s)
    ensures Exclusive(s)
    ensures forall g, h :: Busy(s, g) && Busy(s, h) ==> g == h
  {
  }

  /** Mutual exclusion in every state reached while locks outlive their deliveries. */
  lemma MutualExclusion(steps: seq<Step>)
    requires Possible(INIT, steps) && AllTimely(INIT, steps)
    ensures Exclusive(Run(INIT, steps))
  {
    RunKeepsInv(INIT, steps);
    InvExcludes(Run(INIT, steps));
  }

  lemma {:induction false} SomeFresh(used: set<nat>) returns (n: nat)
    ensures forall x :: x in used ==> x < n
    decreases |used|
  {
    if used == {} {
      n := 0;
    } else {
      var x :| x in used;
      var m := SomeFresh(used - {x});
      n := if m > x then m else x + 1;
      assert forall y :: y in used ==> y == x || y in used - {x};
    }
  }

  /** Some run whose later locks do not run out early puts two handlers on the queue. */
  ghost predicate CanCollide(s: State) {
    exists steps :: Possible(s, steps) && AllTimely(s, steps) && !Exclusive(Run(s, steps))
  }

  lemma StepBack(s: State, step: Step)
    requires Enabled(s, step) && Timely(s, step) && CanCollide(Next(s, step))
    ensures CanCollide(s)
  {
    var rest :| Possible(Next(s, step), rest) && AllTimely(Next(s, step), rest)
      && !Exclusive(Run(Next(s, step), rest));
    var steps := [step] + rest;
    assert steps[1..] == rest;
    assert Run(s, steps) == Run(Next(s, step), rest);
  }

  lemma CollisionIsNow(s: State, g: Goroutine, h: Goroutine)
    requires g != h && At(s, g, Processing) && At(s, h, Processing)
    ensures CanCollide(s)
  {
    assert Run(s, []) == s;
  }

  lemma SecondWorkerEnters(s: State, g: Goroutine)
    requires s.lock == None && At(s, g, Processing)
    ensures CanCollide(s)
  {
    var h := SomeFresh(s.procs.Keys);
    var w := SomeFresh(s.sema);
    var s1 := Next(s, Enter(h, w));
    var s2 := Next(s1, Fetch(h, true, true));
    var s3 := Next(s2, Prepare(h, true));
    CollisionIsNow(s3, g, h);
    StepBack(s2, Prepare(h, true));
    StepBack(s1, Fetch(h, true, true));
    StepBack(s, Enter(h, w));
  }

  lemma LockLostWhileBusy(s: State, g: Goroutine)
    requires s.lock == None && Busy(s, g)
    ensures CanCollide(s)
  {
    if At(s, g, Claimed) {
      SecondWorkerEnters(Next(s, Prepare(g, true)), g);
      StepBack(s, Prepare(g, true));
    } else {
      SecondWorkerEnters(s, g);
    }
  }

  /** The lock may run out with no harm to come exactly when no delivery is busy. */
  lemma ExpiryIsExact(s: State)
    requires Inv(s)
    ensures (forall g :: !Busy(s, g)) <==> !CanCollide(Next(s, Expire))
  {
    var t := Next(s, Expire);
    if forall g :: !Busy(s, g) {
      StepKeepsInv(s, Expire);
      forall steps | Possible(t, steps) && AllTimely(t, steps)
        ensures Exclusive(Run(t, steps))
      {
        RunKeepsInv(t, steps);
        InvExcludes(Run(t, steps));
      }
    } else {
      var g :| Busy(s, g);
      assert Busy(t, g);
      LockLostWhileBusy(t, g);
    }
  }

  /** A lock that is set belongs to a goroutine that still has to run the unlock script. */
  ghost predicate Owned(s: State) {
    s.lock.Some? ==> exists g :: Owner(s, g)
  }

  predicate Owner(s: State, g: Goroutine) {
    g in s.procs && s.lock == Some(s.procs[g].worker)
      && s.procs[g].stage != Asking && s.procs[g].stage != Freeing
  }

  /** No script call loses its effect or its reply, and no process dies. */
  predicate Smooth(step: Step) {
    match step
    case Fetch(_, _, reply) => reply
    case Unlock(_, reached) => reached
    case Crash(_) => false
    case _ => true
  }

  lemma StepKeepsOwned(s: State, step: Step)
    requires Inv(s) && Owned(s) && Enabled(s, step) && Smooth(step)
    ensures Owned(Next(s, step))
  {
    var t := Next(s, step);
    if t.lock.Some? {
      if step.Fetch? && ClaimLock(s.lock, s.procs[step.g].worker, step.waiting).1 {
        assert Owner(t, step.g);
      } else {
        var g :| Owner(s, g);
        assert Owner(t, g);
      }
    }
  }

  /** The lock never outlives the claim it was taken for, unless a call or a process fails. */
  lemma {:induction false} LockNeverLeaks(s: State, steps: seq<Step>)
    requires Inv(s) && Owned(s) && Possible(s, steps) && AllTimely(s, steps)
    requires forall step :: step in steps ==> Smooth(step)
    ensures Owned(Run(s, steps))
    decreases |steps|
  {
    if steps != [] {
      StepKeepsInv(s, steps[0]);
      StepKeepsOwned(s, steps[0]);
      LockNeverLeaks(Next(s, steps[0]), steps[1..]);
    }
  }

  /** A waiting job of the queue is handed to any worker that does not find another one's lock. */
  lemma FreeQueueIsServed(s: State, g: Goroutine, w: WorkerId)
    requires Inv(s) && g !in s.procs && w !in s.sema && (s.lock.None? || s.lock.value == w)
    ensures var steps := [Enter(g, w), Fetch(g, true, true), Prepare(g, true)];
      && Possible(s, steps) && AllTimely(s, steps)
      && At(Run(s, steps), g, Processing) && Run(s, steps).lock == Some(w)
  {
    var steps := [Enter(g, w), Fetch(g, true, true), Prepare(g, true)];
    var s1 := Next(s, Enter(g, w));
    var s2 := Next(s1, Fetch(g, true, true));
    var s3 := Next(s2, Prepare(g, true));
    assert steps[1..] == [Fetch(g, true, true), Prepare(g, true)];
    assert steps[1..][1..] == [Prepare(g, true)];
    assert steps[1..][1..][1..] == [];
    assert Possible(s3, []) && Run(s3, []) == s3 && AllTimely(s3, []);
    assert Possible(s2, steps[1..][1..]) && Run(s2, steps[1..][1..]) == s3;
    assert Possible(s1, steps[1..]) && Run(s1, steps[1..]) == s3;
  }

  /** A semaphore that is taken has its goroutine. */
  ghost predicate SemaphoresUsed(s: State) {
    forall w :: w in s.sema ==> exists g :: g in s.procs && s.procs[g].worker == w
  }

  lemma StepKeepsUsed(s: State, step: Step)
    requires Inv(s) && SemaphoresUsed(s) && Enabled(s, step)
    ensures SemaphoresUsed(Next(s, step))
  {
    var t := Next(s, step);
    forall w | w in t.sema
      ensures exists g :: g in t.procs && t.procs[g].worker == w
    {
      if step.Enter? && w !in s.sema {
        assert t.procs[step.g].worker == w;
      } else {
        var g :| g in s.procs && s.procs[g].worker == w;
        assert g in t.procs && t.procs[g].worker == w;
      }
    }
  }

  lemma {:induction false} RunKeepsUsed(s: State, steps: seq<Step>)
    requires Inv(s) && SemaphoresUsed(s) && Possible(s, steps) && AllTimely(s, steps)
    ensures SemaphoresUsed(Run(s, steps))
    decreases |steps|
  {
    if steps != [] {
      StepKeepsUsed(s, steps[0]);
      StepKeepsInv(s, steps[0]);
      RunKeepsUsed(Next(s, steps[0]), steps[1..]);
    }
  }

  /** So once the goroutines of a smooth run are through, whoever comes next gets the queue. */
  lemma NextWorkerIsServed(steps: seq<Step>, g: Goroutine, w: WorkerId)
    requires Possible(INIT, steps) && AllTimely(INIT, steps) && (forall step :: step in steps ==> Smooth(step))
    requires Run(INIT, steps).procs == map[]
    ensures Run(INIT, steps) == INIT
    ensures var next := [Enter(g, w), Fetch(g, true, true), Prepare(g, true)];
      Possible(Run(INIT, steps), next) && At(Run(Run(INIT, steps), next), g, Processing)
  {
    RunKeepsInv(INIT, steps);
    RunKeepsUsed(INIT, steps);
    LockNeverLeaks(INIT, steps);
    assert Run(INIT, steps).sema == {};
    FreeQueueIsServed(Run(INIT, steps), g, w);
  }

  predicate FirstAt<T(==)>(s: seq<T>, x: T, i: nat) {
    i < |s| && s[i] == x && x !in s[..i]
  }

  datatype Status = Locked | Empty | GotJob

  /** The keys that the scripts of a sequential queue work on. */
  class QueueKeys {
    var queue: seq<D.Payload>
    var inFlight: seq<D.Payload>
    var lock: Option<WorkerId>
    var trust: map<Id, D.Payload>

    /** Claims the oldest job, and the lock with it; a queue without jobs leaves the lock alone. */
    method FetchScript(w: WorkerId) returns (status: Status, job: Option<D.Payload>)
      modifies `queue, `inFlight, `lock
      ensures (lock, status == GotJob) == ClaimLock(old(lock), w, |old(queue)| > 0)
      ensures status == Locked <==> old(lock).Some? && old(lock).value != w
      ensures status == GotJob <==> job.Some?
      ensures job.Some? ==>
        && |old(queue)| > 0 && queue == old(queue)[..|old(queue)| - 1]
        && job.value == D.Sanitized(trust, old(queue)[|old(queue)| - 1])
        && inFlight == [job.value] + old(inFlight)
      ensures job.None? ==> queue == old(queue) && inFlight == old(inFlight)
    {
      if lock.Some? && lock.value != w {
        return Locked, None;
      }
      if queue == [] {
        return Empty, None;
      }
      var payload := queue[|queue| - 1];
      queue := queue[..|queue| - 1];
      inFlight := [payload] + inFlight;
      var claimed := payload;
      if payload.fin.Some? {
        var trusted := payload.jid in trust && trust[payload.jid] == payload;
        if !trusted {
          claimed := payload.(fin := None);
        }
      }
      if claimed != payload {
        inFlight := inFlight[0 := claimed];
      }
      lock := Some(w);
      return GotJob, Some(claimed);
    }

    method ReleaseScript(w: WorkerId) returns (deleted: nat)
      modifies this`lock
      ensures lock == UnlockBy(old(lock), w)
      ensures deleted == 1 <==> old(lock) == Some(w)
      ensures deleted <= 1
    {
      if lock == Some(w) {
        lock := None;
        return 1;
      }
      return 0;
    }

    /** Throws away a claimed payload that cannot be decoded, and the lock taken for it. */
    method DiscardScript(payload: D.Payload, w: WorkerId) returns (removed: nat)
      modifies this`inFlight, this`lock
      ensures lock == UnlockBy(old(lock), w)
      ensures removed == (if payload in old(inFlight) then 1 else 0)
      ensures removed == 0 ==> inFlight == old(inFlight)
      ensures removed == 1 ==>
        exists i: nat :: FirstAt(old(inFlight), payload, i) && inFlight == old(inFlight)[..i] + old(inFlight)[i + 1..]
    {
      removed := 0;
      if payload in inFlight {
        var i := 0;
        while inFlight[i] != payload
          invariant 0 <= i < |inFlight| && payload in inFlight[i..] && payload !in inFlight[..i]
          invariant inFlight == old(inFlight) && lock == old(lock)
          decreases |inFlight| - i
        {
          i := i + 1;
        }
        assert FirstAt(old(inFlight), payload, i);
        inFlight := inFlight[..i] + inFlight[i + 1..];
        removed := 1;
      }
      if lock == Some(w) {
        lock := None;
      }
    }
  }
}
