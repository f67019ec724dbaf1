/**
  A goroutine whose mark came too late cannot change what happens to the job, but it still
  records its own outcome in the job's batch.  When can that happen, and a run in which it does.
 */
module Rivals {
  import opened Ids
  import opened Machine
  import opened Workers
  import opened Outcomes
  import opened Persistence
  import B = Batches
  import D = Delivery
  import F = Forests
  import L = LostReplies
  import Z = ZeroDelay

  /** A goroutine that holds the job and has not settled on the decided operation. */
  predicate Rival(pr: Proc, p: D.Payload)
    requires p.fin.Some?
  {
    pr.raw.jid == p.jid && (pr.stage.Running? || pr.stage.fin.op != p.fin.value.op)
  }

  ghost predicate NoRival(m: State, p: D.Payload)
    requires p.fin.Some?
  {
    forall g :: g in m.procs ==> !Rival(m.procs[g], p)
  }

  // ---------------------------------------------------------------------
  // Attempts: batch scripts called with another result

  /** The step calls the batch script, for the job, with a result other than that of the decided operation. */
  ghost predicate Misrecords(m: State, step: Step, p: D.Payload)
    requires Enabled(m, step) && p.fin.Some?
  {
    step.RecordResult? && m.procs[step.g].raw.jid == p.jid && m.procs[step.g].stage.fin.op != p.fin.value.op
  }

  /** Some step of the run does so, before the decided outcome is carried out. */
  ghost predicate EverMisrecords(m: State, steps: seq<Step>, p: D.Payload)
    requires Possible(m, steps) && p.fin.Some?
    decreases |steps|
  {
    steps != [] &&
    (Misrecords(m, steps[0], p)
     || (!CarriesOut(m, steps[0], p) && EverMisrecords(Next(m, steps[0]), steps[1..], p)))
  }

  lemma HolderStaysNoRival(m: State, step: Step, p: D.Payload)
    requires p.fin.Some? && Enabled(m, step) && NoRival(m, p) && ByHolder(step)
    ensures NoRival(Next(m, step), p)
  {
    if step.RecordResult? || step.RecordCallback? {
      RecordingKeepsOutcome(m, step);
    } else if step.Interrupt? || step.Vanish? || (step.Terminate? && step.replied) {
      LeavingDropsProc(m, step);
    } else {
      MarkingKeepsOutcome(m, step);
    }
  }

  lemma ClaimAddsNoRival(m: State, step: Step, p: D.Payload)
    requires Inv(m) && Enabled(m, step) && Decided(m, p) && NoRival(m, p) && step.Claim?
    ensures NoRival(Next(m, step), p)
  {
    if step.p.jid == p.jid {
      ClaimResumes(m, step, p);
    }
  }

  lemma NoRivalStays(m: State, step: Step, p: D.Payload)
    requires Inv(m) && Enabled(m, step) && Decided(m, p) && NoRival(m, p)
    ensures NoRival(Next(m, step), p) && !Misrecords(m, step, p)
  {
    if step.Claim? {
      ClaimAddsNoRival(m, step, p);
    } else if step.Decide? {
      assert !Rival(m.procs[step.g], p);
    } else if ByHolder(step) {
      HolderStaysNoRival(m, step, p);
    } else if FromClient(step) {
      ClientsKeepProcs(m, step);
    } else {
      BackgroundKeepsProcs(m, step);
    }
  }

  lemma {:induction false} WithoutRivals(m: State, steps: seq<Step>, p: D.Payload)
    requires Inv(m) && Possible(m, steps) && Decided(m, p) && NoRival(m, p)
    ensures !EverMisrecords(m, steps, p)
    decreases |steps|
  {
    if steps != [] {
      NoRivalStays(m, steps[0], p);
      DecidedStep(m, steps[0], p);
      if !CarriesOut(m, steps[0], p) {
        StepKeepsInv(m, steps[0]);
        WithoutRivals(Next(m, steps[0]), steps[1..], p);
      }
    }
  }

  ghost predicate CanMisrecord(m: State, p: D.Payload)
    requires p.fin.Some?
  {
    exists steps: seq<Step> :: Possible(m, steps) && EverMisrecords(m, steps, p)
  }

  lemma MisrecordsNow(m: State, step: Step, p: D.Payload)
    requires p.fin.Some? && Enabled(m, step) && Misrecords(m, step, p)
    ensures CanMisrecord(m, p)
  {
    assert Possible(m, [step]) && EverMisrecords(m, [step], p);
  }

  lemma MisrecordsLater(m: State, step: Step, p: D.Payload)
    requires p.fin.Some? && Enabled(m, step) && !step.Terminate? && CanMisrecord(Next(m, step), p)
    ensures CanMisrecord(m, p)
  {
    var rest: seq<Step> :| Possible(Next(m, step), rest) && EverMisrecords(Next(m, step), rest, p);
    var steps := [step] + rest;
    assert steps[1..] == rest;
    assert Possible(m, steps) && EverMisrecords(m, steps, p);
  }

  lemma DecidingRival(m: State, g: nat, p: D.Payload)
    requires p.fin.Some? && g in m.procs && Rival(m.procs[g], p) && m.procs[g].stage.Deciding?
    ensures CanMisrecord(m, p)
  {
    MisrecordsNow(Next(m, MarkOutcome(g, true)), RecordResult(g, true), p);
    MisrecordsLater(m, MarkOutcome(g, true), p);
  }

  lemma RunningRival(m: State, g: nat, p: D.Payload)
    requires p.fin.Some? && g in m.procs && Rival(m.procs[g], p) && m.procs[g].stage.Running?
    ensures CanMisrecord(m, p)
  {
    var other := D.Finalization(if p.fin.value.op.Finish? then D.Kill else D.Finish, 0, None);
    DecidingRival(Next(m, Decide(g, other)), g, p);
    MisrecordsLater(m, Decide(g, other), p);
  }

  lemma FinalizingRival(m: State, g: nat, p: D.Payload)
    requires p.fin.Some? && g in m.procs && Rival(m.procs[g], p) && m.procs[g].stage.Finalizing?
    ensures CanMisrecord(m, p)
  {
    if m.procs[g].stage.done == 0 {
      MisrecordsNow(m, RecordResult(g, true), p);
    } else {
      var n := Next(m, Restart(g));
      if m.procs[g].raw.fin.Some? {
        MisrecordsNow(n, RecordResult(g, true), p);
      } else {
        DecidingRival(n, g, p);
      }
      MisrecordsLater(m, Restart(g), p);
    }
  }

  /** Until a decided outcome is carried out, every call of the batch script for the job has the
      decided result exactly when no goroutine holds the job with another operation or still runs it. */
  lemma OnlyRivalsAttempt(m: State, p: D.Payload)
    requires Inv(m) && Decided(m, p)
    ensures NoRival(m, p) <==> !CanMisrecord(m, p)
  {
    if NoRival(m, p) {
      forall steps: seq<Step> | Possible(m, steps)
        ensures !EverMisrecords(m, steps, p)
      {
        WithoutRivals(m, steps, p);
      }
    } else {
      var g :| g in m.procs && Rival(m.procs[g], p);
      if m.procs[g].stage.Running? {
        RunningRival(m, g, p);
      } else if m.procs[g].stage.Deciding? {
        DecidingRival(m, g, p);
      } else {
        FinalizingRival(m, g, p);
      }
    }
  }

  // ---------------------------------------------------------------------
  // Effects: batches that count another result

  /** The step makes a batch count, for the job, a result other than that of the decided operation. */
  ghost predicate Miscounts(m: State, step: Step, p: D.Payload)
    requires Enabled(m, step) && p.fin.Some?
  {
    Misrecords(m, step, p) && Next(m, step).forest != m.forest
  }

  ghost predicate EverMiscounts(m: State, steps: seq<Step>, p: D.Payload)
    requires Possible(m, steps) && p.fin.Some?
    decreases |steps|
  {
    steps != [] &&
    (Miscounts(m, steps[0], p)
     || (!CarriesOut(m, steps[0], p) && EverMiscounts(Next(m, steps[0]), steps[1..], p)))
  }

  ghost predicate CanMiscount(m: State, p: D.Payload)
    requires p.fin.Some?
  {
    exists steps: seq<Step> :: Possible(m, steps) && EverMiscounts(m, steps, p)
  }

  /** A rival whose batch still counts on the job, and would take its result: a batch that has
      noted a failure of the job takes no further one. */
  predicate Threat(f: F.Forest, pr: Proc, p: D.Payload)
    requires p.fin.Some?
  {
    && Rival(pr, p) && pr.raw.batch.Some? && pr.raw.batch.value in f
    && pr.raw.jid in f[pr.raw.batch.value].jobs
    && (pr.stage.Running? || !pr.stage.fin.op.Retry? || pr.raw.jid !in f[pr.raw.batch.value].failed)
  }

  ghost predicate NoThreat(m: State, p: D.Payload)
    requires p.fin.Some?
  {
    forall g :: g in m.procs ==> !Threat(m.forest, m.procs[g], p)
  }

  /** A later stage of the same goroutine with the same job. */
  predicate Follows(pr: Proc, qr: Proc) {
    && qr.raw.jid == pr.raw.jid && qr.raw.batch == pr.raw.batch
    && (qr.stage.Running? ==> pr.stage.Running?)
    && (!pr.stage.Running? ==> !qr.stage.Running? && qr.stage.fin == pr.stage.fin)
  }

  /** Nobody becomes a threat: the job joins no batch again, and failures stay noted. */
  lemma ThreatIsOld(f: F.Forest, g: F.Forest, pr: Proc, qr: Proc, p: D.Payload)
    requires p.fin.Some? && Lasting(f, g, p.jid) && Follows(pr, qr) && Threat(g, qr, p)
    ensures Threat(f, pr, p)
  {
  }

  lemma HolderFollows(m: State, step: Step, g: nat)
    requires Enabled(m, step) && ByHolder(step) && g in Next(m, step).procs
    ensures g in m.procs && Follows(m.procs[g], Next(m, step).procs[g])
  {
    if step.RecordResult? || step.RecordCallback? {
      RecordingKeepsOutcome(m, step);
    } else if step.Interrupt? || step.Vanish? || (step.Terminate? && step.replied) {
      LeavingDropsProc(m, step);
    } else {
      MarkingKeepsOutcome(m, step);
    }
  }

  /** A goroutine after a step that claims no job is a later stage of itself. */
  lemma StepFollows(m: State, step: Step, g: nat)
    requires Enabled(m, step) && !step.Claim? && g in Next(m, step).procs
    ensures g in m.procs && Follows(m.procs[g], Next(m, step).procs[g])
  {
    if ByHolder(step) {
      HolderFollows(m, step, g);
    } else if FromClient(step) {
      ClientsKeepProcs(m, step);
    } else if !step.Decide? {
      BackgroundKeepsProcs(m, step);
    }
  }

  lemma ClaimFollows(m: State, step: Step, p: D.Payload, g: nat)
    requires Inv(m) && Enabled(m, step) && step.Claim? && Decided(m, p) && g in Next(m, step).procs
    ensures (g in m.procs && Next(m, step).procs[g] == m.procs[g]) || !Rival(Next(m, step).procs[g], p)
  {
    if g == step.g && step.p.jid == p.jid {
      ClaimResumes(m, step, p);
    }
  }

  lemma ThreatWasOne(m: State, step: Step, p: D.Payload, g: nat)
    requires Inv(m) && Enabled(m, step) && Decided(m, p) && g in Next(m, step).procs
    ensures Threat(Next(m, step).forest, Next(m, step).procs[g], p) ==> g in m.procs && Threat(m.forest, m.procs[g], p)
  {
    var n := Next(m, step);
    assert PayloadOk(m, m.d.copies[p.jid].payload);
    StepLasts(m, step, p.jid);
    if Threat(n.forest, n.procs[g], p) {
      if step.Claim? {
        ClaimFollows(m, step, p, g);
      } else {
        StepFollows(m, step, g);
      }
      ThreatIsOld(m.forest, n.forest, m.procs[g], n.procs[g], p);
    }
  }

  lemma NoThreatStays(m: State, step: Step, p: D.Payload)
    requires Inv(m) && Enabled(m, step) && Decided(m, p) && NoThreat(m, p)
    ensures NoThreat(Next(m, step), p)
  {
    forall g | g in Next(m, step).procs
      ensures !Threat(Next(m, step).forest, Next(m, step).procs[g], p)
    {
      ThreatWasOne(m, step, p, g);
    }
  }

  /** A rival that is no threat has been noted by its batch, so its batch script does nothing. */
  lemma HarmlessRivalIsNoted(m: State, pr: Proc, p: D.Payload)
    requires F.AllInv(m.forest) && p.fin.Some? && pr.stage.Finalizing? && Rival(pr, p) && !Threat(m.forest, pr, p)
    ensures L.Noted(m.forest, pr)
  {
  }

  lemma NoThreatNoMiscount(m: State, step: Step, p: D.Payload)
    requires Inv(m) && Enabled(m, step) && p.fin.Some? && NoThreat(m, p)
    ensures !Miscounts(m, step, p)
  {
    if Misrecords(m, step, p) {
      var pr := m.procs[step.g];
      HarmlessRivalIsNoted(m, pr, p);
      L.NotedStays(m, pr);
      L.RecordIsStep(m, step.g, step.replied);
    }
  }

  lemma {:induction false} WithoutThreats(m: State, steps: seq<Step>, p: D.Payload)
    requires Inv(m) && Possible(m, steps) && Decided(m, p) && NoThreat(m, p)
    ensures !EverMiscounts(m, steps, p)
    decreases |steps|
  {
    if steps != [] {
      NoThreatNoMiscount(m, steps[0], p);
      DecidedStep(m, steps[0], p);
      if !CarriesOut(m, steps[0], p) {
        NoThreatStays(m, steps[0], p);
        StepKeepsInv(m, steps[0]);
        WithoutThreats(Next(m, steps[0]), steps[1..], p);
      }
    }
  }

  lemma MiscountsNow(m: State, step: Step, p: D.Payload)
    requires p.fin.Some? && Enabled(m, step) && Miscounts(m, step, p)
    ensures CanMiscount(m, p)
  {
    assert Possible(m, [step]) && EverMiscounts(m, [step], p);
  }

  lemma MiscountsLater(m: State, step: Step, p: D.Payload)
    requires p.fin.Some? && Enabled(m, step) && !step.Terminate? && CanMiscount(Next(m, step), p)
    ensures CanMiscount(m, p)
  {
    var rest: seq<Step> :| Possible(Next(m, step), rest) && EverMiscounts(Next(m, step), rest, p);
    var steps := [step] + rest;
    assert steps[1..] == rest;
    assert Possible(m, steps) && EverMiscounts(m, steps, p);
  }

  /** A batch that counts on a job takes any result for it, but for a failure noted before. */
  lemma ResultIsTaken(b: B.Batch, job: Id, r: B.Result)
    requires job in b.jobs && (B.IsTerminal(r) || (r.Failure? && job !in b.failed))
    ensures B.Complete(b, job, r).0 != b
  {
    var c := B.Complete(b, job, r).0;
    assert c == B.Record(b, job, r);
    assert if B.IsTerminal(r) then job !in c.jobs else job in c.failed;
  }

  lemma ThreatRecords(m: State, g: nat, p: D.Payload)
    requires p.fin.Some? && At(m, g, 0) && Threat(m.forest, m.procs[g], p)
    ensures CanMiscount(m, p)
  {
    var pr := m.procs[g];
    var b, r := pr.raw.batch.value, ResultOf(pr.stage.fin.op);
    ResultIsTaken(m.forest[b], pr.raw.jid, r);
    L.RecordIsStep(m, g, true);
    assert Next(m, RecordResult(g, true)).forest[b] == B.Complete(m.forest[b], pr.raw.jid, r).0;
    MiscountsNow(m, RecordResult(g, true), p);
  }

  lemma DecidingThreat(m: State, g: nat, p: D.Payload)
    requires p.fin.Some? && g in m.procs && m.procs[g].stage.Deciding? && Threat(m.forest, m.procs[g], p)
    ensures CanMiscount(m, p)
  {
    ThreatRecords(Next(m, MarkOutcome(g, true)), g, p);
    MiscountsLater(m, MarkOutcome(g, true), p);
  }

  lemma RunningThreat(m: State, g: nat, p: D.Payload)
    requires p.fin.Some? && g in m.procs && m.procs[g].stage.Running? && Threat(m.forest, m.procs[g], p)
    ensures CanMiscount(m, p)
  {
    var other := D.Finalization(if p.fin.value.op.Finish? then D.Kill else D.Finish, 0, None);
    DecidingThreat(Next(m, Decide(g, other)), g, p);
    MiscountsLater(m, Decide(g, other), p);
  }

  lemma FinalizingThreat(m: State, g: nat, p: D.Payload)
    requires p.fin.Some? && g in m.procs && m.procs[g].stage.Finalizing? && Threat(m.forest, m.procs[g], p)
    ensures CanMiscount(m, p)
  {
    if m.procs[g].stage.done == 0 {
      ThreatRecords(m, g, p);
    } else {
      var n := Next(m, Restart(g));
      if m.procs[g].raw.fin.Some? {
        ThreatRecords(n, g, p);
      } else {
        DecidingThreat(n, g, p);
      }
      MiscountsLater(m, Restart(g), p);
    }
  }

  lemma ThreatCanMiscount(m: State, g: nat, p: D.Payload)
    requires p.fin.Some? && g in m.procs && Threat(m.forest, m.procs[g], p)
    ensures CanMiscount(m, p)
  {
    if m.procs[g].stage.Running? {
      RunningThreat(m, g, p);
    } else if m.procs[g].stage.Deciding? {
      DecidingThreat(m, g, p);
    } else {
      FinalizingThreat(m, g, p);
    }
  }

  /** Until a decided outcome is carried out no batch counts another result for the job, whatever
      anyone does, exactly when no rival is one whose batch still counts on the job and would take
      the rival's result. */
  lemma DecidedIsCounted(m: State, p: D.Payload)
    requires Inv(m) && Decided(m, p)
    ensures NoThreat(m, p) <==> !CanMiscount(m, p)
  {
    if NoThreat(m, p) {
      forall steps: seq<Step> | Possible(m, steps)
        ensures !EverMiscounts(m, steps, p)
      {
        WithoutThreats(m, steps, p);
      }
    } else {
      var g :| g in m.procs && Threat(m.forest, m.procs[g], p);
      ThreatCanMiscount(m, g, p);
    }
  }

  /** So without rivals the batch counts the decided outcome. */
  lemma WithoutRivalsNoMiscount(m: State, p: D.Payload)
    requires Inv(m) && Decided(m, p) && NoRival(m, p)
    ensures !CanMiscount(m, p)
  {
    DecidedIsCounted(m, p);
  }

  // ---------------------------------------------------------------------
  // A run: the batch counts a death for a job that is decided to have succeeded

  const DONE := D.Finalization(D.Finish, 0, None)
  const KILLED := D.Finalization(D.Kill, 0, None)
  const MARKED := Z.MEMBER.(fin := Some(DONE))
  const ZOMBIE := Proc(0, Z.MEMBER, Running)

  ghost const REAPED := Z.CLAIMED.(d := Z.TRACKED.d)

  ghost const CLAIMED_TWICE := REAPED.(
    d := D.State(map[Job(0) := D.Copy(D.InFlight(1), Z.MEMBER)], map[], map[]),
    procs := map[0 := ZOMBIE, 1 := Proc(1, Z.MEMBER, Running)])

  ghost const FINISHING := CLAIMED_TWICE.(procs := map[0 := ZOMBIE, 1 := Proc(1, Z.MEMBER, Deciding(DONE))])

  ghost const SETTLED_ON := FINISHING.(
    d := D.State(map[Job(0) := D.Copy(D.InFlight(1), MARKED)], map[Job(0) := MARKED], map[]),
    procs := map[0 := ZOMBIE, 1 := Proc(1, MARKED, Finalizing(DONE, 0))])

  ghost const CONTESTED := SETTLED_ON.(
    procs := map[0 := Proc(0, Z.MEMBER, Deciding(KILLED)), 1 := Proc(1, MARKED, Finalizing(DONE, 0))])

  ghost const REBUFFED := SETTLED_ON.(
    procs := map[0 := Proc(0, Z.MEMBER, Finalizing(KILLED, 0)), 1 := Proc(1, MARKED, Finalizing(DONE, 0))])

  ghost const MISCOUNTED := SETTLED_ON.(
    forest := map[0 := B.Record(Z.TRACKED.forest[0], Job(0), B.Death)],
    procs := map[0 := Proc(0, Z.MEMBER, Finalizing(KILLED, 1)), 1 := Proc(1, MARKED, Finalizing(DONE, 0))])

  lemma Reaps()
    ensures Enabled(Z.CLAIMED, ReapWorker(0)) && Next(Z.CLAIMED, ReapWorker(0)) == REAPED
  {
    assert D.Reap(Z.CLAIMED.d, 0).copies == REAPED.d.copies;
    assert D.Reap(Z.CLAIMED.d, 0).trust == map[];
  }

  lemma ClaimsAgain()
    ensures Enabled(REAPED, Claim(1, 1, Z.MEMBER)) && Next(REAPED, Claim(1, 1, Z.MEMBER)) == CLAIMED_TWICE
  {
    assert D.Fetch(REAPED.d, 1, Z.MEMBER) == CLAIMED_TWICE.d;
  }

  lemma DecidesToFinish()
    ensures Enabled(CLAIMED_TWICE, Decide(1, DONE)) && Next(CLAIMED_TWICE, Decide(1, DONE)) == FINISHING
  {
    assert Next(CLAIMED_TWICE, Decide(1, DONE)).procs == FINISHING.procs;
  }

  lemma Settles()
    ensures Enabled(FINISHING, MarkOutcome(1, true)) && Next(FINISHING, MarkOutcome(1, true)) == SETTLED_ON
  {
    assert D.Mark(FINISHING.d, 1, Z.MEMBER, DONE) == SETTLED_ON.d;
    assert Next(FINISHING, MarkOutcome(1, true)).procs == SETTLED_ON.procs;
  }

  lemma DecidesToKill()
    ensures Enabled(SETTLED_ON, Decide(0, KILLED)) && Next(SETTLED_ON, Decide(0, KILLED)) == CONTESTED
  {
    assert Next(SETTLED_ON, Decide(0, KILLED)).procs == CONTESTED.procs;
  }

  lemma IsRebuffed()
    ensures Enabled(CONTESTED, MarkOutcome(0, true)) && Next(CONTESTED, MarkOutcome(0, true)) == REBUFFED
  {
    assert D.MarkCode(CONTESTED.d, 0, Z.MEMBER, KILLED) == 0;
    assert Next(CONTESTED, MarkOutcome(0, true)).procs == REBUFFED.procs;
  }

  lemma RecordsDeath()
    ensures RecordIn(REBUFFED, 0, Job(0), B.Death).0 == REBUFFED.(forest := MISCOUNTED.forest)
    ensures RecordIn(REBUFFED, 0, Job(0), B.Death).1 == multiset{}
    ensures MISCOUNTED.forest[0].p.dead && MISCOUNTED.forest[0].hist.deaths == 1 && MISCOUNTED.forest[0].jobs == {}
  {
    var b := REBUFFED.forest[0];
    assert b.jobs == {Job(0)} && b.p.pending == 1;
    assert B.FiredKinds(b, B.Death) == [];
    assert B.CallbackIds(0, 0, 0) == [];
    PushNothing(REBUFFED.d, Z.CFG);
    assert RecordIn(REBUFFED, 0, Job(0), B.Death).0.forest == MISCOUNTED.forest;
  }

  lemma CountsDeath()
    ensures Enabled(REBUFFED, RecordResult(0, true)) && Next(REBUFFED, RecordResult(0, true)) == MISCOUNTED
  {
    RecordsDeath();
    assert Next(REBUFFED, RecordResult(0, true)).procs == MISCOUNTED.procs;
  }

  lemma ClaimedMiscounts()
    ensures Reaches(Z.CLAIMED, MISCOUNTED)
  {
    ReachesItself(MISCOUNTED);
    CountsDeath();
    StepReaches(REBUFFED, RecordResult(0, true), MISCOUNTED, MISCOUNTED);
    IsRebuffed();
    StepReaches(CONTESTED, MarkOutcome(0, true), REBUFFED, MISCOUNTED);
    DecidesToKill();
    StepReaches(SETTLED_ON, Decide(0, KILLED), CONTESTED, MISCOUNTED);
    Settles();
    StepReaches(FINISHING, MarkOutcome(1, true), SETTLED_ON, MISCOUNTED);
    DecidesToFinish();
    StepReaches(CLAIMED_TWICE, Decide(1, DONE), FINISHING, MISCOUNTED);
    ClaimsAgain();
    StepReaches(REAPED, Claim(1, 1, Z.MEMBER), CLAIMED_TWICE, MISCOUNTED);
    Reaps();
    StepReaches(Z.CLAIMED, ReapWorker(0), REAPED, MISCOUNTED);
  }

  /** From the empty system a run leads to a batch that has counted its member dead, while the
      member is decided, and trusted, to have succeeded. */
  lemma RivalCanMiscount()
    ensures Reaches(INIT, MISCOUNTED)
    ensures Decided(MISCOUNTED, MARKED) && MARKED.fin == Some(DONE) && MARKED.batch == Some(0)
    ensures MISCOUNTED.forest[0].p.dead && MISCOUNTED.forest[0].hist.deaths == 1 && MISCOUNTED.forest[0].jobs == {}
  {
    RecordsDeath();
    ClaimedMiscounts();
    Z.Claims();
    StepReaches(Z.TRACKED, Claim(0, 0, Z.MEMBER), Z.CLAIMED, MISCOUNTED);
    Z.Tracks();
    StepReaches(Z.STORED, TrackMembers(0, [Z.MEMBER]), Z.TRACKED, MISCOUNTED);
    Z.Stores();
    StepReaches(INIT, StoreBatch(Z.CFG, 1), Z.STORED, MISCOUNTED);
  }
}
