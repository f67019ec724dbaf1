/**
  First outcome wins: once a job carries a finalization marker, every later
  delivery resumes that outcome, and nobody can replace it in the delivery keys.
  What a late goroutine can still do to the job's batch is the subject of Rivals.
 */
module Outcomes {
  import opened Ids
  import opened Machine
  import opened Workers
  import B = Batches
  import D = Delivery
  import F = Forests
  import U = UniqueKeys

  /** The job's one copy is p, marked, trusted, and still to be delivered or finished. */
  ghost predicate Decided(m: State, p: D.Payload) {
    && p.fin.Some? && p.jid in m.d.copies && m.d.copies[p.jid].payload == p
    && D.Deliverable(m.d.copies[p.jid].place) && D.Trusted(m.d, p)
  }

  /** What the marker asked for has happened to the job. */
  ghost predicate CarriedOut(d: D.State, p: D.Payload)
    requires p.fin.Some?
  {
    match p.fin.value.op
    case Finish => p.jid !in d.copies
    case Kill => p.jid in d.copies && d.copies[p.jid].place.Dead?
    case Retry =>
      if p.fin.value.retryAt.None? then p.jid !in d.copies
      else
        && p.jid in d.copies && d.copies[p.jid].place == D.Retrying(p.fin.value.retryAt.value)
        && d.copies[p.jid].payload.retryCount == p.retryCount + 1
  }

  ghost predicate CarriesOut(m: State, step: Step, p: D.Payload)
    requires Enabled(m, step) && p.fin.Some?
  {
    && step.Terminate? && m.procs[step.g].raw == p && m.procs[step.g].stage.fin == p.fin.value
    && CarriedOut(Next(m, step).d, p)
  }

  /** The delivery script behind a machine step, if it has one. */
  function Script(m: State, step: Step): Option<D.Step> {
    match step
    case Claim(g, w, p) => Some(D.DoFetch(w, p))
    case MarkOutcome(g, _) =>
      if g in m.procs && m.procs[g].stage.Deciding?
      then Some(D.DoMark(m.procs[g].w, m.procs[g].raw, m.procs[g].stage.fin)) else None
    case Terminate(g, next, now, _) =>
      if g in m.procs && m.procs[g].stage.Finalizing? then Some(TerminalStep(m.procs[g], next, now)) else None
    case Interrupt(g, next) => if g in m.procs then Some(D.DoRequeue(m.procs[g].w, m.procs[g].raw, next)) else None
    case ReapWorker(_) => Some(BackgroundStep(step))
    case PromoteDue(_, _) => Some(BackgroundStep(step))
    case ExpireKey(_) => Some(BackgroundStep(step))
    case _ => None
  }

  lemma ScriptIsStep(m: State, step: Step)
    requires Inv(m) && Enabled(m, step) && Script(m, step).Some?
    ensures D.Enabled(m.d, Script(m, step).value) && Next(m, step).d == D.Next(m.d, Script(m, step).value)
  {
    if step.MarkOutcome? || step.Interrupt? {
      assert ProcOk(m, m.procs[step.g]);
    }
  }

  /** From m's copies to e, jobs with unknown ids and no marker were added, and nothing else changed. */
  ghost predicate Appends(m: State, e: D.State) {
    && e.trust == m.d.trust
    && (forall id :: id in m.d.copies ==> id in e.copies && e.copies[id] == m.d.copies[id])
    && (forall id :: id in e.copies && id !in m.d.copies ==> e.copies[id].payload.fin.None? && !Born(m, id))
  }

  lemma CallbacksAppend(m: State, b: BatchId, cfg: B.Config, enqueued: seq<Id>)
    requires CopiesOk(m) && b in m.forest
    requires enqueued == B.CallbackIds(b, m.forest[b].p.callbackSeq, |enqueued|)
    ensures Appends(m, PushCallbacks(m.d, cfg, enqueued))
  {
    forall id | id in enqueued
      ensures id !in m.d.copies && !Born(m, id)
    {
      FreshCallbacks(m, b, |enqueued|, id);
    }
  }

  lemma RecordAppends(m: State, b: BatchId, job: Id, r: B.Result)
    requires F.AllInv(m.forest) && CopiesOk(m)
    ensures Appends(m, RecordIn(m, b, job, r).0.d) && RecordIn(m, b, job, r).0.procs == m.procs
  {
    if b in m.forest {
      CompleteShape(m.forest[b], job, r);
      CallbacksAppend(m, b, m.forest[b].cfg, Enqueued(B.Complete(m.forest[b], job, r).1));
    }
  }

  lemma MembersAppend(m: State, b: BatchId, ps: seq<D.Payload>)
    requires CopiesOk(m) && NewMembers(m, b, ps)
    ensures Appends(m, PushMembers(m.d, ps))
  {
    forall p | p in ps
      ensures p.jid !in m.d.copies
    {
      assert p.jid in m.d.copies ==> PayloadOk(m, m.d.copies[p.jid].payload);
    }
  }

  lemma SubmitAppends(m: State, place: D.Place, p: D.Payload)
    requires CopiesOk(m) && p.jid.Job? && p.jid.n !in m.born && p.fin.None?
    ensures Appends(m, D.Enqueue(m.d, place, p))
  {
    assert p.jid in m.d.copies ==> PayloadOk(m, m.d.copies[p.jid].payload);
    var e := D.Enqueue(m.d, place, p);
    assert e == m.d || e.copies == m.d.copies[p.jid := D.Copy(place, p)];
  }

  lemma JobsAppend(m: State, step: Step)
    requires Inv(m) && Enabled(m, step) && (step.Submit? || step.TrackMembers? || step.AddMembers?)
    ensures Appends(m, Next(m, step).d)
  {
    if step.Submit? {
      SubmitAppends(m, step.place, step.p);
    } else {
      MembersAppend(m, step.b, step.ps);
    }
  }

  lemma ResultAppends(m: State, step: Step)
    requires Inv(m) && Enabled(m, step) && step.RecordResult?
    ensures Appends(m, Next(m, step).d)
  {
    var pr := m.procs[step.g];
    if pr.raw.batch.Some? {
      RecordAppends(m, pr.raw.batch.value, pr.raw.jid, ResultOf(pr.stage.fin.op));
    }
  }

  lemma EmptyAppends(m: State, b: BatchId)
    requires Inv(m) && b in m.forest
    ensures Appends(m, Next(m, FinishEmpty(b)).d)
  {
    RecordAppends(m, b, Child(b), B.EmptySuccess);
  }

  lemma ReportAppends(m: State, sig: Signal)
    requires Inv(m) && sig in m.signals
    ensures Appends(m, Next(m, DeliverSignal(sig)).d)
  {
    RecordAppends(m, sig.parent, Child(sig.child), sig.result);
    assert RecordIn(m.(signals := m.signals - multiset{sig}), sig.parent, Child(sig.child), sig.result).0.d
        == RecordIn(m, sig.parent, Child(sig.child), sig.result).0.d;
  }

  lemma SignalAppends(m: State, step: Step)
    requires Inv(m) && Enabled(m, step) && (step.FinishEmpty? || step.DeliverSignal?)
    ensures Appends(m, Next(m, step).d)
  {
    if step.FinishEmpty? {
      EmptyAppends(m, step.b);
    } else {
      ReportAppends(m, step.sig);
    }
  }

  predicate Quiet(step: Step) {
    step.StoreBatch? || step.LinkChild? || step.UnlinkChild? || step.InvalidateBatch? || step.LoseSignal?
  }

  lemma QuietAppends(m: State, step: Step)
    requires Enabled(m, step) && Quiet(step)
    ensures Appends(m, Next(m, step).d)
  {
    assert Next(m, step).d == m.d;
  }

  lemma LocalAppends(m: State, step: Step)
    requires Enabled(m, step) && (step.Decide? || step.RecordCallback? || step.Restart? || step.Vanish?)
    ensures Appends(m, Next(m, step).d)
  {
    assert Next(m, step).d == m.d;
  }

  /** Steps without a delivery script touch no copy. */
  lemma OthersAppend(m: State, step: Step)
    requires Inv(m) && Enabled(m, step) && Script(m, step).None?
    ensures Appends(m, Next(m, step).d)
  {
    if Quiet(step) {
      QuietAppends(m, step);
    } else if step.Decide? || step.RecordCallback? || step.Restart? || step.Vanish? {
      LocalAppends(m, step);
    } else if step.RecordResult? {
      ResultAppends(m, step);
    } else if step.FinishEmpty? || step.DeliverSignal? {
      SignalAppends(m, step);
    } else {
      JobsAppend(m, step);
    }
  }

  /** A decided job stays decided until exactly its outcome is carried out. */
  lemma DecidedAppended(m: State, n: State, p: D.Payload)
    requires Decided(m, p) && Appends(m, n.d)
    ensures Decided(n, p)
  {
  }

  /** A script that ends the decided copy is the one that carries the outcome out. */
  lemma DecidedEnds(m: State, step: Step, p: D.Payload)
    requires Inv(m) && Enabled(m, step) && Decided(m, p) && Script(m, step).Some?
    requires Next(m, step).d == D.Next(m.d, Script(m, step).value)
    requires var script := Script(m, step).value;
      (script.DoAck? || script.DoRetry? || script.DoBury?) && script.p == p && D.At(m.d, D.InFlight(script.w), p)
    ensures CarriesOut(m, step, p)
  {
    assert ProcOk(m, m.procs[step.g]);
  }

  lemma DecidedStep(m: State, step: Step, p: D.Payload)
    requires Inv(m) && Enabled(m, step) && Decided(m, p)
    ensures Decided(Next(m, step), p) || CarriesOut(m, step, p)
  {
    var script := Script(m, step);
    if script.None? {
      OthersAppend(m, step);
      DecidedAppended(m, Next(m, step), p);
    } else {
      ScriptIsStep(m, step);
      D.FinalizedStays(m.d, script.value, p);
      if !Decided(Next(m, step), p) {
        DecidedEnds(m, step, p);
      }
    }
  }

  ghost predicate EverCarriedOut(m: State, steps: seq<Step>, p: D.Payload)
    requires Possible(m, steps) && p.fin.Some?
    decreases |steps|
  {
    steps != [] && (CarriesOut(m, steps[0], p) || EverCarriedOut(Next(m, steps[0]), steps[1..], p))
  }

  /** Over every run, through crashes, lost replies, reaping and redelivery, the
      first recorded outcome is kept until it is carried out. */
  lemma {:induction false} FirstOutcomeWins(m: State, steps: seq<Step>, p: D.Payload)
    requires Inv(m) && Possible(m, steps) && Decided(m, p)
    ensures EverCarriedOut(m, steps, p) || Decided(Run(m, steps), p)
    decreases |steps|
  {
    if steps != [] {
      DecidedStep(m, steps[0], p);
      if !CarriesOut(m, steps[0], p) {
        StepKeepsInv(m, steps[0]);
        FirstOutcomeWins(Next(m, steps[0]), steps[1..], p);
      }
    }
  }

  /** A mark whose reply is 1 or 2 decides the job. */
  lemma MarkDecides(m: State, step: Step)
    requires Inv(m) && Enabled(m, step) && step.MarkOutcome?
    requires var pr := m.procs[step.g]; D.MarkCode(m.d, pr.w, pr.raw, pr.stage.fin) != 0
    ensures var pr := m.procs[step.g]; Decided(Next(m, step), D.Marked(pr.raw, pr.stage.fin))
  {
    var pr := m.procs[step.g];
    assert ProcOk(m, pr);
    D.MarkWins(m.d, pr.w, pr.raw, pr.stage.fin);
  }

  /** A goroutine's mark leaves its outcome decided exactly if it was decided before or the job has not moved
      on: the payload that the goroutine holds is in flight at its worker or back in its queue. */
  lemma MarkDecidesExactly(m: State, step: Step)
    requires Inv(m) && Enabled(m, step) && step.MarkOutcome?
    ensures var pr := m.procs[step.g]; var marked := D.Marked(pr.raw, pr.stage.fin);
      Decided(Next(m, step), marked) <==> D.InReach(m.d, pr.w, pr.raw) || Decided(m, marked)
  {
    var pr := m.procs[step.g];
    var marked := D.Marked(pr.raw, pr.stage.fin);
    assert ProcOk(m, pr);
    D.MarkIsExact(m.d, pr.w, pr.raw, pr.stage.fin);
    if D.MarkCode(m.d, pr.w, pr.raw, pr.stage.fin) != 0 {
      MarkDecides(m, step);
      assert D.TrustOk(m.d, pr.raw.jid);
      assert D.InReach(m.d, pr.w, marked) ==> Decided(m, marked);
    } else {
      assert Next(m, step).d == m.d;
    }
  }

  /** Any goroutine that claims a decided job resumes its outcome; the handler does not run again. */
  lemma ClaimResumes(m: State, step: Step, p: D.Payload)
    requires Inv(m) && Enabled(m, step) && step.Claim? && Decided(m, p) && step.p.jid == p.jid
    ensures Next(m, step).procs[step.g] == Proc(step.w, p, Finalizing(p.fin.value, 0))
  {
    D.FetchDeliversAsIs(m.d, step.p);
  }

  /** Any goroutine that claims a job without an outcome runs its handler. */
  lemma ClaimRuns(m: State, step: Step)
    requires Enabled(m, step) && step.Claim? && step.p.fin.None?
    ensures Next(m, step).procs[step.g] == Proc(step.w, step.p, Running)
    ensures D.At(Next(m, step).d, D.InFlight(step.w), step.p)
  {
  }

  /** Where the end of a delivery leaves the job: gone, in the dead set, or in the retry set for its time. */
  lemma EndLands(m: State, step: Step)
    requires Inv(m) && Enabled(m, step) && step.Terminate?
    requires var pr := m.procs[step.g]; D.At(m.d, D.InFlight(pr.w), pr.raw)
    ensures var pr, d := m.procs[step.g], Next(m, step).d;
      match pr.stage.fin.op
      case Finish => pr.raw.jid !in d.copies
      case Kill => D.At(d, D.Dead(step.now), step.next)
      case Retry =>
        if pr.stage.fin.retryAt.Some? then D.At(d, D.Retrying(pr.stage.fin.retryAt.value), step.next)
        else pr.raw.jid !in d.copies
  {
  }

  /** A goroutine that ends its job frees the job's unique key, be the job done or dead; a retry keeps it. */
  lemma EndFreesKey(m: State, step: Step)
    requires Inv(m) && Enabled(m, step) && step.Terminate?
    requires var pr := m.procs[step.g]; D.At(m.d, D.InFlight(pr.w), pr.raw) && U.HoldsOwnKey(m.d, pr.raw)
    ensures var pr := m.procs[step.g];
      pr.raw.uniqueKey.value in Next(m, step).d.unique <==> pr.stage.fin.op.Retry?
  {
  }

  /** The goroutine behind a step that writes delivery keys for a job it already holds. */
  predicate ActsFor(m: State, step: Step, pr: Proc) {
    (step.MarkOutcome? || step.Terminate? || step.Interrupt?) && step.g in m.procs && m.procs[step.g] == pr
  }

  lemma LosingMark(m: State, step: Step, p: D.Payload)
    requires D.Inv(m.d) && Enabled(m, step) && Decided(m, p) && step.MarkOutcome?
    requires var pr := m.procs[step.g]; pr.raw.jid == p.jid && pr.raw.fin.None? && pr.stage.fin != p.fin.value
    ensures Next(m, step).d == m.d
  {
    var pr := m.procs[step.g];
    D.CompetingMarkLoses(m.d, pr.w, pr.raw, pr.stage.fin, p.fin.value);
  }

  /** Terminal scripts and requeues do nothing for a payload that is not in flight. */
  lemma GoneIsNothing(d: D.State, pr: Proc, next: D.Payload, now: int)
    requires !D.At(d, D.InFlight(pr.w), pr.raw) && pr.stage.Finalizing?
    ensures D.Next(d, TerminalStep(pr, next, now)) == d
  {
  }

  lemma NotHeld(m: State, p: D.Payload, w: WorkerId, raw: D.Payload)
    requires Decided(m, p) && raw.jid == p.jid && raw.fin.None?
    ensures !D.At(m.d, D.InFlight(w), raw)
  {
  }

  lemma LosingEnd(m: State, step: Step, p: D.Payload)
    requires Enabled(m, step) && Decided(m, p) && (step.Terminate? || step.Interrupt?)
    requires m.procs[step.g].raw.jid == p.jid && m.procs[step.g].raw.fin.None?
    ensures Next(m, step).d == m.d
  {
    var pr := m.procs[step.g];
    NotHeld(m, p, pr.w, pr.raw);
    if step.Terminate? {
      GoneIsNothing(m.d, pr, step.next, step.now);
    }
  }

  /** A goroutine that holds the job unmarked and wants another outcome changes no delivery key. */
  lemma LoserChangesNothing(m: State, step: Step, pr: Proc, p: D.Payload)
    requires Inv(m) && Enabled(m, step) && Decided(m, p) && ActsFor(m, step, pr)
    requires pr.raw.jid == p.jid && pr.raw.fin.None? && (pr.stage.Deciding? ==> pr.stage.fin != p.fin.value)
    ensures Next(m, step).d == m.d
  {
    if step.MarkOutcome? {
      LosingMark(m, step, p);
    } else {
      LosingEnd(m, step, p);
    }
  }

  // ---------------------------------------------------------------------
  // Handlers that never ask for a zero-delay retry cause no harm

  predicate Timed(f: D.Finalization) {
    f.op.Retry? ==> f.retryAt.Some?
  }

  ghost predicate TimedCopies(m: State) {
    forall id :: id in m.d.copies && m.d.copies[id].payload.fin.Some? ==> Timed(m.d.copies[id].payload.fin.value)
  }

  ghost predicate TimedProcs(m: State) {
    forall g :: g in m.procs ==>
      && (m.procs[g].raw.fin.Some? ==> Timed(m.procs[g].raw.fin.value))
      && (!m.procs[g].stage.Running? ==> Timed(m.procs[g].stage.fin))
  }

  ghost predicate TimedSteps(steps: seq<Step>) {
    forall i :: 0 <= i < |steps| && steps[i].Decide? ==> Timed(steps[i].fin)
  }

  /** The mark that a step makes, if it makes one, is timed. */
  lemma TimedMark(m: State, step: Step)
    requires TimedProcs(m) && Script(m, step).Some?
    ensures !Script(m, step).value.DoEnqueue?
    ensures Script(m, step).value.DoMark? ==> Timed(Script(m, step).value.f)
  {
  }

  lemma TimedDelivery(d: D.State, step: D.Step, id: Id)
    requires D.Inv(d) && D.Enabled(d, step) && !step.DoEnqueue? && (step.DoMark? ==> Timed(step.f))
    requires forall i :: i in d.copies && d.copies[i].payload.fin.Some? ==> Timed(d.copies[i].payload.fin.value)
    requires id in D.Next(d, step).copies && D.Next(d, step).copies[id].payload.fin.Some?
    ensures Timed(D.Next(d, step).copies[id].payload.fin.value)
  {
    D.MarkersComeFromMarks(d, step, id);
  }

  lemma TimedByScript(m: State, step: Step, id: Id)
    requires Inv(m) && Enabled(m, step) && Script(m, step).Some? && TimedCopies(m) && TimedProcs(m)
    requires id in Next(m, step).d.copies && Next(m, step).d.copies[id].payload.fin.Some?
    ensures Timed(Next(m, step).d.copies[id].payload.fin.value)
  {
    ScriptIsStep(m, step);
    TimedMark(m, step);
    TimedDelivery(m.d, Script(m, step).value, id);
  }

  lemma TimedCopiesStep(m: State, step: Step)
    requires Inv(m) && Enabled(m, step) && TimedCopies(m) && TimedProcs(m)
    ensures TimedCopies(Next(m, step))
  {
    var n := Next(m, step);
    if Script(m, step).Some? {
      forall id | id in n.d.copies && n.d.copies[id].payload.fin.Some?
        ensures Timed(n.d.copies[id].payload.fin.value)
      {
        TimedByScript(m, step, id);
      }
    } else {
      OthersAppend(m, step);
    }
  }

  /** Steps of no goroutine leave the goroutines alone. */
  lemma ClientsKeepProcs(m: State, step: Step)
    requires Enabled(m, step) && FromClient(step)
    ensures Next(m, step).procs == m.procs
  {
  }

  lemma EmptyKeepsProcs(m: State, b: BatchId)
    requires b in m.forest
    ensures Next(m, FinishEmpty(b)).procs == m.procs
  {
    ScriptsKeepProcs(m, b, Child(b), B.EmptySuccess);
  }

  lemma ReportKeepsProcs(m: State, sig: Signal)
    requires sig in m.signals
    ensures Next(m, DeliverSignal(sig)).procs == m.procs
  {
    var m0 := m.(signals := m.signals - multiset{sig});
    ScriptsKeepProcs(m0, sig.parent, Child(sig.child), sig.result);
    assert Next(m, DeliverSignal(sig)).procs == RecordIn(m0, sig.parent, Child(sig.child), sig.result).0.procs;
  }

  lemma BackgroundKeepsProcs(m: State, step: Step)
    requires Enabled(m, step) && (Background(step) || step.FinishEmpty? || step.DeliverSignal? || step.LoseSignal?)
    ensures Next(m, step).procs == m.procs
  {
    if step.FinishEmpty? {
      EmptyKeepsProcs(m, step.b);
    } else if step.DeliverSignal? {
      ReportKeepsProcs(m, step.sig);
    }
  }

  /** Recording a result or callback leaves the goroutines alone. */
  lemma ScriptsKeepProcs(m: State, b: BatchId, job: Id, r: B.Result)
    ensures RecordIn(m, b, job, r).0.procs == m.procs && RetireIn(m, b, job).0.procs == m.procs
  {
  }

  /** A goroutine that has settled on an outcome keeps it. */
  ghost predicate SameOutcome(pr: Proc, qr: Proc) {
    && !pr.stage.Running? && !qr.stage.Running? && qr.stage.fin == pr.stage.fin
    && (qr.raw == pr.raw || qr.raw == D.Marked(pr.raw, pr.stage.fin))
  }

  lemma RecordingKeepsOutcome(m: State, step: Step)
    requires Enabled(m, step) && (step.RecordResult? || step.RecordCallback?)
    ensures exists qr :: SameOutcome(m.procs[step.g], qr) && Next(m, step).procs == m.procs[step.g := qr]
  {
    var pr := m.procs[step.g];
    var qr := Advanced(pr, step.replied);
    if step.RecordResult? && pr.raw.batch.Some? {
      ScriptsKeepProcs(m, pr.raw.batch.value, pr.raw.jid, ResultOf(pr.stage.fin.op));
    }
    if step.RecordCallback? && pr.raw.callbackOf.Some? {
      ScriptsKeepProcs(m, pr.raw.callbackOf.value, pr.raw.jid, B.Success);
    }
    assert SameOutcome(pr, qr) && Next(m, step).procs == m.procs[step.g := qr];
  }

  lemma MarkingKeepsOutcome(m: State, step: Step)
    requires Enabled(m, step) && (step.MarkOutcome? || step.Restart? || (step.Terminate? && !step.replied))
    ensures exists qr :: SameOutcome(m.procs[step.g], qr) && Next(m, step).procs == m.procs[step.g := qr]
  {
    var pr := m.procs[step.g];
    var qr := if step.MarkOutcome? then AfterMark(m.d, pr, step.replied) else Again(pr);
    assert SameOutcome(pr, qr) && Next(m, step).procs == m.procs[step.g := qr];
  }

  lemma LeavingDropsProc(m: State, step: Step)
    requires Enabled(m, step) && (step.Interrupt? || step.Vanish? || (step.Terminate? && step.replied))
    ensures Next(m, step).procs == m.procs - {step.g}
  {
  }

  lemma TimedClaim(m: State, step: Step)
    requires Inv(m) && Enabled(m, step) && TimedCopies(m) && TimedProcs(m)
    requires step.Claim? || (step.Decide? && Timed(step.fin))
    ensures TimedProcs(Next(m, step))
  {
    if step.Claim? {
      D.FetchDeliversAsIs(m.d, step.p);
      assert m.d.copies[step.p.jid].payload == step.p;
    }
  }

  predicate ByHolder(step: Step) {
    step.MarkOutcome? || step.RecordResult? || step.RecordCallback? || step.Terminate? || step.Interrupt?
    || step.Restart? || step.Vanish?
  }

  lemma TimedHolder(m: State, step: Step)
    requires Enabled(m, step) && TimedProcs(m) && ByHolder(step)
    ensures TimedProcs(Next(m, step))
  {
    if step.RecordResult? || step.RecordCallback? {
      RecordingKeepsOutcome(m, step);
    } else if step.Interrupt? || step.Vanish? || (step.Terminate? && step.replied) {
      LeavingDropsProc(m, step);
    } else {
      MarkingKeepsOutcome(m, step);
    }
  }

  lemma TimedProcsStep(m: State, step: Step)
    requires Inv(m) && Enabled(m, step) && TimedCopies(m) && TimedProcs(m) && (step.Decide? ==> Timed(step.fin))
    ensures TimedProcs(Next(m, step))
  {
    if step.Claim? || step.Decide? {
      TimedClaim(m, step);
    } else if ByHolder(step) {
      TimedHolder(m, step);
    } else if FromClient(step) {
      ClientsKeepProcs(m, step);
    } else {
      BackgroundKeepsProcs(m, step);
    }
  }

  lemma {:induction false} TimedRunsAreHarmless(m: State, steps: seq<Step>)
    requires Inv(m) && Possible(m, steps) && TimedSteps(steps) && TimedCopies(m) && TimedProcs(m)
    ensures AllHarmless(m, steps)
    decreases |steps|
  {
    if steps != [] {
      assert Harmless(m, steps[0]);
      StepKeepsInv(m, steps[0]);
      TimedCopiesStep(m, steps[0]);
      TimedProcsStep(m, steps[0]);
      TimedRunsAreHarmless(Next(m, steps[0]), steps[1..]);
    }
  }
}
