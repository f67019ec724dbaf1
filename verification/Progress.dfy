/**
  What can still be done, from any state of any run: a job that waits can be taken through its
  delivery, and an outcome that is decided can be carried out, whoever has died meanwhile.
 */
module Progress {
  import opened Ids
  import opened Machine
  import opened Workers
  import opened Outcomes
  import D = Delivery
  import S = Sequential

  /** The goroutine is carrying out the marker of the payload that it holds in flight. */
  ghost predicate Holding(m: State, g: nat, w: WorkerId, p: D.Payload, done: nat) {
    && p.fin.Some? && g in m.procs && m.procs[g] == Proc(w, p, Finalizing(p.fin.value, done))
    && D.At(m.d, D.InFlight(w), p)
  }

  function Last(p: D.Payload): nat
    requires p.fin.Some?
  {
    if p.fin.value.op.Retry? then 1 else 2
  }

  /** The payload that a delivery of p leaves behind. */
  function Left(p: D.Payload): D.Payload
    requires p.fin.Some?
  {
    p.(fin := None, retryCount := p.retryCount + if p.fin.value.op.Retry? then 1 else 0)
  }

  /** Some run from m carries the outcome out. */
  ghost predicate CanBeCarriedOut(m: State, p: D.Payload)
    requires p.fin.Some?
  {
    exists steps: seq<Step> :: Possible(m, steps) && CarriedOut(Run(m, steps).d, p)
  }

  lemma CarriedOutNow(m: State, p: D.Payload)
    requires p.fin.Some? && CarriedOut(m.d, p)
    ensures CanBeCarriedOut(m, p)
  {
    assert Run(m, []) == m;
  }

  lemma CarriedOutLater(m: State, step: Step, n: State, p: D.Payload)
    requires p.fin.Some? && Enabled(m, step) && Next(m, step) == n && CanBeCarriedOut(n, p)
    ensures CanBeCarriedOut(m, p)
  {
    var rest: seq<Step> :| Possible(n, rest) && CarriedOut(Run(n, rest).d, p);
    var steps := [step] + rest;
    assert steps[1..] == rest;
    assert Run(m, steps) == Run(n, rest);
  }

  // ---------------------------------------------------------------------
  // The scripts of the finalizer

  lemma ResultAdvances(m: State, g: nat, w: WorkerId, p: D.Payload)
    requires Inv(m) && Holding(m, g, w, p, 0)
    ensures Enabled(m, RecordResult(g, true)) && Holding(Next(m, RecordResult(g, true)), g, w, p, 1)
  {
    var step := RecordResult(g, true);
    ResultAppends(m, step);
    if p.batch.Some? {
      ScriptsKeepProcs(m, p.batch.value, p.jid, ResultOf(p.fin.value.op));
    }
  }

  lemma CallbackAdvances(m: State, g: nat, w: WorkerId, p: D.Payload)
    requires Holding(m, g, w, p, 1) && !p.fin.value.op.Retry?
    ensures Enabled(m, RecordCallback(g, true)) && Holding(Next(m, RecordCallback(g, true)), g, w, p, 2)
  {
    if p.callbackOf.Some? {
      ScriptsKeepProcs(m, p.callbackOf.value, p.jid, ResultOf(p.fin.value.op));
    }
    LocalAppends(m, RecordCallback(g, true));
  }

  lemma EndCarriesOut(m: State, g: nat, w: WorkerId, p: D.Payload)
    requires Inv(m) && p.fin.Some? && Holding(m, g, w, p, Last(p))
    ensures CanBeCarriedOut(m, p)
  {
    var step := Terminate(g, Left(p), 0, true);
    EndLands(m, step);
    CarriedOutNow(Next(m, step), p);
    CarriedOutLater(m, step, Next(m, step), p);
  }

  /** A goroutine with a marked job in flight carries the outcome out, if nobody disturbs it. */
  lemma HolderCarriesOut(m: State, g: nat, w: WorkerId, p: D.Payload)
    requires Inv(m) && Holding(m, g, w, p, 0)
    ensures CanBeCarriedOut(m, p)
  {
    ResultAdvances(m, g, w, p);
    StepKeepsInv(m, RecordResult(g, true));
    var n := Next(m, RecordResult(g, true));
    if p.fin.value.op.Retry? {
      EndCarriesOut(n, g, w, p);
    } else {
      CallbackAdvances(n, g, w, p);
      StepKeepsInv(n, RecordCallback(g, true));
      EndCarriesOut(Next(n, RecordCallback(g, true)), g, w, p);
      CarriedOutLater(n, RecordCallback(g, true), Next(n, RecordCallback(g, true)), p);
    }
    CarriedOutLater(m, RecordResult(g, true), n, p);
  }

  // ---------------------------------------------------------------------
  // From any state

  lemma ClaimHolds(m: State, g: nat, w: WorkerId, p: D.Payload)
    requires Inv(m) && g !in m.procs && p.fin.Some? && D.At(m.d, D.Queue(p.queue), p)
    ensures Enabled(m, Claim(g, w, p)) && Holding(Next(m, Claim(g, w, p)), g, w, p, 0)
  {
    D.FetchDeliversAsIs(m.d, p);
  }

  lemma QueuedIsCarriedOut(m: State, p: D.Payload)
    requires Inv(m) && p.fin.Some? && D.At(m.d, D.Queue(p.queue), p)
    ensures CanBeCarriedOut(m, p)
  {
    var g := S.SomeFresh(m.procs.Keys);
    ClaimHolds(m, g, 0, p);
    StepKeepsInv(m, Claim(g, 0, p));
    HolderCarriesOut(Next(m, Claim(g, 0, p)), g, 0, p);
    CarriedOutLater(m, Claim(g, 0, p), Next(m, Claim(g, 0, p)), p);
  }

  lemma Reaped(m: State, w: WorkerId, p: D.Payload)
    requires Inv(m) && D.At(m.d, D.InFlight(w), p)
    ensures D.At(Next(m, ReapWorker(w)).d, D.Queue(p.queue), p)
  {
    D.ReapReturnsAll(m.d, w, D.InFlight(w), p);
  }

  lemma Promoted(m: State, place: D.Place, p: D.Payload)
    requires Inv(m) && D.At(m.d, place, p) && (place.Retrying? || place.Scheduled?)
    ensures D.At(Next(m, PromoteDue({p.jid}, place.at)).d, D.Queue(p.queue), p)
  {
    D.PromoteMovesDue(m.d, {p.jid}, place.at, place, p);
  }

  /** Reaping its worker, or promoting it at its time, brings a job back to its queue. */
  lemma BackToQueue(m: State, place: D.Place, p: D.Payload) returns (step: Step)
    requires Inv(m) && D.At(m.d, place, p) && (place.InFlight? || place.Retrying? || place.Scheduled?)
    ensures Enabled(m, step) && Inv(Next(m, step)) && D.At(Next(m, step).d, D.Queue(p.queue), p)
  {
    if place.InFlight? {
      step := ReapWorker(place.w);
      Reaped(m, place.w, p);
    } else {
      step := PromoteDue({p.jid}, place.at);
      Promoted(m, place, p);
    }
    StepKeepsInv(m, step);
  }

  /** A decided outcome can always be carried out: if its goroutine is gone, the reaper returns the job and
      another goroutine resumes the outcome. */
  lemma DecidedCanBeCarriedOut(m: State, p: D.Payload)
    requires Inv(m) && Decided(m, p)
    ensures CanBeCarriedOut(m, p)
  {
    assert D.CopyOk(m.d, p.jid);
    var place := m.d.copies[p.jid].place;
    if place.Queue? {
      QueuedIsCarriedOut(m, p);
    } else {
      var step := BackToQueue(m, place, p);
      QueuedIsCarriedOut(Next(m, step), p);
      CarriedOutLater(m, step, Next(m, step), p);
    }
  }

  /** A goroutine's mark that is answered leaves it holding the marked job in flight. */
  lemma MarkHolds(m: State, g: nat, w: WorkerId, p: D.Payload, fin: D.Finalization)
    requires Inv(m) && p.fin.None? && g in m.procs && m.procs[g] == Proc(w, p, Deciding(fin))
    requires D.At(m.d, D.InFlight(w), p)
    ensures Holding(Next(m, MarkOutcome(g, true)), g, w, D.Marked(p, fin), 0)
  {
    D.MarkIsExact(m.d, w, p, fin);
  }

  /** A waiting job can be taken through its delivery to whatever its handler decides. */
  lemma WaitingJobCanEnd(m: State, p: D.Payload, fin: D.Finalization)
    requires Inv(m) && p.fin.None? && D.At(m.d, D.Queue(p.queue), p)
    ensures CanBeCarriedOut(m, D.Marked(p, fin))
  {
    var g := S.SomeFresh(m.procs.Keys);
    var q := D.Marked(p, fin);
    var m1 := Next(m, Claim(g, 0, p));
    ClaimRuns(m, Claim(g, 0, p));
    StepKeepsInv(m, Claim(g, 0, p));
    var m2 := Next(m1, Decide(g, fin));
    StepKeepsInv(m1, Decide(g, fin));
    MarkHolds(m2, g, 0, p, fin);
    StepKeepsInv(m2, MarkOutcome(g, true));
    HolderCarriesOut(Next(m2, MarkOutcome(g, true)), g, 0, q);
    CarriedOutLater(m2, MarkOutcome(g, true), Next(m2, MarkOutcome(g, true)), q);
    CarriedOutLater(m1, Decide(g, fin), m2, q);
    CarriedOutLater(m, Claim(g, 0, p), m1, q);
  }

  /** And so can every live job, wherever it is. */
  lemma LiveJobCanEnd(m: State, place: D.Place, p: D.Payload, fin: D.Finalization)
    requires Inv(m) && p.fin.None? && D.At(m.d, place, p) && D.Live(place)
    ensures CanBeCarriedOut(m, D.Marked(p, fin))
  {
    assert D.CopyOk(m.d, p.jid);
    if place.Queue? {
      WaitingJobCanEnd(m, p, fin);
    } else {
      var step := BackToQueue(m, place, p);
      WaitingJobCanEnd(Next(m, step), p, fin);
      CarriedOutLater(m, step, Next(m, step), D.Marked(p, fin));
    }
  }
}
