/**
  What a batch learns of its members and a parent of its children: how a job ended is what its
  batch counts, a settled batch reports what became of it, and its parent takes that over.
 */
module Reports {
  import opened Ids
  import opened Machine
  import opened Workers
  import opened Links
  import A = BatchAccounts
  import B = Batches
  import BI = BatchInvariants
  import D = Delivery
  import F = Forests

  // ---------------------------------------------------------------------
  // What is reported

  /** The result names what became of the batch. */
  predicate Names(r: B.Result, b: B.Batch) {
    && (r.Death? <==> b.p.dead)
    && (r.Invalidated? <==> !b.p.dead && b.p.invalidated)
    && (r.Success? <==> !b.p.dead && !b.p.invalidated)
  }

  /** A settled batch reports a death exactly if a member died while it was not invalidated, an
      invalidation exactly if none did and it was invalidated, and else a success of all its members. */
  lemma ReportIsTrue(cfg: B.Config, members: nat, steps: seq<BI.Step>)
    requires BI.Possible(B.NewBatch(cfg, members), steps) && B.Settled(BI.Run(B.NewBatch(cfg, members), steps))
    ensures var b0 := B.NewBatch(cfg, members); var c := BI.Run(b0, steps);
      var r := F.ParentResult(c.p.dead, c.p.invalidated);
      && (r == B.Death <==> A.Died(b0, steps))
      && (r == B.Invalidated <==> !A.Died(b0, steps) && A.Spoilt(b0, steps))
      && (r == B.Success <==> !A.Died(b0, steps) && !A.Spoilt(b0, steps))
      && (r == B.Success ==> A.Ended(b0, steps, B.Success) == c.p.total)
  {
    A.LifeIsAccount(cfg, members, steps);
    BI.ReachableInv(cfg, members, steps);
    F.ReportedSuccess(BI.Run(B.NewBatch(cfg, members), steps));
  }

  // ---------------------------------------------------------------------
  // What it does to the batch that hears it

  /** What a batch makes of the end of a member it waits for. */
  ghost predicate TakesOver(b: B.Batch, c: B.Batch, job: Id, r: B.Result) {
    && (r.Success? ==> c.p.successes == b.p.successes + 1 && c.p.dead == b.p.dead && c.p.invalidated == b.p.invalidated)
    && (r.Death? ==>
          && c.hist.deaths == b.hist.deaths + 1 && job in c.failed && c.p.invalidated == b.p.invalidated
          && (!b.p.invalidated ==> c.p.dead))
    && (r.Invalidated? ==> c.p.invalidated && c.p.dead == b.p.dead)
    && (r.Failure? ==> job in c.failed && job in c.jobs && c.p.pending == b.p.pending && c.p.successes == b.p.successes)
    && (B.IsTerminal(r) ==> job !in c.jobs && c.p.pending == b.p.pending - 1)
    && c.p.total == b.p.total
  }

  lemma TakesOverExactly(b: B.Batch, job: Id, r: B.Result)
    requires BI.Inv(b) && job in b.jobs && !r.EmptySuccess?
    ensures TakesOver(b, B.Complete(b, job, r).0, job, r)
  {
    assert |b.jobs| > 0;
    A.StepCounts(b, BI.DoComplete(job, r));
    A.StepFlags(b, BI.DoComplete(job, r));
  }

  /** How a job ended is what its batch counts: a success, a death, or a failure that leaves the job waited for. */
  lemma EndIsCounted(m: State, g: nat, replied: bool)
    requires Inv(m) && Enabled(m, RecordResult(g, replied))
    requires var raw := m.procs[g].raw;
      raw.batch.Some? && raw.batch.value in m.forest && raw.jid in m.forest[raw.batch.value].jobs
    ensures var pr, n := m.procs[g], Next(m, RecordResult(g, replied)); var b := pr.raw.batch.value;
      TakesOver(m.forest[b], n.forest[b], pr.raw.jid,
                match pr.stage.fin.op case Finish => B.Success case Retry => B.Failure case Kill => B.Death)
  {
    var pr := m.procs[g];
    ResultStepChanges(m, RecordResult(g, replied));
    TakesOverExactly(m.forest[pr.raw.batch.value], pr.raw.jid, ResultOf(pr.stage.fin.op));
  }

  /** An empty batch that is finished has fired, and is settled and reported at once if it has no callbacks. */
  lemma EmptyBatchEnds(m: State, b: BatchId)
    requires Inv(m) && b in m.forest && m.forest[b].p.pending == 0 && !m.forest[b].p.completeFired
    ensures var n, cfg := Next(m, FinishEmpty(b)), m.forest[b].cfg;
      && n.forest[b].p.completeFired
      && (!cfg.onComplete && !cfg.onSuccess && m.forest[b].p.callbacksPending == 0 ==>
            && B.Settled(n.forest[b])
            && (cfg.parent.Some? ==> exists r :: Names(r, n.forest[b]) && Signal(b, cfg.parent.value, r) in n.signals))
  {
    RecordStepChanges(m, FinishEmpty(b));
    var c := m.forest[b];
    assert c.cfg.id == b && BI.Inv(c);
    A.FiresWhen(c, Child(b), B.EmptySuccess);
    var e := B.Complete(c, Child(b), B.EmptySuccess).0;
    if !c.cfg.onComplete && !c.cfg.onSuccess && c.p.callbacksPending == 0 && c.cfg.parent.Some? {
      assert B.FiredKinds(c, B.EmptySuccess) == [];
      var sig := Signal(b, c.cfg.parent.value, F.ParentResult(e.p.dead, e.p.invalidated));
      assert sig in Asked(m.forest, ChangeOf(m, FinishEmpty(b)));
      assert Names(sig.result, e);
    }
  }

  /** Each callback that a result fires is waiting in the batch's callback queue, as a fresh job of that batch. */
  lemma CallbacksAreQueued(m: State, b: BatchId, job: Id, r: B.Result, id: Id)
    requires b in m.forest && id in Enqueued(B.Complete(m.forest[b], job, r).1)
    ensures var d := RecordIn(m, b, job, r).0.d;
      && id in d.copies && d.copies[id].place == D.Queue(m.forest[b].cfg.callbackQueue)
      && d.copies[id].payload.jid == id && d.copies[id].payload.callbackOf == Some(m.forest[b].cfg.id)
      && d.copies[id].payload.fin.None? && d.copies[id].payload.batch.None? && d.copies[id].payload.retryCount == 0
  {
  }

  // ---------------------------------------------------------------------
  // Reports on the way are true

  /** The report comes from the child of that parent, and a death or invalidation that it names is still so. */
  ghost predicate Truthful(f: F.Forest, sig: Signal) {
    && sig.child in f && f[sig.child].cfg.parent == Some(sig.parent) && B.IsTerminal(sig.result)
    && (sig.result.Death? ==> f[sig.child].p.dead)
    && (sig.result.Invalidated? ==> f[sig.child].p.invalidated && !f[sig.child].p.dead)
  }

  ghost predicate AllTruthful(m: State) {
    forall sig :: sig in m.signals ==> Truthful(m.forest, sig)
  }

  lemma TruthLasts(f: F.Forest, c: Change, sig: Signal)
    requires Truthful(f, sig)
    ensures Truthful(Changed(f, c), sig)
  {
    if c.Change? && c.b in f {
      A.StepFlags(f[c.b], c.s);
      assert BI.Next(f[c.b], c.s).cfg == f[c.b].cfg;
    }
  }

  /** What a script's reply asks to be sent names the batch as the script left it, settled. */
  lemma AskedIsTrue(f: F.Forest, c: Change, sig: Signal)
    requires F.AllInv(f) && Applies(f, c) && sig in Asked(f, c)
    ensures c.Change? && sig.child == c.b && Changed(f, c)[c.b].cfg.parent == Some(sig.parent)
    ensures Names(sig.result, Changed(f, c)[c.b]) && B.Settled(Changed(f, c)[c.b])
  {
    var b := f[c.b];
    assert BI.Next(b, c.s).cfg == b.cfg && b.cfg.id == c.b;
    if c.s.DoComplete? {
      A.TakenIsRecorded(b, c.s.job, c.s.result);
    } else {
      A.RetirementReply(b, c.s.cb);
    }
  }

  lemma ChangeKeepsTruth(f: F.Forest, c: Change, signals: multiset<Signal>, signals': multiset<Signal>)
    requires F.AllInv(f) && Applies(f, c)
    requires forall sig :: sig in signals ==> Truthful(f, sig)
    requires signals' <= signals + Asked(f, c)
    ensures forall sig :: sig in signals' ==> Truthful(Changed(f, c), sig)
  {
    forall sig | sig in signals'
      ensures Truthful(Changed(f, c), sig)
    {
      if sig in signals {
        TruthLasts(f, c, sig);
      } else {
        AskedIsTrue(f, c, sig);
      }
    }
  }

  lemma StoreKeepsTruth(m: State, cfg: B.Config, members: nat)
    requires Enabled(m, StoreBatch(cfg, members)) && AllTruthful(m)
    ensures AllTruthful(Next(m, StoreBatch(cfg, members)))
  {
  }

  lemma SignalsComeFrom(m: State, step: Step)
    requires Enabled(m, step) && !step.StoreBatch?
    ensures Next(m, step).forest == Changed(m.forest, ChangeOf(m, step))
    ensures Next(m, step).signals <= m.signals + Asked(m.forest, ChangeOf(m, step))
  {
    StepIsChange(m, step);
    assert Remaining(m, step) <= m.signals;
  }

  lemma TruthfulStep(m: State, step: Step)
    requires Inv(m) && Enabled(m, step) && AllTruthful(m)
    ensures AllTruthful(Next(m, step))
  {
    if step.StoreBatch? {
      StoreKeepsTruth(m, step.cfg, step.members);
    } else {
      SignalsComeFrom(m, step);
      ChangeEnabled(m, step);
      ChangeKeepsTruth(m.forest, ChangeOf(m, step), m.signals, Next(m, step).signals);
    }
  }

  /** In every run, whatever gets lost or reordered, every report on the way is true. */
  lemma {:induction false} ReportsAreTrue(m: State, steps: seq<Step>)
    requires Inv(m) && AllTruthful(m) && Possible(m, steps)
    ensures AllTruthful(Run(m, steps))
    decreases |steps|
  {
    if steps != [] {
      TruthfulStep(m, steps[0]);
      StepKeepsInv(m, steps[0]);
      ReportsAreTrue(Next(m, steps[0]), steps[1..]);
    }
  }

  lemma DeliveredForest(m: State, sig: Signal)
    requires sig in m.signals && sig.parent in m.forest
    ensures Next(m, DeliverSignal(sig)).forest
      == m.forest[sig.parent := B.Complete(m.forest[sig.parent], Child(sig.child), sig.result).0]
  {
    RecordStepChanges(m, DeliverSignal(sig));
  }

  /** A report that arrives at a parent waiting for the child is taken over: in particular the report of
      a dead child makes the parent dead, unless it is invalidated. */
  lemma ReportIsTakenOver(m: State, sig: Signal)
    requires Inv(m) && AllTruthful(m) && sig in m.signals
    requires sig.parent in m.forest && Child(sig.child) in m.forest[sig.parent].jobs
    ensures TakesOver(m.forest[sig.parent], Next(m, DeliverSignal(sig)).forest[sig.parent],
                      Child(sig.child), sig.result)
    ensures sig.result.Death? && !m.forest[sig.parent].p.invalidated ==>
      m.forest[sig.child].p.dead && Next(m, DeliverSignal(sig)).forest[sig.parent].p.dead
  {
    DeliveredForest(m, sig);
    assert Truthful(m.forest, sig);
    TakesOverExactly(m.forest[sig.parent], Child(sig.child), sig.result);
  }

  // ---------------------------------------------------------------------
  // Reporting at once and reporting step by step

  ghost predicate OnlyReports(steps: seq<Step>) {
    forall i :: 0 <= i < |steps| ==> steps[i].DeliverSignal?
  }

  ghost predicate LeadBy(m: State, steps: seq<Step>, f: F.Forest, signals: multiset<Signal>) {
    Possible(m, steps) && Run(m, steps).forest == f && Run(m, steps).signals == signals
  }

  /** Delivering reports one after another leads from m to this forest, with these reports still on the way. */
  ghost predicate ReportsLead(m: State, f: F.Forest, signals: multiset<Signal>) {
    exists steps: seq<Step> :: OnlyReports(steps) && LeadBy(m, steps, f, signals)
  }

  lemma LeadsNow(m: State)
    ensures ReportsLead(m, m.forest, m.signals)
  {
    assert LeadBy(m, [], m.forest, m.signals);
  }

  lemma LeadFrom(m: State, step: Step, n: State, rest: seq<Step>, f: F.Forest, signals: multiset<Signal>)
    requires Enabled(m, step) && Next(m, step) == n && LeadBy(n, rest, f, signals)
    ensures LeadBy(m, [step] + rest, f, signals)
  {
    assert ([step] + rest)[1..] == rest;
  }

  lemma OneMoreReport(step: Step, rest: seq<Step>)
    requires step.DeliverSignal? && OnlyReports(rest)
    ensures OnlyReports([step] + rest)
  {
  }

  lemma LeadsLater(m: State, step: Step, n: State, f: F.Forest, signals: multiset<Signal>)
    requires Enabled(m, step) && step.DeliverSignal? && Next(m, step) == n && ReportsLead(n, f, signals)
    ensures ReportsLead(m, f, signals)
  {
    var rest: seq<Step> :| OnlyReports(rest) && LeadBy(n, rest, f, signals);
    LeadFrom(m, step, n, rest, f, signals);
    OneMoreReport(step, rest);
  }

  /** The state after recording a result, with the report that it asks for on its way. */
  function Recorded(m: State, b: BatchId, job: Id, r: B.Result): State {
    var (n, sigs) := RecordIn(m, b, job, r);
    n.(signals := m.signals + sigs)
  }

  lemma DeliveryRecords(m: State, m1: State, sig: Signal)
    requires m1 == m.(signals := m.signals + multiset{sig})
    ensures Next(m1, DeliverSignal(sig)) == Recorded(m, sig.parent, Child(sig.child), sig.result)
  {
    assert m1.(signals := m1.signals - multiset{sig}) == m;
  }

  /** What recording a result leaves, and the report that it asks for. */
  lemma RecordedShape(m: State, b: BatchId, job: Id, r: B.Result)
    requires F.AllInv(m.forest) && b in m.forest
    ensures var (n, sigs) := RecordIn(m, b, job, r); var (c, reply) := B.Complete(m.forest[b], job, r);
      && n.forest == m.forest[b := c] && n.signals == m.signals
      && sigs == if reply.Recorded? && reply.completedNow && c.cfg.parent.Some?
                 then multiset{Signal(b, c.cfg.parent.value, F.ParentResult(c.p.dead, c.p.invalidated))}
                 else multiset{}
  {
    assert m.forest[b].cfg.id == b;
  }

  lemma LeadsThrough(n: State, m1: State, sig: Signal, f: F.Forest)
    requires m1 == n.(signals := n.signals + multiset{sig})
    requires ReportsLead(Recorded(n, sig.parent, Child(sig.child), sig.result), f, n.signals)
    ensures ReportsLead(m1, f, n.signals)
  {
    DeliveryRecords(n, m1, sig);
    LeadsLater(m1, DeliverSignal(sig), Recorded(n, sig.parent, Child(sig.child), sig.result), f, n.signals);
  }

  function Sent(sig: Option<Signal>): multiset<Signal> {
    if sig.Some? then multiset{sig.value} else multiset{}
  }

  /** Recording a result, the report it asks for, and how the recursion goes on from there. */
  lemma RecordedThen(m: State, job: Id, b: BatchId, r: B.Result) returns (n: State, sig: Option<Signal>)
    requires Inv(m)
    ensures Inv(n) && n.signals == m.signals && Recorded(m, b, job, r) == n.(signals := n.signals + Sent(sig))
    ensures F.Propagate(m.forest, job, b, r) ==
      if sig.None? then n.forest else F.Propagate(n.forest, Child(sig.value.child), sig.value.parent, sig.value.result)
    ensures sig.Some? ==> B.IsTerminal(sig.value.result) && F.Edges(n.forest) <= F.Edges(m.forest)
    ensures sig.Some? && B.IsTerminal(r) ==> F.Edges(n.forest) < F.Edges(m.forest)
  {
    n, sig := RecordIn(m, b, job, r).0, None;
    RecordKeepsInv(m, b, job, r);
    if b in m.forest {
      var (c, reply) := B.Complete(m.forest[b], job, r);
      RecordedShape(m, b, job, r);
      F.PropagateUnfolds(m.forest, job, b, r);
      if reply.Recorded? && reply.completedNow && c.cfg.parent.Some? {
        sig := Some(Signal(b, c.cfg.parent.value, F.ParentResult(c.p.dead, c.p.invalidated)));
        F.EdgesShrink(m.forest, b, job, r);
      }
    }
  }

  /** The recursion that reports a finished batch upwards is the delivery of one report after another. */
  lemma {:induction false} PropagateIsDelivery(m: State, job: Id, b: BatchId, r: B.Result)
    requires Inv(m)
    ensures ReportsLead(Recorded(m, b, job, r), F.Propagate(m.forest, job, b, r), m.signals)
    decreases F.Edges(m.forest), !B.IsTerminal(r)
  {
    var n, sig := RecordedThen(m, job, b, r);
    if sig.None? {
      LeadsNow(Recorded(m, b, job, r));
    } else {
      PropagateIsDelivery(n, Child(sig.value.child), sig.value.parent, sig.value.result);
      LeadsThrough(n, Recorded(m, b, job, r), sig.value, F.Propagate(m.forest, job, b, r));
    }
  }

  function Retired(m: State, b: BatchId, cb: Id): State {
    var (n, sigs) := RetireIn(m, b, cb);
    n.(signals := m.signals + sigs)
  }

  lemma RetiredShape(m: State, b: BatchId, cb: Id)
    requires F.AllInv(m.forest) && b in m.forest
    ensures var (n, sigs) := RetireIn(m, b, cb); var (c, reply) := B.CallbackComplete(m.forest[b], cb);
      && n.forest == m.forest[b := c] && n.signals == m.signals
      && sigs == if reply.shouldPropagate && c.cfg.parent.Some?
                 then multiset{Signal(b, c.cfg.parent.value, F.ParentResult(c.p.dead, c.p.invalidated))}
                 else multiset{}
  {
    assert m.forest[b].cfg.id == b;
  }

  lemma RetiredThen(m: State, cb: Id, b: BatchId) returns (n: State, sig: Option<Signal>)
    requires Inv(m)
    ensures Inv(n) && n.signals == m.signals && Retired(m, b, cb) == n.(signals := n.signals + Sent(sig))
    ensures F.RetireCallback(m.forest, cb, b) ==
      if sig.None? then n.forest else F.Propagate(n.forest, Child(sig.value.child), sig.value.parent, sig.value.result)
  {
    n, sig := RetireIn(m, b, cb).0, None;
    RetireKeepsInv(m, b, cb);
    if b in m.forest {
      var (c, reply) := B.CallbackComplete(m.forest[b], cb);
      RetiredShape(m, b, cb);
      F.RetireUnfolds(m.forest, cb, b);
      if reply.shouldPropagate && c.cfg.parent.Some? {
        sig := Some(Signal(b, c.cfg.parent.value, F.ParentResult(c.p.dead, c.p.invalidated)));
      }
    }
  }

  /** The same for the retirement of a callback. */
  lemma RetireIsDelivery(m: State, cb: Id, b: BatchId)
    requires Inv(m)
    ensures ReportsLead(Retired(m, b, cb), F.RetireCallback(m.forest, cb, b), m.signals)
  {
    var n, sig := RetiredThen(m, cb, b);
    if sig.None? {
      LeadsNow(Retired(m, b, cb));
    } else {
      PropagateIsDelivery(n, Child(sig.value.child), sig.value.parent, sig.value.result);
      LeadsThrough(n, Retired(m, b, cb), sig.value, F.RetireCallback(m.forest, cb, b));
    }
  }
}
