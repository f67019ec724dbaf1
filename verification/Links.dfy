/**
  Batches inside the machine: each batch moves only by its own scripts, so what
  BatchTheorems proves about one batch holds for every batch of every run; and a
  parent keeps waiting for a child only while the child is unsettled or its
  completion is on the way.
 */
module Links {
  import opened Ids
  import opened Machine
  import opened Workers
  import B = Batches
  import BI = BatchInvariants
  import BT = BatchTheorems
  import F = Forests

  /** The batch that a step changes, and the batch script that changes it. */
  datatype Change = Nothing | Change(b: BatchId, s: BI.Step)

  function ChangeIn(m: State, b: BatchId, s: BI.Step): Change {
    if b in m.forest then Change(b, s) else Nothing
  }

  function ParentOf(m: State, child: BatchId): BatchId
    requires child in m.forest && m.forest[child].cfg.parent.Some?
  {
    m.forest[child].cfg.parent.value
  }

  function ChangeOf(m: State, step: Step): Change {
    match step
    case LinkChild(c) =>
      if c in m.forest && m.forest[c].cfg.parent.Some? then ChangeIn(m, ParentOf(m, c), BI.DoAddChild(Child(c)))
      else Nothing
    case UnlinkChild(c) =>
      if c in m.forest && m.forest[c].cfg.parent.Some? then ChangeIn(m, ParentOf(m, c), BI.DoRemoveChild(Child(c)))
      else Nothing
    case TrackMembers(b, ps) => ChangeIn(m, b, BI.DoEnqueueJobs(MemberIds(ps)))
    case AddMembers(b, ps) => ChangeIn(m, b, BI.DoAddJobs(MemberIds(ps)))
    case InvalidateBatch(b) => ChangeIn(m, b, BI.DoInvalidate)
    case FinishEmpty(b) => ChangeIn(m, b, BI.DoComplete(Child(b), B.EmptySuccess))
    case RecordResult(g, _) =>
      if g in m.procs && m.procs[g].raw.batch.Some? && m.procs[g].stage.Finalizing?
      then ChangeIn(m, m.procs[g].raw.batch.value, BI.DoComplete(m.procs[g].raw.jid, ResultOf(m.procs[g].stage.fin.op)))
      else Nothing
    case RecordCallback(g, _) =>
      if g in m.procs && m.procs[g].raw.callbackOf.Some?
      then ChangeIn(m, m.procs[g].raw.callbackOf.value, BI.DoCallback(m.procs[g].raw.jid)) else Nothing
    case DeliverSignal(sig) => ChangeIn(m, sig.parent, BI.DoComplete(Child(sig.child), sig.result))
    case _ => Nothing
  }

  /** The forest after a change. */
  function Changed(f: F.Forest, c: Change): F.Forest {
    if c.Change? && c.b in f then f[c.b := BI.Next(f[c.b], c.s)] else f
  }

  /** The signal a batch script's reply asks for. */
  function Asked(f: F.Forest, c: Change): multiset<Signal> {
    if c.Change? && c.b in f then SignalsOf(BI.Next(f[c.b], c.s), BI.Signals(f[c.b], c.s)) else multiset{}
  }

  predicate ByRecord(step: Step) {
    step.RecordResult? || step.RecordCallback? || step.FinishEmpty? || step.DeliverSignal?
  }

  lemma RecordChanges(m: State, b: BatchId, job: Id, r: B.Result)
    ensures var (n, sigs) := RecordIn(m, b, job, r); var c := ChangeIn(m, b, BI.DoComplete(job, r));
      n.forest == Changed(m.forest, c) && sigs == Asked(m.forest, c) && n.signals == m.signals
  {
  }

  lemma RetireChanges(m: State, b: BatchId, cb: Id)
    ensures var (n, sigs) := RetireIn(m, b, cb); var c := ChangeIn(m, b, BI.DoCallback(cb));
      n.forest == Changed(m.forest, c) && sigs == Asked(m.forest, c) && n.signals == m.signals
  {
  }

  /** Signals in transit before the step's own are added. */
  function Remaining(m: State, step: Step): multiset<Signal> {
    if step.DeliverSignal? || step.LoseSignal? then m.signals - multiset{step.sig} else m.signals
  }

  predicate Replied(step: Step) {
    (step.RecordResult? || step.RecordCallback?) ==> step.replied
  }

  lemma ResultStepChanges(m: State, step: Step)
    requires Enabled(m, step) && step.RecordResult?
    ensures Next(m, step).forest == Changed(m.forest, ChangeOf(m, step))
    ensures Next(m, step).signals
      == m.signals + if Replied(step) then Asked(m.forest, ChangeOf(m, step)) else multiset{}
  {
    var pr := m.procs[step.g];
    if pr.raw.batch.Some? {
      RecordChanges(m, pr.raw.batch.value, pr.raw.jid, ResultOf(pr.stage.fin.op));
    }
  }

  lemma CallbackStepChanges(m: State, step: Step)
    requires Enabled(m, step) && step.RecordCallback?
    ensures Next(m, step).forest == Changed(m.forest, ChangeOf(m, step))
    ensures Next(m, step).signals
      == m.signals + if Replied(step) then Asked(m.forest, ChangeOf(m, step)) else multiset{}
  {
    var pr := m.procs[step.g];
    if pr.raw.callbackOf.Some? {
      RetireChanges(m, pr.raw.callbackOf.value, pr.raw.jid);
    }
  }

  lemma RecordStepChanges(m: State, step: Step)
    requires Enabled(m, step) && (step.FinishEmpty? || step.DeliverSignal?)
    ensures Next(m, step).forest == Changed(m.forest, ChangeOf(m, step))
    ensures Next(m, step).signals == Remaining(m, step) + Asked(m.forest, ChangeOf(m, step))
  {
    if step.FinishEmpty? {
      RecordChanges(m, step.b, Child(step.b), B.EmptySuccess);
    } else {
      var sig := step.sig;
      RecordChanges(m.(signals := m.signals - multiset{sig}), sig.parent, Child(sig.child), sig.result);
    }
  }

  lemma ClientStepChanges(m: State, step: Step)
    requires Enabled(m, step) && FromClient(step) && !step.StoreBatch?
    ensures Next(m, step).forest == Changed(m.forest, ChangeOf(m, step)) && Next(m, step).signals == m.signals
    ensures Asked(m.forest, ChangeOf(m, step)) == multiset{}
  {
  }

  lemma HolderStepChanges(m: State, step: Step)
    requires Enabled(m, step)
    requires step.Claim? || step.Decide? || step.MarkOutcome? || step.Terminate? || step.Interrupt?
      || step.Restart? || step.Vanish?
    ensures Next(m, step).forest == m.forest && Next(m, step).signals == m.signals
  {
  }

  lemma OtherStepChanges(m: State, step: Step)
    requires Enabled(m, step) && !FromClient(step) && !ByRecord(step)
    ensures Next(m, step).forest == m.forest && Next(m, step).signals == Remaining(m, step)
    ensures ChangeOf(m, step) == Nothing
  {
    if !Background(step) && !step.LoseSignal? {
      HolderStepChanges(m, step);
    }
  }

  /** Every step but the creation of a batch changes at most one batch, by one of the batch scripts. */
  lemma StepIsChange(m: State, step: Step)
    requires Enabled(m, step) && !step.StoreBatch?
    ensures Next(m, step).forest == Changed(m.forest, ChangeOf(m, step))
    ensures Next(m, step).signals == Remaining(m, step) +
      if Replied(step) then Asked(m.forest, ChangeOf(m, step)) else multiset{}
  {
    if step.RecordResult? {
      ResultStepChanges(m, step);
    } else if step.RecordCallback? {
      CallbackStepChanges(m, step);
    } else if ByRecord(step) {
      RecordStepChanges(m, step);
    } else if FromClient(step) {
      ClientStepChanges(m, step);
    } else {
      OtherStepChanges(m, step);
    }
  }

  /** The change is one that the batch's own protocol allows. */
  ghost predicate Applies(f: F.Forest, c: Change) {
    c.Change? ==> c.b in f && BI.Enabled(f[c.b], c.s)
  }

  lemma ChangeEnabled(m: State, step: Step)
    requires Inv(m) && Enabled(m, step)
    ensures Applies(m.forest, ChangeOf(m, step))
  {
    if step.TrackMembers? || step.AddMembers? {
      FreshMembers(m, step.b, step.ps);
    }
  }

  // ---------------------------------------------------------------------
  // Every batch of every run is a run of BatchInvariants

  /** The batch was stored and then moved by batch scripts only. */
  ghost predicate Lived(b: B.Batch) {
    exists members: nat, steps: seq<BI.Step> :: LivedBy(b, members, steps)
  }

  ghost predicate LivedBy(b: B.Batch, members: nat, steps: seq<BI.Step>) {
    BI.Possible(B.NewBatch(b.cfg, members), steps) && b == BI.Run(B.NewBatch(b.cfg, members), steps)
  }

  lemma {:induction false} BatchRunAppend(b: B.Batch, steps: seq<BI.Step>, s: BI.Step)
    requires BI.Possible(b, steps) && BI.Enabled(BI.Run(b, steps), s)
    ensures BI.Possible(b, steps + [s]) && BI.Run(b, steps + [s]) == BI.Next(BI.Run(b, steps), s)
    decreases |steps|
  {
    if steps == [] {
      assert steps + [s] == [s];
      assert [s][1..] == [];
      assert BI.Run(BI.Next(b, s), []) == BI.Next(b, s);
    } else {
      assert (steps + [s])[1..] == steps[1..] + [s];
      BatchRunAppend(BI.Next(b, steps[0]), steps[1..], s);
    }
  }

  lemma LivesOn(b: B.Batch, s: BI.Step)
    requires Lived(b) && BI.Enabled(b, s)
    ensures Lived(BI.Next(b, s))
  {
    var members: nat, steps :| LivedBy(b, members, steps);
    BatchRunAppend(B.NewBatch(b.cfg, members), steps, s);
    assert BI.Next(b, s).cfg == b.cfg;
    assert LivedBy(BI.Next(b, s), members, steps + [s]);
  }

  ghost predicate AllLived(f: F.Forest) {
    forall b :: b in f ==> Lived(f[b])
  }

  lemma ChangedLived(f: F.Forest, c: Change)
    requires AllLived(f) && Applies(f, c)
    ensures AllLived(Changed(f, c))
  {
    if c.Change? {
      LivesOn(f[c.b], c.s);
    }
  }

  lemma StoredLived(f: F.Forest, cfg: B.Config, members: nat)
    requires AllLived(f)
    ensures AllLived(f[cfg.id := B.NewBatch(cfg, members)])
  {
    assert LivedBy(B.NewBatch(cfg, members), members, []);
  }

  /** The forest after a step, batch script by batch script. */
  function ForestAfter(m: State, step: Step): F.Forest {
    if step.StoreBatch? then m.forest[step.cfg.id := B.NewBatch(step.cfg, step.members)]
    else Changed(m.forest, ChangeOf(m, step))
  }

  lemma LivedStep(m: State, step: Step)
    requires Inv(m) && Enabled(m, step) && AllLived(m.forest)
    ensures AllLived(ForestAfter(m, step))
  {
    if step.StoreBatch? {
      StoredLived(m.forest, step.cfg, step.members);
    } else {
      ChangeEnabled(m, step);
      ChangedLived(m.forest, ChangeOf(m, step));
    }
  }

  lemma NextForest(m: State, step: Step)
    requires Enabled(m, step)
    ensures Next(m, step).forest == ForestAfter(m, step)
  {
    if !step.StoreBatch? {
      StepIsChange(m, step);
    }
  }

  /** Whatever holds of every life of a single batch holds of every batch the machine ever has. */
  lemma {:induction false} EveryBatchLived(m: State, steps: seq<Step>)
    requires Inv(m) && AllLived(m.forest) && Possible(m, steps)
    ensures AllLived(Run(m, steps).forest)
    decreases |steps|
  {
    if steps != [] {
      LivedStep(m, steps[0]);
      NextForest(m, steps[0]);
      StepKeepsInv(m, steps[0]);
      EveryBatchLived(Next(m, steps[0]), steps[1..]);
    }
  }

  // ---------------------------------------------------------------------
  // A parent waits only for children that are unsettled or reporting

  ghost predicate Reporting(signals: multiset<Signal>, c: BatchId, p: BatchId) {
    exists r :: Signal(c, p, r) in signals
  }

  ghost predicate LinkOk(f: F.Forest, signals: multiset<Signal>, p: BatchId, c: BatchId)
    requires p in f
  {
    Child(c) in f[p].jobs ==>
      c in f && f[c].cfg.parent == Some(p) && (B.Settled(f[c]) ==> Reporting(signals, c, p))
  }

  ghost predicate LinksOk(f: F.Forest, signals: multiset<Signal>) {
    forall p, c :: p in f ==> LinkOk(f, signals, p, c)
  }

  ghost predicate SignalsTerminal(signals: multiset<Signal>) {
    forall sig :: sig in signals ==> B.IsTerminal(sig.result)
  }

  /** No link is taken back, no signal is dropped, and a reply that asks for a signal arrives. */
  ghost predicate Reliable(m: State, step: Step) {
    && !step.UnlinkChild? && !step.LoseSignal?
    && (Replied(step) || Asked(m.forest, ChangeOf(m, step)) == multiset{})
  }

  /** What one batch script does to links, for every script except the rollback. */
  lemma ScriptAndLinks(b: B.Batch, s: BI.Step)
    requires BI.Inv(b) && BI.Enabled(b, s) && !s.DoRemoveChild?
    ensures var n := BI.Next(b, s);
      && n.cfg == b.cfg && BI.Inv(n)
      && (B.Settled(n) && !B.Settled(b) ==> BI.Signals(b, s))
      && (forall c :: Child(c) in n.jobs ==>
            || Child(c) in b.jobs || (s.DoAddChild? && s.child == Child(c))
            || (s.DoAddJobs? && Child(c) in s.ids) || (s.DoEnqueueJobs? && Child(c) in s.ids))
      && (s.DoComplete? && B.IsTerminal(s.result) ==> s.job !in n.jobs)
  {
    BI.StepKeepsInv(b, s);
    BT.SignalIffSettles(b, s);
  }

  /** Replacing batch b by n, given what n does to b's links and to b's own completion. */
  lemma UpdateLinks(f: F.Forest, b: BatchId, n: B.Batch, signals: multiset<Signal>, signals': multiset<Signal>)
    requires b in f && n.cfg == f[b].cfg && LinksOk(f, signals)
    requires forall x :: Child(x) in n.jobs && Child(x) !in f[b].jobs ==>
      x in f && x != b && f[x].cfg.parent == Some(b) && !B.Settled(f[x])
    requires B.Settled(n) && !B.Settled(f[b]) && n.cfg.parent.Some? ==> Reporting(signals', b, n.cfg.parent.value)
    requires forall x, p :: Reporting(signals, x, p) ==> Reporting(signals', x, p) || (p == b && Child(x) !in n.jobs)
    ensures LinksOk(f[b := n], signals')
  {
    var g := f[b := n];
    forall p, x | p in g
      ensures LinkOk(g, signals', p, x)
    {
      assert LinkOk(f, signals, p, x);
    }
  }

  /** A link that a step adds joins an unsettled child to its own parent. */
  ghost predicate GoodGain(f: F.Forest, c: Change)
    requires c.Change?
  {
    && !c.s.DoRemoveChild?
    && (c.s.DoAddChild? ==>
          c.s.child.Child? && c.s.child.batch in f && c.s.child.batch != c.b
          && f[c.s.child.batch].cfg.parent == Some(c.b) && !B.Settled(f[c.s.child.batch]))
    && (c.s.DoAddJobs? || c.s.DoEnqueueJobs? ==> forall id :: id in c.s.ids ==> id.Job?)
  }

  lemma AskedReports(f: F.Forest, c: Change, signals: multiset<Signal>)
    requires c.Change? && c.b in f && f[c.b].cfg.id == c.b && Asked(f, c) <= signals
    requires BI.Signals(f[c.b], c.s) && BI.Next(f[c.b], c.s).cfg == f[c.b].cfg && f[c.b].cfg.parent.Some?
    ensures Reporting(signals, c.b, f[c.b].cfg.parent.value)
  {
    var n := BI.Next(f[c.b], c.s);
    var sig := Signal(c.b, f[c.b].cfg.parent.value, F.ParentResult(n.p.dead, n.p.invalidated));
    assert Asked(f, c) == multiset{sig};
    assert sig in signals;
  }

  lemma ChangeKeepsLinks(f: F.Forest, c: Change, signals: multiset<Signal>, signals': multiset<Signal>)
    requires c.Change? && Applies(f, c) && F.AllInv(f) && LinksOk(f, signals)
    requires GoodGain(f, c) && Asked(f, c) <= signals'
    requires forall x, p :: Reporting(signals, x, p) ==>
      Reporting(signals', x, p) || (p == c.b && c.s.DoComplete? && B.IsTerminal(c.s.result) && c.s.job == Child(x))
    ensures LinksOk(Changed(f, c), signals')
  {
    ScriptAndLinks(f[c.b], c.s);
    var n := BI.Next(f[c.b], c.s);
    if B.Settled(n) && !B.Settled(f[c.b]) && n.cfg.parent.Some? {
      AskedReports(f, c, signals');
    }
    UpdateLinks(f, c.b, n, signals, signals');
  }

  // ---------------------------------------------------------------------
  // Over whole runs

  ghost predicate LinkInv(m: State) {
    LinksOk(m.forest, m.signals) && SignalsTerminal(m.signals) && F.NoSelfParent(m.forest)
  }

  lemma GoodChange(m: State, step: Step)
    requires Inv(m) && Enabled(m, step) && F.NoSelfParent(m.forest) && ChangeOf(m, step).Change? && !step.UnlinkChild?
    ensures GoodGain(m.forest, ChangeOf(m, step))
  {
    if step.TrackMembers? || step.AddMembers? {
      forall id | id in MemberIds(step.ps)
        ensures id.Job?
      {
        var i :| 0 <= i < |step.ps| && MemberIds(step.ps)[i] == id;
        assert step.ps[i] in step.ps;
      }
    }
  }

  /** Only the delivered signal leaves, and its delivery removes the link it reports. */
  lemma SignalsKept(m: State, step: Step, x: BatchId, p: BatchId)
    requires SignalsTerminal(m.signals) && Enabled(m, step) && !step.LoseSignal? && Reporting(m.signals, x, p)
    ensures Reporting(Remaining(m, step), x, p) ||
      (step.DeliverSignal? && step.sig.child == x && step.sig.parent == p && B.IsTerminal(step.sig.result))
  {
    var r :| Signal(x, p, r) in m.signals;
    if !(step.DeliverSignal? && step.sig == Signal(x, p, r)) {
      assert Signal(x, p, r) in Remaining(m, step);
    }
  }

  /** A report stays on the way, unless this step delivers it to the parent. */
  lemma StillReporting(m: State, step: Step, signals: multiset<Signal>, x: BatchId, p: BatchId)
    requires SignalsTerminal(m.signals) && Enabled(m, step) && !step.LoseSignal? && Reporting(m.signals, x, p)
    requires Remaining(m, step) <= signals
    ensures Reporting(signals, x, p) ||
      (step.DeliverSignal? && step.sig.child == x && step.sig.parent == p && B.IsTerminal(step.sig.result))
  {
    SignalsKept(m, step, x, p);
    if Reporting(Remaining(m, step), x, p) {
      var r :| Signal(x, p, r) in Remaining(m, step);
      assert Signal(x, p, r) in signals;
    }
  }

  lemma MoreSignals(f: F.Forest, signals: multiset<Signal>, signals': multiset<Signal>)
    requires LinksOk(f, signals)
    requires forall x, p :: p in f && Reporting(signals, x, p) ==> Reporting(signals', x, p)
    ensures LinksOk(f, signals')
  {
    forall p, x | p in f
      ensures LinkOk(f, signals', p, x)
    {
      assert LinkOk(f, signals, p, x);
    }
  }

  lemma LinksAfterChange(m: State, step: Step, signals: multiset<Signal>)
    requires Inv(m) && LinkInv(m) && Enabled(m, step) && Reliable(m, step) && !step.StoreBatch?
    requires Remaining(m, step) <= signals && Asked(m.forest, ChangeOf(m, step)) <= signals
    ensures LinksOk(Changed(m.forest, ChangeOf(m, step)), signals)
  {
    var c := ChangeOf(m, step);
    forall x, p | Reporting(m.signals, x, p)
      ensures Reporting(signals, x, p) ||
        (step.DeliverSignal? && step.sig.child == x && step.sig.parent == p && B.IsTerminal(step.sig.result))
    {
      StillReporting(m, step, signals, x, p);
    }
    if c.Change? {
      GoodChange(m, step);
      ChangeEnabled(m, step);
      ChangeKeepsLinks(m.forest, c, m.signals, signals);
    } else {
      MoreSignals(m.forest, m.signals, signals);
    }
  }

  lemma AskedTerminal(f: F.Forest, c: Change)
    ensures SignalsTerminal(Asked(f, c))
  {
  }

  lemma ChangedNoSelfParent(f: F.Forest, c: Change)
    requires F.NoSelfParent(f)
    ensures F.NoSelfParent(Changed(f, c))
  {
  }

  lemma NoSelfParentAfter(m: State, step: Step)
    requires Enabled(m, step) && F.NoSelfParent(m.forest)
    ensures F.NoSelfParent(ForestAfter(m, step))
  {
    if !step.StoreBatch? {
      ChangedNoSelfParent(m.forest, ChangeOf(m, step));
    }
  }

  lemma LinksAfterStore(f: F.Forest, signals: multiset<Signal>, cfg: B.Config, members: nat)
    requires LinksOk(f, signals) && cfg.id !in f
    ensures LinksOk(f[cfg.id := B.NewBatch(cfg, members)], signals)
  {
    var g := f[cfg.id := B.NewBatch(cfg, members)];
    forall p, x | p in g
      ensures LinkOk(g, signals, p, x)
    {
      assert p in f ==> LinkOk(f, signals, p, x);
    }
  }

  lemma LinkInvChange(m: State, step: Step)
    requires Inv(m) && LinkInv(m) && Enabled(m, step) && Reliable(m, step) && !step.StoreBatch?
    ensures LinksOk(Next(m, step).forest, Next(m, step).signals) && SignalsTerminal(Next(m, step).signals)
  {
    StepIsChange(m, step);
    AskedTerminal(m.forest, ChangeOf(m, step));
    LinksAfterChange(m, step, Next(m, step).signals);
  }

  lemma LinkInvStep(m: State, step: Step)
    requires Inv(m) && LinkInv(m) && Enabled(m, step) && Reliable(m, step)
    ensures LinkInv(Next(m, step))
  {
    NextForest(m, step);
    NoSelfParentAfter(m, step);
    if step.StoreBatch? {
      LinksAfterStore(m.forest, m.signals, step.cfg, step.members);
    } else {
      LinkInvChange(m, step);
    }
  }

  ghost predicate AllReliable(m: State, steps: seq<Step>)
    requires Possible(m, steps)
    decreases |steps|
  {
    steps != [] ==> Reliable(m, steps[0]) && AllReliable(Next(m, steps[0]), steps[1..])
  }

  /** In runs without rollbacks and lost propagation, whatever the interleaving, a child id
      stays in its parent's jobs set only while the child is unsettled or its completion is
      on the way; so when nothing is on the way the whole forest is consistent. */
  lemma {:induction false} LinksConsistent(m: State, steps: seq<Step>)
    requires Inv(m) && LinkInv(m) && Possible(m, steps) && AllReliable(m, steps)
    ensures LinkInv(Run(m, steps)) && Inv(Run(m, steps))
    ensures Run(m, steps).signals == multiset{} ==> F.Consistent(Run(m, steps).forest)
    decreases |steps|
  {
    if steps == [] {
      if m.signals == multiset{} {
        forall p, c | p in m.forest
          ensures F.GoodLink(m.forest, p, c, None)
        {
          assert LinkOk(m.forest, m.signals, p, c);
        }
      }
    } else {
      LinkInvStep(m, steps[0]);
      StepKeepsInv(m, steps[0]);
      LinksConsistent(Next(m, steps[0]), steps[1..]);
    }
  }
}
