/**
  What no later step of anyone undoes: a known job that left a batch's books stays off them,
  a recorded failure stays recorded, and a delivery that has ended stays ended.
 */
module Persistence {
  import opened Ids
  import opened Machine
  import opened Workers
  import opened Outcomes
  import opened Links
  import B = Batches
  import BI = BatchInvariants
  import D = Delivery
  import F = Forests

  // ---------------------------------------------------------------------
  // Batches

  /** From f to g the id joins no batch, neither as a member nor as a callback, and no failure is forgotten. */
  ghost predicate Lasting(f: F.Forest, g: F.Forest, id: Id) {
    && (forall b :: b in g && id in g[b].jobs ==> b in f && id in f[b].jobs)
    && (forall b :: b in g && id in g[b].callbacks ==> b in f && id in f[b].callbacks)
    && (forall b :: b in f ==> b in g && f[b].failed <= g[b].failed && f[b].p.callbackSeq <= g[b].p.callbackSeq)
  }

  /** The only ids that a batch script adds are its arguments and newly numbered callbacks. */
  lemma ScriptGains(b: B.Batch, s: BI.Step, id: Id)
    ensures var n := BI.Next(b, s);
      && b.failed <= n.failed && b.p.callbackSeq <= n.p.callbackSeq
      && (id in n.jobs ==>
            || id in b.jobs || (s.DoAddChild? && id == s.child)
            || ((s.DoAddJobs? || s.DoEnqueueJobs?) && id in s.ids))
      && (id in n.callbacks ==>
            id in b.callbacks || (id.Callback? && id.batch == b.cfg.id && b.p.callbackSeq < id.n))
  {
  }

  lemma NewMembersUnknown(m: State, b: BatchId, ps: seq<D.Payload>, id: Id)
    requires NewMembers(m, b, ps) && Born(m, id)
    ensures id !in MemberIds(ps)
  {
    forall i | 0 <= i < |ps|
      ensures MemberIds(ps)[i] != id
    {
      assert ps[i] in ps;
    }
  }

  /** No step brings a batch an id that was known before. */
  lemma ChangeBringsNoKnown(m: State, step: Step, id: Id)
    requires Enabled(m, step) && Born(m, id) && ChangeOf(m, step).Change?
    ensures ChangeOf(m, step).b in m.forest
    ensures var s := ChangeOf(m, step).s;
      && (s.DoAddChild? ==> id != s.child)
      && (s.DoAddJobs? || s.DoEnqueueJobs? ==> id !in s.ids)
  {
    if step.TrackMembers? || step.AddMembers? {
      NewMembersUnknown(m, step.b, step.ps, id);
    }
  }

  lemma ChangeLasts(m: State, c: Change, id: Id)
    requires F.AllInv(m.forest) && Born(m, id) && c.Change? && c.b in m.forest
    requires c.s.DoAddChild? ==> id != c.s.child
    requires c.s.DoAddJobs? || c.s.DoEnqueueJobs? ==> id !in c.s.ids
    ensures Lasting(m.forest, Changed(m.forest, c), id)
  {
    ScriptGains(m.forest[c.b], c.s, id);
    assert m.forest[c.b].cfg.id == c.b;
  }

  lemma StoreLasts(f: F.Forest, cfg: B.Config, members: nat, id: Id)
    requires cfg.id !in f
    ensures Lasting(f, f[cfg.id := B.NewBatch(cfg, members)], id)
  {
  }

  lemma ForestLasts(m: State, step: Step, id: Id)
    requires F.AllInv(m.forest) && Enabled(m, step) && Born(m, id)
    ensures Lasting(m.forest, ForestAfter(m, step), id)
  {
    if step.StoreBatch? {
      StoreLasts(m.forest, step.cfg, step.members, id);
    } else if ChangeOf(m, step).Change? {
      ChangeBringsNoKnown(m, step, id);
      ChangeLasts(m, ChangeOf(m, step), id);
    }
  }

  lemma RecordingKeepsBorn(m: State, b: BatchId, job: Id, r: B.Result)
    ensures RecordIn(m, b, job, r).0.born == m.born == RetireIn(m, b, job).0.born
  {
  }

  lemma ReportKeepsBorn(m: State, sig: Signal)
    requires sig in m.signals
    ensures Next(m, DeliverSignal(sig)).born == m.born
  {
    RecordingKeepsBorn(m.(signals := m.signals - multiset{sig}), sig.parent, Child(sig.child), sig.result);
  }

  lemma EmptyKeepsBorn(m: State, b: BatchId)
    requires b in m.forest
    ensures Next(m, FinishEmpty(b)).born == m.born
  {
    RecordingKeepsBorn(m, b, Child(b), B.EmptySuccess);
  }

  lemma ResultsKeepBorn(m: State, step: Step)
    requires Enabled(m, step) && (step.RecordResult? || step.RecordCallback?)
    ensures Next(m, step).born == m.born
  {
  }

  lemma NumbersGrow(m: State, step: Step)
    requires Enabled(m, step)
    ensures m.born <= Next(m, step).born
  {
    if step.FinishEmpty? {
      EmptyKeepsBorn(m, step.b);
    } else if step.DeliverSignal? {
      ReportKeepsBorn(m, step.sig);
    } else if ByRecord(step) {
      ResultsKeepBorn(m, step);
    }
  }

  lemma StepLasts(m: State, step: Step, id: Id)
    requires Inv(m) && Enabled(m, step) && Born(m, id)
    ensures Lasting(m.forest, Next(m, step).forest, id) && Born(Next(m, step), id)
  {
    NextForest(m, step);
    ForestLasts(m, step, id);
    NumbersGrow(m, step);
  }

  // ---------------------------------------------------------------------
  // Deliveries

  /** This delivery of the job is over: the job is gone, dead, or at a later attempt. */
  ghost predicate Ended(d: D.State, raw: D.Payload) {
    raw.jid in d.copies ==>
      d.copies[raw.jid].place.Dead? || d.copies[raw.jid].payload.retryCount > raw.retryCount
  }

  predicate KeepsCount(script: D.Step) {
    script.DoRetry? || script.DoBury? || script.DoRequeue? ==> script.p.retryCount <= script.next.retryCount
  }

  lemma DeliveryKeepsEnded(d: D.State, script: D.Step, raw: D.Payload)
    requires D.Inv(d) && D.Enabled(d, script) && !script.DoEnqueue? && KeepsCount(script) && Ended(d, raw)
    ensures Ended(D.Next(d, script), raw)
  {
    if raw.jid in D.Next(d, script).copies {
      D.MarkersComeFromMarks(d, script, raw.jid);
      assert D.CopyOk(d, raw.jid);
    }
  }

  lemma ScriptKeepsCount(m: State, step: Step)
    requires Enabled(m, step) && Script(m, step).Some?
    ensures KeepsCount(Script(m, step).value) && !Script(m, step).value.DoEnqueue?
  {
  }

  lemma AppendKeepsEnded(m: State, n: State, raw: D.Payload)
    requires Born(m, raw.jid) && Appends(m, n.d) && Ended(m.d, raw)
    ensures Ended(n.d, raw)
  {
  }

  lemma EndedStays(m: State, step: Step, raw: D.Payload)
    requires Inv(m) && Enabled(m, step) && Born(m, raw.jid) && Ended(m.d, raw)
    ensures Ended(Next(m, step).d, raw)
  {
    if Script(m, step).Some? {
      ScriptIsStep(m, step);
      ScriptKeepsCount(m, step);
      DeliveryKeepsEnded(m.d, Script(m, step).value, raw);
    } else {
      OthersAppend(m, step);
      AppendKeepsEnded(m, Next(m, step), raw);
    }
  }
}
