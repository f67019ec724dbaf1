/**
  Every step of the combined machine, and safety over all its runs: what every
  step keeps, and when no batch is left waiting for a job that cannot be delivered.
 */
module Workers {
  import opened Ids
  import opened Machine
  import B = Batches
  import BI = BatchInvariants
  import D = Delivery
  import F = Forests

  datatype Step =
    // clients
    | Submit(place: D.Place, p: D.Payload)
    | StoreBatch(cfg: B.Config, members: nat)
    | LinkChild(child: BatchId)
    | UnlinkChild(child: BatchId)
    | TrackMembers(b: BatchId, ps: seq<D.Payload>)
    | AddMembers(b: BatchId, ps: seq<D.Payload>)
    | InvalidateBatch(b: BatchId)
    | FinishEmpty(b: BatchId)
    // goroutine g
    | Claim(g: nat, w: WorkerId, p: D.Payload)
    | Decide(g: nat, fin: D.Finalization)
    | MarkOutcome(g: nat, replied: bool)
    | RecordResult(g: nat, replied: bool)
    | RecordCallback(g: nat, replied: bool)
    | Terminate(g: nat, next: D.Payload, now: int, replied: bool)
    | Interrupt(g: nat, next: D.Payload)
    | Restart(g: nat)
    | Vanish(g: nat)
    // reaper, scheduler, expiry and propagation
    | ReapWorker(w: WorkerId)
    | PromoteDue(ids: set<Id>, now: int)
    | ExpireKey(key: D.Key)
    | DeliverSignal(sig: Signal)
    | LoseSignal(sig: Signal)

  // ---------------------------------------------------------------------
  // When a step can happen

  function MemberIds(ps: seq<D.Payload>): seq<Id> {
    seq(|ps|, i requires 0 <= i < |ps| => ps[i].jid)
  }

  /** New member jobs of b: fresh ids, unmarked, naming their batch. */
  ghost predicate NewMembers(m: State, b: BatchId, ps: seq<D.Payload>) {
    && b in m.forest && BI.Distinct(MemberIds(ps))
    && (forall p, q :: p in ps && q in ps && p.jid == q.jid ==> p == q)
    && (forall p :: p in ps ==>
          p.jid.Job? && p.jid.n !in m.born && p.fin.None? && p.batch == Some(b) && p.callbackOf.None?)
  }

  /** A goroutine that is carrying out an outcome, having completed `done` of its scripts. */
  predicate At(m: State, g: nat, done: nat) {
    g in m.procs && m.procs[g].stage.Finalizing? && m.procs[g].stage.done == done
  }

  ghost predicate Enabled(m: State, step: Step) {
    match step
    case Submit(place, p) =>
      && p.jid.Job? && p.jid.n !in m.born && p.fin.None? && p.callbackOf.None?
      && (place == D.Queue(p.queue) || place.Scheduled?)
    case StoreBatch(cfg, members) => cfg.id !in m.forest && cfg.parent != Some(cfg.id)
    case LinkChild(c) => c in m.forest && !B.Settled(m.forest[c])
    case UnlinkChild(c) => c in m.forest
    case TrackMembers(b, ps) => NewMembers(m, b, ps) && |ps| <= m.forest[b].hist.unflushed
    case AddMembers(b, ps) => NewMembers(m, b, ps)
    case InvalidateBatch(b) => b in m.forest
    case FinishEmpty(b) => b in m.forest
    case Claim(g, w, p) => g !in m.procs && D.At(m.d, D.Queue(p.queue), p)
    case Decide(g, fin) => g in m.procs && m.procs[g].stage.Running?
    case MarkOutcome(g, replied) => g in m.procs && m.procs[g].stage.Deciding?
    case RecordResult(g, replied) => At(m, g, 0)
    case RecordCallback(g, replied) => At(m, g, 1) && !m.procs[g].stage.fin.op.Retry?
    case Terminate(g, next, now, replied) =>
      && g in m.procs && m.procs[g].stage.Finalizing?
      && At(m, g, if m.procs[g].stage.fin.op.Retry? then 1 else 2)
      && D.Successor(m.procs[g].raw, next)
      && next.retryCount == m.procs[g].raw.retryCount + (if m.procs[g].stage.fin.op.Retry? then 1 else 0)
    case Interrupt(g, next) =>
      && g in m.procs && m.procs[g].stage.Running?
      && D.Successor(m.procs[g].raw, next) && next.retryCount == m.procs[g].raw.retryCount
    case Restart(g) => g in m.procs && m.procs[g].stage.Finalizing?
    case Vanish(g) => g in m.procs
    case DeliverSignal(sig) => sig in m.signals
    case LoseSignal(sig) => sig in m.signals
    case _ => true
  }

  /** A retry without a time drops the job it finds, so it must not be one a batch counts on. */
  predicate Harmless(m: State, step: Step) {
    step.Terminate? && step.g in m.procs && m.procs[step.g].stage.Finalizing? ==>
      var pr := m.procs[step.g];
      pr.stage.fin.op.Retry? && pr.stage.fin.retryAt.None? && D.At(m.d, D.InFlight(pr.w), pr.raw) ==>
        NotMember(m, pr.raw) && NotCallback(m, pr.raw)
  }

  // ---------------------------------------------------------------------
  // What it does

  function ResultOf(op: D.Operation): B.Result {
    match op
    case Finish => B.Success
    case Retry => B.Failure
    case Kill => B.Death
  }

  /** The finalizer loop starts over: it marks again unless the marker is known to be set. */
  function Again(pr: Proc): Proc
    requires pr.stage.Finalizing?
  {
    if pr.raw.fin.Some? then pr.(stage := Finalizing(pr.stage.fin, 0)) else pr.(stage := Deciding(pr.stage.fin))
  }

  function Advanced(pr: Proc, replied: bool): Proc
    requires pr.stage.Finalizing?
  {
    if replied then pr.(stage := Finalizing(pr.stage.fin, pr.stage.done + 1)) else Again(pr)
  }

  function AfterMark(d: D.State, pr: Proc, replied: bool): Proc
    requires pr.stage.Deciding?
  {
    if !replied then pr
    else
      pr.(stage := Finalizing(pr.stage.fin, 0),
          raw := if D.MarkCode(d, pr.w, pr.raw, pr.stage.fin) == 0 then pr.raw else D.Marked(pr.raw, pr.stage.fin))
  }

  /** Ack, NackAt, zero-delay Nack or MoveToDead. */
  function TerminalStep(pr: Proc, next: D.Payload, now: int): D.Step
    requires pr.stage.Finalizing?
  {
    match pr.stage.fin.op
    case Finish => D.DoAck(pr.w, pr.raw, true)
    case Kill => D.DoBury(pr.w, pr.raw, now, next)
    case Retry =>
      if pr.stage.fin.retryAt.Some? then D.DoRetry(pr.w, pr.raw, pr.stage.fin.retryAt.value, next)
      else D.DoAck(pr.w, pr.raw, false)
  }

  function SetProc(m: State, g: nat, pr: Proc): State {
    m.(procs := m.procs[g := pr])
  }

  function PushMembers(d: D.State, ps: seq<D.Payload>): D.State
    requires forall p, q :: p in ps && q in ps && p.jid == q.jid ==> p == q
  {
    d.(copies := d.copies + map p | p in ps :: p.jid := D.Copy(D.Queue(p.queue), p))
  }

  function Numbers(ps: seq<D.Payload>): set<nat> {
    set p | p in ps && p.jid.Job? :: p.jid.n
  }

  /** The parent of `child` gains or loses it; nothing happens without a parent. */
  function ParentChanged(m: State, child: BatchId, link: bool): State
    requires child in m.forest
  {
    var parent := m.forest[child].cfg.parent;
    if parent.None? || parent.value !in m.forest then m
    else
      var b := m.forest[parent.value];
      var changed := if link then B.AddChild(b, Child(child)) else B.RemoveChild(b, Child(child));
      m.(forest := m.forest[parent.value := changed])
  }

  predicate Background(step: Step) {
    step.ReapWorker? || step.PromoteDue? || step.ExpireKey?
  }

  function BackgroundStep(step: Step): D.Step
    requires Background(step)
  {
    match step
    case ReapWorker(w) => D.DoReap(w)
    case PromoteDue(ids, now) => D.DoPromote(ids, now)
    case ExpireKey(key) => D.DoExpire(key)
  }

  ghost function Next(m: State, step: Step): State
    requires Enabled(m, step)
  {
    match step
    case Submit(place, p) => m.(d := D.Enqueue(m.d, place, p), born := m.born + {p.jid.n})
    case StoreBatch(cfg, members) => m.(forest := m.forest[cfg.id := B.NewBatch(cfg, members)])
    case LinkChild(c) => ParentChanged(m, c, true)
    case UnlinkChild(c) => ParentChanged(m, c, false)
    case TrackMembers(b, ps) =>
      m.(d := PushMembers(m.d, ps), born := m.born + Numbers(ps),
         forest := m.forest[b := B.EnqueueJobs(m.forest[b], MemberIds(ps))])
    case AddMembers(b, ps) =>
      if !B.AcceptsJobs(m.forest[b]) then m
      else
        m.(d := PushMembers(m.d, ps), born := m.born + Numbers(ps),
           forest := m.forest[b := B.AddJobs(m.forest[b], MemberIds(ps))])
    case InvalidateBatch(b) => m.(forest := m.forest[b := B.Invalidate(m.forest[b])])
    case FinishEmpty(b) =>
      var (n, sigs) := RecordIn(m, b, Child(b), B.EmptySuccess);
      n.(signals := n.signals + sigs)
    case Claim(g, w, p) =>
      var raw := D.Delivered(m.d, p);
      SetProc(m.(d := D.Fetch(m.d, w, p)), g,
              Proc(w, raw, if raw.fin.Some? then Finalizing(raw.fin.value, 0) else Running))
    case Decide(g, fin) => SetProc(m, g, m.procs[g].(stage := Deciding(fin)))
    case MarkOutcome(g, replied) =>
      var pr := m.procs[g];
      SetProc(m.(d := D.Mark(m.d, pr.w, pr.raw, pr.stage.fin)), g, AfterMark(m.d, pr, replied))
    case RecordResult(g, replied) =>
      var pr := m.procs[g];
      if pr.raw.batch.None? then SetProc(m, g, Advanced(pr, replied))
      else
        var (n, sigs) := RecordIn(m, pr.raw.batch.value, pr.raw.jid, ResultOf(pr.stage.fin.op));
        SetProc(n.(signals := n.signals + if replied then sigs else multiset{}), g, Advanced(pr, replied))
    case RecordCallback(g, replied) =>
      var pr := m.procs[g];
      if pr.raw.callbackOf.None? then SetProc(m, g, Advanced(pr, replied))
      else
        var (n, sigs) := RetireIn(m, pr.raw.callbackOf.value, pr.raw.jid);
        SetProc(n.(signals := n.signals + if replied then sigs else multiset{}), g, Advanced(pr, replied))
    case Terminate(g, next, now, replied) =>
      var pr := m.procs[g];
      var n := m.(d := D.Next(m.d, TerminalStep(pr, next, now)));
      if replied then n.(procs := n.procs - {g}) else SetProc(n, g, Again(pr))
    case Interrupt(g, next) =>
      var pr := m.procs[g];
      m.(d := D.Requeue(m.d, pr.w, pr.raw, next), procs := m.procs - {g})
    case Restart(g) => SetProc(m, g, Again(m.procs[g]))
    case Vanish(g) => m.(procs := m.procs - {g})
    case ReapWorker(_) => m.(d := D.Next(m.d, BackgroundStep(step)))
    case PromoteDue(_, _) => m.(d := D.Next(m.d, BackgroundStep(step)))
    case ExpireKey(_) => m.(d := D.Next(m.d, BackgroundStep(step)))
    case DeliverSignal(sig) =>
      var (n, sigs) := RecordIn(m.(signals := m.signals - multiset{sig}), sig.parent, Child(sig.child), sig.result);
      n.(signals := n.signals + sigs)
    case LoseSignal(sig) => m.(signals := m.signals - multiset{sig})
  }

  // ---------------------------------------------------------------------
  // Every step keeps the invariant

  lemma FrameStrandsNobody(m: State, n: State)
    requires NoneStranded(m) && n.d == m.d && n.forest == m.forest
    ensures NoneStranded(n)
  {
    forall b | b in n.forest
      ensures MembersLive(n, b) && CallbacksLive(n, b)
    {
      assert MembersLive(m, b) && CallbacksLive(m, b);
    }
  }

  lemma FrameUpholds(m: State, procs: map<nat, Proc>, signals: multiset<Signal>)
    requires Inv(m) && forall g :: g in procs ==> ProcOk(m, procs[g])
    ensures Upheld(m, m.(procs := procs, signals := signals))
  {
    var n := m.(procs := procs, signals := signals);
    SameForestKeepsProcs(m.(procs := procs), n);
    if NoneStranded(m) {
      FrameStrandsNobody(m, n);
    }
  }

  lemma ProcUpholds(m: State, g: nat, pr: Proc, signals: multiset<Signal>)
    requires Inv(m) && ProcOk(m, pr)
    ensures Upheld(m, SetProc(m.(signals := signals), g, pr))
  {
    FrameUpholds(m, m.procs[g := pr], signals);
  }

  lemma DeliveryStep(m: State, step: D.Step)
    requires Inv(m) && D.Enabled(m.d, step) && !step.DoEnqueue?
    ensures var n := m.(d := D.Next(m.d, step)); Inv(n) && (Spares(m, step) ==> Upheld(m, n))
  {
    DeliveryKeepsCoherent(m, step);
    if NoneStranded(m) && Spares(m, step) {
      DeliveryStrandsNobody(m, step);
    }
  }

  lemma ClaimKeepsInv(m: State, step: Step)
    requires Inv(m) && Enabled(m, step) && step.Claim?
    ensures Upheld(m, Next(m, step))
  {
    var n := m.(d := D.Fetch(m.d, step.w, step.p));
    DeliveryStep(m, D.DoFetch(step.w, step.p));
    D.FetchDeliversAsIs(m.d, step.p);
    assert PayloadOk(m, m.d.copies[step.p.jid].payload);
    ProcUpholds(n, step.g, Next(m, step).procs[step.g], n.signals);
  }

  lemma MarkKeepsInv(m: State, step: Step)
    requires Inv(m) && Enabled(m, step) && step.MarkOutcome?
    ensures Upheld(m, Next(m, step))
  {
    var pr := m.procs[step.g];
    assert ProcOk(m, pr);
    var n := m.(d := D.Mark(m.d, pr.w, pr.raw, pr.stage.fin));
    DeliveryStep(m, D.DoMark(pr.w, pr.raw, pr.stage.fin));
    ProcUpholds(n, step.g, AfterMark(m.d, pr, step.replied), n.signals);
  }

  /** Moving on is justified once the script just run has taken the job off its batch's books. */
  lemma AdvancedOk(n: State, pr: Proc, replied: bool)
    requires ProcOk(n, pr) && pr.stage.Finalizing?
    requires !pr.stage.fin.op.Retry? && replied ==>
      NotMember(n, pr.raw) && (pr.stage.done >= 1 ==> NotCallback(n, pr.raw))
    ensures ProcOk(n, Advanced(pr, replied))
  {
  }

  lemma RecordForProc(m: State, g: nat, b: BatchId, job: Id, r: B.Result)
    requires Inv(m) && g in m.procs
    ensures var n := RecordIn(m, b, job, r).0;
      && Upheld(m, n) && g in n.procs && n.procs[g] == m.procs[g] && ProcOk(n, m.procs[g])
      && (b in n.forest && B.IsTerminal(r) ==> job !in n.forest[b].jobs)
  {
    RecordKeepsInv(m, b, job, r);
    var n := RecordIn(m, b, job, r).0;
    assert n.procs == m.procs;
    assert ProcOk(n, n.procs[g]);
  }

  lemma ResultKeepsInv(m: State, step: Step)
    requires Inv(m) && Enabled(m, step) && step.RecordResult?
    ensures Upheld(m, Next(m, step))
  {
    var pr := m.procs[step.g];
    assert ProcOk(m, pr);
    if pr.raw.batch.None? {
      AdvancedOk(m, pr, step.replied);
      ProcUpholds(m, step.g, Advanced(pr, step.replied), m.signals);
    } else {
      var r := ResultOf(pr.stage.fin.op);
      RecordForProc(m, step.g, pr.raw.batch.value, pr.raw.jid, r);
      var (n, sigs) := RecordIn(m, pr.raw.batch.value, pr.raw.jid, r);
      AdvancedOk(n, pr, step.replied);
      ProcUpholds(n, step.g, Advanced(pr, step.replied), n.signals + if step.replied then sigs else multiset{});
    }
  }

  lemma CallbackKeepsInv(m: State, step: Step)
    requires Inv(m) && Enabled(m, step) && step.RecordCallback?
    ensures Upheld(m, Next(m, step))
  {
    var pr := m.procs[step.g];
    assert ProcOk(m, pr);
    if pr.raw.callbackOf.None? {
      AdvancedOk(m, pr, step.replied);
      ProcUpholds(m, step.g, Advanced(pr, step.replied), m.signals);
    } else {
      var (n, sigs) := RetireIn(m, pr.raw.callbackOf.value, pr.raw.jid);
      RetireKeepsInv(m, pr.raw.callbackOf.value, pr.raw.jid);
      assert n.procs == m.procs;
      assert ProcOk(n, n.procs[step.g]);
      AdvancedOk(n, pr, step.replied);
      ProcUpholds(n, step.g, Advanced(pr, step.replied), n.signals + if step.replied then sigs else multiset{});
    }
  }

  lemma TerminalSpares(m: State, step: Step)
    requires Inv(m) && Enabled(m, step) && step.Terminate? && Harmless(m, step)
    ensures Spares(m, TerminalStep(m.procs[step.g], step.next, step.now))
  {
    assert ProcOk(m, m.procs[step.g]);
  }

  lemma AfterTerminal(n: State, g: nat, replied: bool)
    requires Inv(n) && g in n.procs && n.procs[g].stage.Finalizing?
    ensures Upheld(n, if replied then n.(procs := n.procs - {g}) else SetProc(n, g, Again(n.procs[g])))
  {
    assert ProcOk(n, n.procs[g]);
    FrameUpholds(n, if replied then n.procs - {g} else n.procs[g := Again(n.procs[g])], n.signals);
  }

  lemma TerminateKeepsInv(m: State, step: Step)
    requires Inv(m) && Enabled(m, step) && step.Terminate?
    ensures Inv(Next(m, step)) && (Harmless(m, step) ==> Upheld(m, Next(m, step)))
  {
    var pr := m.procs[step.g];
    var script := TerminalStep(pr, step.next, step.now);
    DeliveryStep(m, script);
    if Harmless(m, step) {
      TerminalSpares(m, step);
    }
    AfterTerminal(m.(d := D.Next(m.d, script)), step.g, step.replied);
  }

  lemma InterruptKeepsInv(m: State, step: Step)
    requires Inv(m) && Enabled(m, step) && step.Interrupt?
    ensures Upheld(m, Next(m, step))
  {
    var pr := m.procs[step.g];
    assert ProcOk(m, pr);
    var n := m.(d := D.Requeue(m.d, pr.w, pr.raw, step.next));
    DeliveryStep(m, D.DoRequeue(pr.w, pr.raw, step.next));
    FrameUpholds(n, n.procs - {step.g}, n.signals);
  }

  lemma SignalKeepsInv(m: State, step: Step)
    requires Inv(m) && Enabled(m, step) && (step.DeliverSignal? || step.LoseSignal? || step.FinishEmpty?)
    ensures Upheld(m, Next(m, step))
  {
    if step.FinishEmpty? {
      RecordKeepsInv(m, step.b, Child(step.b), B.EmptySuccess);
      var n := RecordIn(m, step.b, Child(step.b), B.EmptySuccess).0;
      FrameUpholds(n, n.procs, Next(m, step).signals);
    } else {
      var less := m.(signals := m.signals - multiset{step.sig});
      FrameUpholds(m, m.procs, less.signals);
      if step.DeliverSignal? {
        RecordKeepsInv(less, step.sig.parent, Child(step.sig.child), step.sig.result);
        var n := RecordIn(less, step.sig.parent, Child(step.sig.child), step.sig.result).0;
        FrameUpholds(n, n.procs, Next(m, step).signals);
      }
    }
  }

  // ---------------------------------------------------------------------
  // Client steps

  /** One batch is replaced; it keeps its callbacks, and gains no job that was known. */
  ghost predicate Replaces(m: State, b: BatchId, c: B.Batch) {
    && c.cfg.id == b && c.callbacks == (if b in m.forest then m.forest[b].callbacks else {})
    && c.p.callbackSeq >= (if b in m.forest then m.forest[b].p.callbackSeq else 0)
    && forall id :: id in c.jobs ==> (b in m.forest && id in m.forest[b].jobs) || id.Child?
  }

  lemma ReplacesShape(m: State, b: BatchId, c: B.Batch)
    requires Replaces(m, b, c)
    ensures var n := m.(forest := m.forest[b := c]); Grows(m, n) && Pushes(m, n) && GainsPushed(m, n)
  {
  }

  lemma ReplaceKeepsInv(m: State, b: BatchId, c: B.Batch)
    requires Inv(m) && BI.Inv(c) && Replaces(m, b, c)
    ensures Upheld(m, m.(forest := m.forest[b := c]))
  {
    ReplacesShape(m, b, c);
    ForestUpdated(m.forest, b, c);
    ExtendsUpholds(m, m.(forest := m.forest[b := c]));
  }

  lemma AddChildReplaces(m: State, p: BatchId, c: BatchId)
    requires F.AllInv(m.forest) && p in m.forest
    ensures var b := B.AddChild(m.forest[p], Child(c)); BI.Inv(b) && Replaces(m, p, b)
  {
    BI.StepKeepsInv(m.forest[p], BI.DoAddChild(Child(c)));
  }

  lemma RemoveChildReplaces(m: State, p: BatchId, c: BatchId)
    requires F.AllInv(m.forest) && p in m.forest
    ensures var b := B.RemoveChild(m.forest[p], Child(c)); BI.Inv(b) && Replaces(m, p, b)
  {
    BI.StepKeepsInv(m.forest[p], BI.DoRemoveChild(Child(c)));
  }

  lemma ParentChangedKeepsInv(m: State, child: BatchId, link: bool)
    requires Inv(m) && child in m.forest
    ensures Upheld(m, ParentChanged(m, child, link))
  {
    var parent := m.forest[child].cfg.parent;
    if parent.Some? && parent.value in m.forest {
      AddChildReplaces(m, parent.value, child);
      RemoveChildReplaces(m, parent.value, child);
      ReplaceKeepsInv(m, parent.value, ParentChanged(m, child, link).forest[parent.value]);
    }
  }

  lemma PlainBatchKeepsInv(m: State, step: Step)
    requires Inv(m) && Enabled(m, step) && (step.StoreBatch? || step.InvalidateBatch?)
    ensures Upheld(m, Next(m, step))
  {
    if step.StoreBatch? {
      ReplaceKeepsInv(m, step.cfg.id, B.NewBatch(step.cfg, step.members));
    } else {
      BI.StepKeepsInv(m.forest[step.b], BI.DoInvalidate);
      ReplaceKeepsInv(m, step.b, B.Invalidate(m.forest[step.b]));
    }
  }

  /** One job arrives: nothing else changes. */
  ghost predicate Arrives(m: State, n: State, place: D.Place, p: D.Payload) {
    && p.jid.Job? && n == m.(d := D.Enqueue(m.d, place, p), born := m.born + {p.jid.n})
    && p.jid !in m.d.copies && p.fin.None? && p.callbackOf.None?
    && (place == D.Queue(p.queue) || place.Scheduled?)
  }

  lemma ArrivesGrows(m: State, n: State, place: D.Place, p: D.Payload)
    requires Arrives(m, n, place, p)
    ensures Grows(m, n) && GainsPushed(m, n)
  {
  }

  lemma ArrivesPushes(m: State, n: State, place: D.Place, p: D.Payload)
    requires Arrives(m, n, place, p)
    ensures Pushes(m, n)
  {
    assert PayloadOk(n, p);
  }

  lemma SubmitKeepsInv(m: State, step: Step)
    requires Inv(m) && Enabled(m, step) && step.Submit?
    ensures Upheld(m, Next(m, step))
  {
    var n := Next(m, step);
    assert step.p.jid in m.d.copies ==> PayloadOk(m, m.d.copies[step.p.jid].payload);
    ArrivesGrows(m, n, step.place, step.p);
    ArrivesPushes(m, n, step.place, step.p);
    ExtendsUpholds(m, n);
  }

  function Joined(m: State, b: BatchId, ps: seq<D.Payload>, c: B.Batch): State
    requires forall p, q :: p in ps && q in ps && p.jid == q.jid ==> p == q
  {
    m.(d := PushMembers(m.d, ps), born := m.born + Numbers(ps), forest := m.forest[b := c])
  }

  lemma MemberOf(m: State, b: BatchId, ps: seq<D.Payload>, c: B.Batch, id: Id)
    requires CopiesOk(m) && NewMembers(m, b, ps) && id in MemberIds(ps)
    ensures exists p :: p in ps && p.jid == id
    ensures id !in m.d.copies && !Born(m, id) && id.Job?
    ensures Joined(m, b, ps, c).d.copies[id].payload.batch == Some(b) && HasLiveCopy(Joined(m, b, ps, c).d, id)
  {
    var i :| 0 <= i < |ps| && MemberIds(ps)[i] == id;
    assert ps[i] in ps;
    assert id in m.d.copies ==> PayloadOk(m, m.d.copies[id].payload);
  }

  /** New members are pushed in the same script that tracks them. */
  lemma MembersPushed(m: State, b: BatchId, ps: seq<D.Payload>, c: B.Batch)
    requires CopiesOk(m) && NewMembers(m, b, ps)
    requires c.callbacks == m.forest[b].callbacks && c.p.callbackSeq == m.forest[b].p.callbackSeq
    ensures Pushes(m, Joined(m, b, ps, c))
  {
    var n := Joined(m, b, ps, c);
    forall p | p in ps
      ensures p.jid !in m.d.copies && PayloadOk(n, p)
    {
      assert p.jid in m.d.copies ==> PayloadOk(m, m.d.copies[p.jid].payload);
    }
  }

  lemma MembersGrow(m: State, b: BatchId, ps: seq<D.Payload>, c: B.Batch)
    requires CopiesOk(m) && NewMembers(m, b, ps)
    requires c.jobs == m.forest[b].jobs + B.Tracked(MemberIds(ps))
    requires c.callbacks == m.forest[b].callbacks && c.p.callbackSeq == m.forest[b].p.callbackSeq
    ensures Grows(m, Joined(m, b, ps, c)) && GainsPushed(m, Joined(m, b, ps, c))
  {
    forall id | id in MemberIds(ps)
      ensures !Born(m, id) && HasLiveCopy(Joined(m, b, ps, c).d, id)
      ensures Joined(m, b, ps, c).d.copies[id].payload.batch == Some(b)
    {
      MemberOf(m, b, ps, c, id);
    }
  }

  lemma JoinedKeepsInv(m: State, b: BatchId, ps: seq<D.Payload>, c: B.Batch)
    requires Inv(m) && NewMembers(m, b, ps) && BI.Inv(c)
    requires c.cfg.id == b && c.jobs == m.forest[b].jobs + B.Tracked(MemberIds(ps))
    requires c.callbacks == m.forest[b].callbacks && c.p.callbackSeq == m.forest[b].p.callbackSeq
    ensures Upheld(m, Joined(m, b, ps, c))
  {
    MembersPushed(m, b, ps, c);
    MembersGrow(m, b, ps, c);
    ForestUpdated(m.forest, b, c);
    ExtendsUpholds(m, Joined(m, b, ps, c));
  }

  lemma TrackKeepsInv(m: State, step: Step)
    requires Inv(m) && Enabled(m, step) && step.TrackMembers?
    ensures Upheld(m, Next(m, step))
  {
    var b, ids := m.forest[step.b], MemberIds(step.ps);
    FreshMembers(m, step.b, step.ps);
    BI.StepKeepsInv(b, BI.DoEnqueueJobs(ids));
    JoinedKeepsInv(m, step.b, step.ps, B.EnqueueJobs(b, ids));
  }

  lemma AddKeepsInv(m: State, step: Step)
    requires Inv(m) && Enabled(m, step) && step.AddMembers?
    ensures Upheld(m, Next(m, step))
  {
    var b, ids := m.forest[step.b], MemberIds(step.ps);
    if B.AcceptsJobs(b) {
      FreshMembers(m, step.b, step.ps);
      BI.StepKeepsInv(b, BI.DoAddJobs(ids));
      JoinedKeepsInv(m, step.b, step.ps, B.AddJobs(b, ids));
    }
  }

  lemma FreshMembers(m: State, b: BatchId, ps: seq<D.Payload>)
    requires Inv(m) && NewMembers(m, b, ps)
    ensures B.Tracked(MemberIds(ps)) !! m.forest[b].jobs
  {
    forall id | id in MemberIds(ps)
      ensures id !in m.forest[b].jobs
    {
      var i :| 0 <= i < |ps| && MemberIds(ps)[i] == id;
      assert ps[i] in ps;
      assert id in m.forest[b].jobs ==> Born(m, id);
    }
  }

  // ---------------------------------------------------------------------
  // All steps, all runs

  lemma BackgroundKeepsInv(m: State, step: Step)
    requires Inv(m) && Background(step)
    ensures Upheld(m, m.(d := D.Next(m.d, BackgroundStep(step))))
  {
    DeliveryStep(m, BackgroundStep(step));
  }

  lemma LocalKeepsInv(m: State, step: Step)
    requires Inv(m) && Enabled(m, step) && (step.Decide? || step.Restart? || step.Vanish?)
    ensures Upheld(m, Next(m, step))
  {
    assert ProcOk(m, m.procs[step.g]);
    FrameUpholds(m, Next(m, step).procs, m.signals);
  }

  predicate FromClient(step: Step) {
    step.Submit? || step.StoreBatch? || step.LinkChild? || step.UnlinkChild? || step.TrackMembers? || step.AddMembers?
    || step.InvalidateBatch?
  }

  lemma ClientKeepsInv(m: State, step: Step)
    requires Inv(m) && Enabled(m, step) && FromClient(step)
    ensures Upheld(m, Next(m, step))
  {
    if step.Submit? {
      SubmitKeepsInv(m, step);
    } else if step.StoreBatch? || step.InvalidateBatch? {
      PlainBatchKeepsInv(m, step);
    } else if step.LinkChild? || step.UnlinkChild? {
      ParentChangedKeepsInv(m, step.child, step.LinkChild?);
    } else if step.TrackMembers? {
      TrackKeepsInv(m, step);
    } else {
      AddKeepsInv(m, step);
    }
  }

  predicate FromGoroutine(step: Step) {
    step.Claim? || step.MarkOutcome? || step.RecordResult? || step.RecordCallback? || step.Terminate? || step.Interrupt?
  }

  lemma ScriptsKeepInv(m: State, step: Step)
    requires Inv(m) && Enabled(m, step)
    requires step.Claim? || step.MarkOutcome? || step.RecordResult? || step.RecordCallback?
    ensures Upheld(m, Next(m, step))
  {
    if step.Claim? {
      ClaimKeepsInv(m, step);
    } else if step.MarkOutcome? {
      MarkKeepsInv(m, step);
    } else if step.RecordResult? {
      ResultKeepsInv(m, step);
    } else {
      CallbackKeepsInv(m, step);
    }
  }

  lemma GoroutineKeepsInv(m: State, step: Step)
    requires Inv(m) && Enabled(m, step) && FromGoroutine(step)
    ensures Inv(Next(m, step)) && (Harmless(m, step) ==> Upheld(m, Next(m, step)))
  {
    if step.Terminate? {
      TerminateKeepsInv(m, step);
    } else if step.Interrupt? {
      InterruptKeepsInv(m, step);
    } else {
      ScriptsKeepInv(m, step);
    }
  }

  /** Every step by anyone keeps the invariant, and a harmless one strands nobody. */
  lemma StepKeepsInv(m: State, step: Step)
    requires Inv(m) && Enabled(m, step)
    ensures Inv(Next(m, step)) && (Harmless(m, step) ==> Upheld(m, Next(m, step)))
  {
    if FromClient(step) {
      ClientKeepsInv(m, step);
    } else if FromGoroutine(step) {
      GoroutineKeepsInv(m, step);
    } else if step.Decide? || step.Restart? || step.Vanish? {
      LocalKeepsInv(m, step);
    } else if Background(step) {
      BackgroundKeepsInv(m, step);
    } else {
      SignalKeepsInv(m, step);
    }
  }

  ghost predicate Possible(m: State, steps: seq<Step>)
    decreases |steps|
  {
    steps == [] || (Enabled(m, steps[0]) && Possible(Next(m, steps[0]), steps[1..]))
  }

  ghost function Run(m: State, steps: seq<Step>): State
    requires Possible(m, steps)
    decreases |steps|
  {
    if steps == [] then m else Run(Next(m, steps[0]), steps[1..])
  }

  /** No step of the run is a retry without a time that finds a job some batch counts on. */
  ghost predicate AllHarmless(m: State, steps: seq<Step>)
    requires Possible(m, steps)
    decreases |steps|
  {
    steps != [] ==> Harmless(m, steps[0]) && AllHarmless(Next(m, steps[0]), steps[1..])
  }

  lemma {:induction false} RunKeepsInv(m: State, steps: seq<Step>)
    requires Inv(m) && Possible(m, steps)
    ensures Inv(Run(m, steps)) && (AllHarmless(m, steps) ==> Upheld(m, Run(m, steps)))
    decreases |steps|
  {
    if steps != [] {
      StepKeepsInv(m, steps[0]);
      RunKeepsInv(Next(m, steps[0]), steps[1..]);
    }
  }

  /** In every state reached harmlessly, every job and callback a batch waits for has
      its one copy queued, in flight or waiting to be retried. */
  lemma NoStrandedBatch(steps: seq<Step>, b: BatchId, id: Id)
    requires Possible(INIT, steps) && AllHarmless(INIT, steps) && b in Run(INIT, steps).forest
    requires (id in Run(INIT, steps).forest[b].jobs && !id.Child?) || id in Run(INIT, steps).forest[b].callbacks
    ensures HasLiveCopy(Run(INIT, steps).d, id) && Run(INIT, steps).d.copies[id].payload.jid == id
  {
    RunKeepsInv(INIT, steps);
    assert MembersLive(Run(INIT, steps), b) && CallbacksLive(Run(INIT, steps), b);
  }

  /** A harmful step removes a job without touching the batch that counts on it. */
  lemma HarmfulDrops(m: State, step: Step)
    requires Enabled(m, step) && !Harmless(m, step)
    ensures Next(m, step).forest == m.forest && m.procs[step.g].raw.jid !in Next(m, step).d.copies
  {
  }

  lemma HarmfulStrands(m: State, n: State, p: D.Payload)
    requires n.forest == m.forest && p.jid !in n.d.copies && !(NotMember(m, p) && NotCallback(m, p)) && !p.jid.Child?
    ensures !NoneStranded(n)
  {
    var b := if NotMember(m, p) then p.callbackOf.value else p.batch.value;
    assert !(MembersLive(n, b) && CallbacksLive(n, b));
  }

  /** And a harmful step always strands someone: the condition is exact. */
  lemma HarmlessIsExact(m: State, step: Step)
    requires Inv(m) && NoneStranded(m) && Enabled(m, step)
    ensures NoneStranded(Next(m, step)) <==> Harmless(m, step)
  {
    if Harmless(m, step) {
      StepKeepsInv(m, step);
    } else {
      var p := m.procs[step.g].raw;
      assert ProcOk(m, m.procs[step.g]);
      HarmfulDrops(m, step);
      HarmfulStrands(m, Next(m, step), p);
    }
  }

  /** Some run leads from m to n. */
  ghost predicate Reaches(m: State, n: State) {
    exists steps: seq<Step> :: Possible(m, steps) && Run(m, steps) == n
  }

  lemma ReachesItself(m: State)
    ensures Reaches(m, m)
  {
    assert Run(m, []) == m;
  }

  lemma StepReaches(m: State, step: Step, n: State, end: State)
    requires Enabled(m, step) && Next(m, step) == n && Reaches(n, end)
    ensures Reaches(m, end)
  {
    var rest: seq<Step> :| Possible(n, rest) && Run(n, rest) == end;
    var steps := [step] + rest;
    assert steps[1..] == rest;
    assert Run(m, steps) == end;
  }
}
