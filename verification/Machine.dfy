/**
  Clients, worker goroutines, reaper and scheduler acting on shared Redis state,
  one script at a time.  A goroutine keeps its own copy of the job it claimed, so
  it may be acting on a payload that has long moved on; it may vanish between any
  two scripts, and a script may take effect although its reply is lost.
 */
module Machine {
  import opened Ids
  import B = Batches
  import BI = BatchInvariants
  import D = Delivery
  import F = Forests

  /** How far a goroutine is with its job; `done` counts the finalizer's scripts that replied. */
  datatype Stage =
    | Running
    | Deciding(fin: D.Finalization)
    | Finalizing(fin: D.Finalization, done: nat)

  datatype Proc = Proc(w: WorkerId, raw: D.Payload, stage: Stage)

  /** A settled batch on its way to being recorded in its parent. */
  datatype Signal = Signal(child: BatchId, parent: BatchId, result: B.Result)

  datatype State = State(
    d: D.State, forest: F.Forest, procs: map<nat, Proc>, signals: multiset<Signal>,
    born: set<nat>)  // the numbers of all jobs ever accepted

  const INIT := State(D.EMPTY, map[], map[], multiset{}, {})

  // ---------------------------------------------------------------------
  // The scripts that touch a batch

  function CallbackPayload(cfg: B.Config, id: Id): D.Payload {
    D.Payload(id, cfg.callbackQueue, 0, None, None, Some(cfg.id), None, 0)
  }

  function PushCallbacks(d: D.State, cfg: B.Config, ids: seq<Id>): D.State {
    d.(copies := d.copies + map id | id in ids :: D.Copy(D.Queue(cfg.callbackQueue), CallbackPayload(cfg, id)))
  }

  function SignalsOf(b: B.Batch, fires: bool): multiset<Signal> {
    if fires && b.cfg.parent.Some?
    then multiset{Signal(b.cfg.id, b.cfg.parent.value, F.ParentResult(b.p.dead, b.p.invalidated))}
    else multiset{}
  }

  /** batch_complete with its callback pushes, and the signal its reply asks for. */
  function RecordIn(m: State, b: BatchId, job: Id, r: B.Result): (State, multiset<Signal>) {
    if b !in m.forest then (m, multiset{})
    else
      var (c, reply) := B.Complete(m.forest[b], job, r);
      (m.(forest := m.forest[b := c],
          d := if reply.Recorded? then PushCallbacks(m.d, c.cfg, reply.enqueued) else m.d),
       SignalsOf(c, reply.Recorded? && reply.completedNow))
  }

  /** batch_callback_complete */
  function RetireIn(m: State, b: BatchId, cb: Id): (State, multiset<Signal>) {
    if b !in m.forest then (m, multiset{})
    else
      var (c, reply) := B.CallbackComplete(m.forest[b], cb);
      (m.(forest := m.forest[b := c]), SignalsOf(c, reply.shouldPropagate))
  }

  // ---------------------------------------------------------------------
  // The invariant

  predicate Born(m: State, id: Id) {
    match id
    case Job(n) => n in m.born
    case Callback(b, n) => b in m.forest && 1 <= n <= m.forest[b].p.callbackSeq
    case Child(_) => false
  }

  predicate PayloadOk(m: State, p: D.Payload) {
    && Born(m, p.jid)
    && p.callbackOf == (if p.jid.Callback? then Some(p.jid.batch) else None)
  }

  predicate NotMember(m: State, p: D.Payload) {
    p.batch.Some? && p.batch.value in m.forest ==> p.jid !in m.forest[p.batch.value].jobs
  }

  predicate NotCallback(m: State, p: D.Payload) {
    p.callbackOf.Some? && p.callbackOf.value in m.forest ==> p.jid !in m.forest[p.callbackOf.value].callbacks
  }

  /** What a goroutine's progress guarantees about the shared state. */
  ghost predicate ProcOk(m: State, pr: Proc) {
    && PayloadOk(m, pr.raw)
    && (pr.raw.fin.Some? ==> pr.stage.Finalizing? && pr.stage.fin == pr.raw.fin.value)
    && (pr.stage.Finalizing? && !pr.stage.fin.op.Retry? ==>
          && (pr.stage.done >= 1 ==> NotMember(m, pr.raw))
          && (pr.stage.done >= 2 ==> NotCallback(m, pr.raw)))
  }

  predicate Waiting(place: D.Place) {
    place.Queue? || place.InFlight? || place.Retrying?
  }

  /** The job will be delivered: its one copy is queued, in flight or waiting for a retry. */
  ghost predicate HasLiveCopy(d: D.State, id: Id) {
    id in d.copies && Waiting(d.copies[id].place)
  }

  ghost predicate MembersLive(m: State, b: BatchId)
    requires b in m.forest
  {
    forall id :: id in m.forest[b].jobs && !id.Child? ==>
      HasLiveCopy(m.d, id) && m.d.copies[id].payload.batch == Some(b)
  }

  ghost predicate CallbacksLive(m: State, b: BatchId)
    requires b in m.forest
  {
    forall id :: id in m.forest[b].callbacks ==> id.Callback? && id.batch == b && HasLiveCopy(m.d, id)
  }

  ghost predicate CopiesOk(m: State) {
    forall id :: id in m.d.copies ==> m.d.copies[id].payload.jid == id && PayloadOk(m, m.d.copies[id].payload)
  }

  ghost predicate ProcsOk(m: State) {
    forall g :: g in m.procs ==> ProcOk(m, m.procs[g])
  }

  /** Every job that a batch waits for has been accepted at some time. */
  ghost predicate MembersKnown(m: State) {
    forall b, id :: b in m.forest && id in m.forest[b].jobs && !id.Child? ==> Born(m, id)
  }

  ghost predicate Coherent(m: State) {
    D.Inv(m.d) && CopiesOk(m) && ProcsOk(m) && MembersKnown(m)
  }

  /** What every step keeps. */
  ghost predicate Inv(m: State) {
    F.AllInv(m.forest) && Coherent(m)
  }

  /** No batch waits for a job or callback that cannot be delivered. */
  ghost predicate NoneStranded(m: State) {
    forall b :: b in m.forest ==> MembersLive(m, b) && CallbacksLive(m, b)
  }

  /** The invariant holds after a step, and the step strands nobody. */
  ghost predicate Upheld(m: State, n: State) {
    Inv(n) && (NoneStranded(m) ==> NoneStranded(n))
  }

  // ---------------------------------------------------------------------
  // Delivery scripts keep it

  /** The script ends no job that a batch counts on. */
  ghost predicate Spares(m: State, step: D.Step) {
    (step.DoAck? || step.DoBury?) && D.At(m.d, D.InFlight(step.w), step.p) ==>
      NotMember(m, step.p) && NotCallback(m, step.p)
  }

  lemma DeliveryKeepsCopies(m: State, step: D.Step)
    requires Coherent(m) && D.Enabled(m.d, step) && !step.DoEnqueue?
    ensures CopiesOk(m.(d := D.Next(m.d, step)))
  {
    var n := m.(d := D.Next(m.d, step));
    forall id | id in n.d.copies
      ensures n.d.copies[id].payload.jid == id && PayloadOk(n, n.d.copies[id].payload)
    {
      D.MarkersComeFromMarks(m.d, step, id);
      D.OnlyAckRemoves(m.d, step, id);
      assert PayloadOk(m, m.d.copies[id].payload);
    }
  }

  /** Whatever becomes of the copies, a goroutine's progress speaks of batches only. */
  lemma SameForestKeepsProcs(m: State, n: State)
    requires ProcsOk(m) && MembersKnown(m)
    requires n.procs == m.procs && n.forest == m.forest && n.born == m.born
    ensures ProcsOk(n) && MembersKnown(n)
  {
    forall g | g in n.procs
      ensures ProcOk(n, n.procs[g])
    {
      assert ProcOk(m, m.procs[g]);
    }
    forall b, id | b in n.forest && id in n.forest[b].jobs && !id.Child?
      ensures Born(n, id)
    {
      assert Born(m, id);
    }
  }

  lemma DeliveryKeepsCoherent(m: State, step: D.Step)
    requires Coherent(m) && D.Enabled(m.d, step) && !step.DoEnqueue?
    ensures Coherent(m.(d := D.Next(m.d, step)))
  {
    D.StepKeepsInv(m.d, step);
    DeliveryKeepsCopies(m, step);
    SameForestKeepsProcs(m, m.(d := D.Next(m.d, step)));
  }

  lemma StaysWaiting(d: D.State, step: D.Step, id: Id)
    requires D.Inv(d) && D.Enabled(d, step) && !step.DoEnqueue? && HasLiveCopy(d, id)
    requires (step.DoAck? || step.DoBury?) && D.At(d, D.InFlight(step.w), step.p) ==> id != step.p.jid
    ensures HasLiveCopy(D.Next(d, step), id)
    ensures D.Next(d, step).copies[id].payload.batch == d.copies[id].payload.batch
  {
    assert D.CopyOk(d, id);
    D.OnlyAckRemoves(d, step, id);
  }

  /** The job that an acknowledgement ends is not one a batch counts on. */
  lemma KeptApart(m: State, step: D.Step, b: BatchId, id: Id)
    requires CopiesOk(m) && NoneStranded(m) && Spares(m, step) && b in m.forest
    requires (id in m.forest[b].jobs && !id.Child?) || id in m.forest[b].callbacks
    ensures HasLiveCopy(m.d, id)
    ensures (step.DoAck? || step.DoBury?) && D.At(m.d, D.InFlight(step.w), step.p) ==> id != step.p.jid
  {
    assert MembersLive(m, b) && CallbacksLive(m, b);
    assert PayloadOk(m, m.d.copies[id].payload);
  }

  lemma DeliveryStrandsNobody(m: State, step: D.Step)
    requires Coherent(m) && D.Enabled(m.d, step) && !step.DoEnqueue? && Spares(m, step) && NoneStranded(m)
    ensures NoneStranded(m.(d := D.Next(m.d, step)))
  {
    var n := m.(d := D.Next(m.d, step));
    forall b | b in n.forest
      ensures MembersLive(n, b) && CallbacksLive(n, b)
    {
      assert MembersLive(m, b) && CallbacksLive(m, b);
      forall id | (id in m.forest[b].jobs && !id.Child?) || id in m.forest[b].callbacks
        ensures HasLiveCopy(n.d, id) && n.d.copies[id].payload.batch == m.d.copies[id].payload.batch
      {
        KeptApart(m, step, b, id);
        StaysWaiting(m.d, step, id);
      }
    }
  }

  // ---------------------------------------------------------------------
  // Batch scripts keep it

  /** From m to n, batches only gain members and callbacks with ids that were unknown in m. */
  ghost predicate Grows(m: State, n: State) {
    && m.forest.Keys <= n.forest.Keys && m.born <= n.born
    && (forall b :: b in m.forest ==> m.forest[b].p.callbackSeq <= n.forest[b].p.callbackSeq)
    && (forall b, id :: b in n.forest && id in n.forest[b].jobs ==>
          (b in m.forest && id in m.forest[b].jobs) || !Born(m, id))
    && (forall b, id :: b in n.forest && id in n.forest[b].callbacks ==>
          (b in m.forest && id in m.forest[b].callbacks) || !Born(m, id))
  }

  lemma GrowsKeepsProcs(m: State, n: State)
    requires Grows(m, n) && ProcsOk(m) && n.procs == m.procs
    ensures ProcsOk(n)
  {
    forall g | g in n.procs
      ensures ProcOk(n, n.procs[g])
    {
      assert ProcOk(m, m.procs[g]);
    }
  }

  lemma GrowsKeepsPayloads(m: State, n: State, p: D.Payload)
    requires Grows(m, n) && PayloadOk(m, p)
    ensures PayloadOk(n, p)
  {
  }

  /** The copies of m are untouched in n and the new ones are well-formed, unmarked, and queued or scheduled. */
  ghost predicate Pushes(m: State, n: State) {
    && n.d.trust == m.d.trust
    && (forall id :: id in m.d.copies ==> id in n.d.copies && n.d.copies[id] == m.d.copies[id])
    && (forall id :: id in n.d.copies && id !in m.d.copies ==>
          && n.d.copies[id].payload.jid == id && n.d.copies[id].payload.fin.None?
          && (n.d.copies[id].place == D.Queue(n.d.copies[id].payload.queue) || n.d.copies[id].place.Scheduled?)
          && PayloadOk(n, n.d.copies[id].payload))
  }

  lemma PushesKeepsCopies(m: State, n: State)
    requires D.Inv(m.d) && CopiesOk(m) && Grows(m, n) && Pushes(m, n)
    ensures D.Inv(n.d) && CopiesOk(n)
  {
    forall id | id in n.d.copies
      ensures n.d.copies[id].payload.jid == id && PayloadOk(n, n.d.copies[id].payload) && D.CopyOk(n.d, id)
    {
      if id in m.d.copies {
        assert D.CopyOk(m.d, id);
        GrowsKeepsPayloads(m, n, m.d.copies[id].payload);
      }
    }
    forall id
      ensures D.TrustOk(n.d, id)
    {
      assert D.TrustOk(m.d, id);
    }
  }

  /** Every id a batch gained from m to n was pushed with it. */
  ghost predicate GainsPushed(m: State, n: State) {
    && (forall b, id ::
          (b in n.forest && id in n.forest[b].jobs && !id.Child? && !(b in m.forest && id in m.forest[b].jobs)) ==>
            HasLiveCopy(n.d, id) && n.d.copies[id].payload.batch == Some(b))
    && (forall b, id ::
          (b in n.forest && id in n.forest[b].callbacks && !(b in m.forest && id in m.forest[b].callbacks)) ==>
            id.Callback? && id.batch == b && HasLiveCopy(n.d, id))
  }

  /** The step from m to n changes batches, and pushes the jobs that the batches gain. */
  ghost predicate Extends(m: State, n: State) {
    n.procs == m.procs && Grows(m, n) && Pushes(m, n) && GainsPushed(m, n)
  }

  lemma GainsAreKnown(m: State, n: State)
    requires MembersKnown(m) && CopiesOk(n) && Grows(m, n) && GainsPushed(m, n)
    ensures MembersKnown(n)
  {
    forall b, id | b in n.forest && id in n.forest[b].jobs && !id.Child?
      ensures Born(n, id)
    {
      if b in m.forest && id in m.forest[b].jobs {
        assert Born(m, id);
      } else {
        assert PayloadOk(n, n.d.copies[id].payload);
      }
    }
  }

  lemma BatchStepKeepsCoherent(m: State, n: State)
    requires Coherent(m) && Extends(m, n)
    ensures Coherent(n)
  {
    PushesKeepsCopies(m, n);
    GrowsKeepsProcs(m, n);
    GainsAreKnown(m, n);
  }

  lemma BatchStepStrandsNobody(m: State, n: State)
    requires NoneStranded(m) && Extends(m, n)
    ensures NoneStranded(n)
  {
    forall b | b in n.forest
      ensures MembersLive(n, b) && CallbacksLive(n, b)
    {
      assert b in m.forest ==> MembersLive(m, b) && CallbacksLive(m, b);
    }
  }

  lemma ExtendsUpholds(m: State, n: State)
    requires Coherent(m) && F.AllInv(n.forest) && Extends(m, n)
    ensures Upheld(m, n)
  {
    BatchStepKeepsCoherent(m, n);
    if NoneStranded(m) {
      BatchStepStrandsNobody(m, n);
    }
  }

  /** One batch moves on: it tracks no new members and issues the callbacks that are pushed with it. */
  ghost predicate MovesOn(m: State, n: State, b: BatchId, c: B.Batch, count: nat) {
    && b in m.forest && c.cfg == m.forest[b].cfg && c.cfg.id == b && c.jobs <= m.forest[b].jobs
    && c.p.callbackSeq == m.forest[b].p.callbackSeq + count
    && (var ids := B.CallbackIds(b, m.forest[b].p.callbackSeq, count);
        c.callbacks <= m.forest[b].callbacks + B.Tracked(ids) && n.d == PushCallbacks(m.d, c.cfg, ids))
    && n == m.(forest := m.forest[b := c], d := n.d)
  }

  lemma FreshCallbacks(m: State, b: BatchId, count: nat, id: Id)
    requires CopiesOk(m) && b in m.forest && id in B.CallbackIds(b, m.forest[b].p.callbackSeq, count)
    ensures id.Callback? && id.batch == b
    ensures m.forest[b].p.callbackSeq < id.n <= m.forest[b].p.callbackSeq + count
    ensures !Born(m, id) && id !in m.d.copies
  {
    assert id in m.d.copies ==> PayloadOk(m, m.d.copies[id].payload);
  }

  lemma MovesOnGrows(m: State, n: State, b: BatchId, c: B.Batch, count: nat)
    requires CopiesOk(m) && MovesOn(m, n, b, c, count)
    ensures Grows(m, n)
  {
    forall id | id in B.CallbackIds(b, m.forest[b].p.callbackSeq, count)
      ensures !Born(m, id)
    {
      FreshCallbacks(m, b, count, id);
    }
  }

  lemma MovesOnPushes(m: State, n: State, b: BatchId, c: B.Batch, count: nat)
    requires CopiesOk(m) && MovesOn(m, n, b, c, count)
    ensures Pushes(m, n) && GainsPushed(m, n)
  {
    forall id | id in B.CallbackIds(b, m.forest[b].p.callbackSeq, count)
      ensures id.Callback? && id.batch == b && id !in m.d.copies && PayloadOk(n, CallbackPayload(c.cfg, id))
    {
      FreshCallbacks(m, b, count, id);
    }
  }

  /** What a completion or callback script does to the parts of a batch that the machine looks at. */
  ghost predicate Shape(b: B.Batch, c: B.Batch, enqueued: seq<Id>) {
    && c.cfg == b.cfg && c.jobs <= b.jobs
    && c.p.callbackSeq == b.p.callbackSeq + |enqueued|
    && enqueued == B.CallbackIds(b.cfg.id, b.p.callbackSeq, |enqueued|)
    && c.callbacks <= b.callbacks + B.Tracked(enqueued)
  }

  function Enqueued(reply: B.CompleteReply): seq<Id> {
    if reply.Recorded? then reply.enqueued else []
  }

  lemma RecordShape(b: B.Batch, job: Id, r: B.Result)
    ensures Shape(b, B.Record(b, job, r), B.CallbackIds(b.cfg.id, b.p.callbackSeq, |B.FiredKinds(b, r)|))
    ensures B.IsTerminal(r) ==> job !in B.Record(b, job, r).jobs
  {
  }

  lemma CompleteShape(b: B.Batch, job: Id, r: B.Result)
    ensures var (c, reply) := B.Complete(b, job, r);
      Shape(b, c, Enqueued(reply)) && (B.IsTerminal(r) ==> job !in c.jobs)
  {
    if B.Refusal(b, job, r) == None {
      RecordShape(b, job, r);
    } else {
      assert B.CallbackIds(b.cfg.id, b.p.callbackSeq, 0) == [];
    }
  }

  /** One batch takes a new value that a completion or callback script gives it. */
  function Updated(m: State, b: BatchId, c: B.Batch, enqueued: seq<Id>): State {
    m.(forest := m.forest[b := c], d := PushCallbacks(m.d, c.cfg, enqueued))
  }

  lemma ShapeMovesOn(m: State, b: BatchId, c: B.Batch, enqueued: seq<Id>)
    requires F.AllInv(m.forest) && b in m.forest && Shape(m.forest[b], c, enqueued)
    ensures MovesOn(m, Updated(m, b, c, enqueued), b, c, |enqueued|)
  {
    assert m.forest[b].cfg.id == b;
  }

  lemma ForestUpdated(f: F.Forest, b: BatchId, c: B.Batch)
    requires F.AllInv(f) && BI.Inv(c) && c.cfg.id == b
    ensures F.AllInv(f[b := c])
  {
  }

  lemma ShapeUpholds(m: State, b: BatchId, c: B.Batch, enqueued: seq<Id>)
    requires Inv(m) && b in m.forest && BI.Inv(c) && Shape(m.forest[b], c, enqueued)
    ensures Upheld(m, Updated(m, b, c, enqueued))
  {
    var n := Updated(m, b, c, enqueued);
    ShapeMovesOn(m, b, c, enqueued);
    MovesOnGrows(m, n, b, c, |enqueued|);
    MovesOnPushes(m, n, b, c, |enqueued|);
    ForestUpdated(m.forest, b, c);
    ExtendsUpholds(m, n);
  }

  lemma PushNothing(d: D.State, cfg: B.Config)
    ensures PushCallbacks(d, cfg, []) == d
  {
  }

  lemma RecordKeepsInv(m: State, b: BatchId, job: Id, r: B.Result)
    requires Inv(m)
    ensures Upheld(m, RecordIn(m, b, job, r).0)
    ensures b in m.forest && B.IsTerminal(r) ==> job !in RecordIn(m, b, job, r).0.forest[b].jobs
  {
    if b in m.forest {
      var (c, reply) := B.Complete(m.forest[b], job, r);
      BI.StepKeepsInv(m.forest[b], BI.DoComplete(job, r));
      CompleteShape(m.forest[b], job, r);
      ShapeUpholds(m, b, c, Enqueued(reply));
      PushNothing(m.d, c.cfg);
      assert RecordIn(m, b, job, r).0 == Updated(m, b, c, Enqueued(reply));
    }
  }

  lemma RetireKeepsInv(m: State, b: BatchId, cb: Id)
    requires Inv(m)
    ensures Upheld(m, RetireIn(m, b, cb).0)
    ensures b in m.forest ==> cb !in RetireIn(m, b, cb).0.forest[b].callbacks
  {
    if b in m.forest {
      var c := B.CallbackComplete(m.forest[b], cb).0;
      BI.StepKeepsInv(m.forest[b], BI.DoCallback(cb));
      assert B.CallbackIds(b, m.forest[b].p.callbackSeq, 0) == [];
      ShapeUpholds(m, b, c, []);
      PushNothing(m.d, c.cfg);
      assert RetireIn(m, b, cb).0 == Updated(m, b, c, []);
    }
  }
}
