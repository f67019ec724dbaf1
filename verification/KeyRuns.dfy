/**
  The combined machine on the Redis keys themselves: each of its steps is a script on lists and
  sorted sets, the batch scripts push to the queues, and the lists hold what a batch waits for.
 */
module KeyRuns {
  import opened Ids
  import opened Machine
  import opened Workers
  import opened Outcomes
  import opened DeliveryStore
  import opened Commands
  import B = Batches
  import D = Delivery

  // ---------------------------------------------------------------------
  // Pushes by batch scripts

  /** LPUSH of each job to its queue. */
  function Pushed(c: Store, ps: seq<D.Payload>): Store {
    c.(queues := Returned(c.queues, ps))
  }

  /** The state t has the copies of s, and the jobs ps in their queues. */
  ghost predicate Enters(s: D.State, t: D.State, ps: seq<D.Payload>) {
    && t.trust == s.trust && t.unique == s.unique
    && (forall pl, x :: D.At(t, pl, x) <==> D.At(s, pl, x) || (x in ps && pl == D.Queue(x.queue)))
  }

  /** The jobs ps are new to the keys, and each is listed once. */
  ghost predicate NewTo(c: Store, ps: seq<D.Payload>) {
    && NoRepeat(ps) && (forall k :: NoRepeat(Get(c.queues, k)))
    && (forall k, x, p :: x in Get(c.queues, k) && p in ps ==> x.jid != p.jid)
  }

  lemma FreshIsNew(c: Store, s: D.State, ps: seq<D.Payload>)
    requires Represents(c, s) && NoRepeat(ps) && (forall p :: p in ps ==> p.jid !in s.copies)
    ensures NewTo(c, ps)
  {
    forall k, x, p | x in Get(c.queues, k) && p in ps
      ensures x.jid != p.jid
    {
      assert Holds(c, D.Queue(k), x);
    }
  }

  lemma PushedHolds(c: Store, ps: seq<D.Payload>, pl: D.Place, x: D.Payload)
    requires NewTo(c, ps)
    ensures Holds(Pushed(c, ps), pl, x) <==> Holds(c, pl, x) || (x in ps && pl == D.Queue(x.queue))
  {
    if pl.Queue? {
      ReturnedSpec(c.queues, ps, pl.q);
    }
  }

  lemma PushedRepresents(c: Store, s: D.State, t: D.State, ps: seq<D.Payload>)
    requires Represents(c, s) && NewTo(c, ps) && Enters(s, t, ps)
    ensures Represents(Pushed(c, ps), t)
  {
    forall k
      ensures NoRepeat(Get(Pushed(c, ps).queues, k))
    {
      ReturnedSpec(c.queues, ps, k);
    }
    forall pl, x
      ensures Holds(Pushed(c, ps), pl, x) <==> D.At(t, pl, x)
    {
      PushedHolds(c, ps, pl, x);
      assert Holds(c, pl, x) <==> D.At(s, pl, x);
    }
  }

  function CallbackPayloads(cfg: B.Config, ids: seq<Id>): seq<D.Payload> {
    seq(|ids|, i requires 0 <= i < |ids| => CallbackPayload(cfg, ids[i]))
  }

  /** The callback jobs that recording a result pushes. */
  function Issues(m: State, b: BatchId, job: Id, r: B.Result): seq<D.Payload> {
    if b !in m.forest then []
    else CallbackPayloads(m.forest[b].cfg, Enqueued(B.Complete(m.forest[b], job, r).1))
  }

  lemma CallbackListed(cfg: B.Config, ids: seq<Id>, x: D.Payload)
    ensures x in CallbackPayloads(cfg, ids) <==> x.jid in ids && x == CallbackPayload(cfg, x.jid)
  {
    if x.jid in ids && x == CallbackPayload(cfg, x.jid) {
      var i :| 0 <= i < |ids| && ids[i] == x.jid;
      assert CallbackPayloads(cfg, ids)[i] == x;
    }
  }

  lemma CallbacksEnter(m: State, b: BatchId, cfg: B.Config, ids: seq<Id>)
    requires CopiesOk(m) && b in m.forest && ids == B.CallbackIds(b, m.forest[b].p.callbackSeq, |ids|)
    ensures Enters(m.d, PushCallbacks(m.d, cfg, ids), CallbackPayloads(cfg, ids))
    ensures NoRepeat(CallbackPayloads(cfg, ids))
    ensures forall p :: p in CallbackPayloads(cfg, ids) ==> p.jid !in m.d.copies
  {
    forall id | id in ids
      ensures id !in m.d.copies
    {
      FreshCallbacks(m, b, |ids|, id);
    }
    forall pl, x
      ensures D.At(PushCallbacks(m.d, cfg, ids), pl, x)
        <==> D.At(m.d, pl, x) || (x in CallbackPayloads(cfg, ids) && pl == D.Queue(x.queue))
    {
      CallbackListed(cfg, ids, x);
    }
    forall p | p in CallbackPayloads(cfg, ids)
      ensures p.jid !in m.d.copies
    {
      CallbackListed(cfg, ids, p);
    }
  }

  lemma RecordOnKeys(m: State, b: BatchId, job: Id, r: B.Result, c: Store)
    requires Inv(m) && Represents(c, m.d)
    ensures Represents(Pushed(c, Issues(m, b, job, r)), RecordIn(m, b, job, r).0.d)
  {
    if b in m.forest {
      var (n, reply) := B.Complete(m.forest[b], job, r);
      var cfg, ids := m.forest[b].cfg, Enqueued(reply);
      CompleteShape(m.forest[b], job, r);
      CallbacksEnter(m, b, cfg, ids);
      FreshIsNew(c, m.d, CallbackPayloads(cfg, ids));
      PushedRepresents(c, m.d, PushCallbacks(m.d, cfg, ids), CallbackPayloads(cfg, ids));
      PushNothing(m.d, cfg);
      assert RecordIn(m, b, job, r).0.d == PushCallbacks(m.d, cfg, ids);
    } else {
      assert Pushed(c, []) == c;
    }
  }

  lemma MembersEnter(m: State, b: BatchId, ps: seq<D.Payload>)
    requires CopiesOk(m) && NewMembers(m, b, ps)
    ensures Enters(m.d, PushMembers(m.d, ps), ps) && NoRepeat(ps)
    ensures forall p :: p in ps ==> p.jid !in m.d.copies
  {
    forall p | p in ps
      ensures p.jid !in m.d.copies
    {
      assert p.jid in m.d.copies ==> PayloadOk(m, m.d.copies[p.jid].payload);
    }
    forall i, j | 0 <= i < j < |ps|
      ensures ps[i].jid != ps[j].jid
    {
      assert MemberIds(ps)[i] != MemberIds(ps)[j];
    }
  }

  lemma MembersOnKeys(m: State, b: BatchId, ps: seq<D.Payload>, c: Store)
    requires CopiesOk(m) && Represents(c, m.d) && NewMembers(m, b, ps)
    ensures Represents(Pushed(c, ps), PushMembers(m.d, ps))
  {
    MembersEnter(m, b, ps);
    FreshIsNew(c, m.d, ps);
    PushedRepresents(c, m.d, PushMembers(m.d, ps), ps);
  }

  // ---------------------------------------------------------------------
  // Every step on the keys

  /** The script call of a delivery step that is neither an enqueue nor a promotion. */
  function CallOf(script: D.Step): Command
    requires !script.DoEnqueue? && !script.DoPromote?
  {
    match script
    case DoFetch(w, p) => CallFetch(p.queue, w)
    case DoMark(w, p, f) => CallMark(w, p, f)
    case DoAck(w, p, unlock) => CallAck(w, p, unlock)
    case DoRetry(w, p, at, next) => CallRetry(w, p, at, next)
    case DoBury(w, p, at, next) => CallBury(w, p, at, next)
    case DoRequeue(w, p, next) => CallRequeue(w, p, next)
    case DoReap(w) => CallReap(w)
    case DoExpire(key) => KeyExpires(key)
  }

  /** A fetch takes the job at the tail of the queue. */
  predicate AtTail(c: Store, p: D.Payload) {
    var l := Get(c.queues, p.queue);
    l != [] && l[|l| - 1] == p
  }

  /** The keys d are what the delivery script makes of the keys c. */
  ghost predicate ScriptOnKeys(script: D.Step, c: Store, d: Store) {
    if script.DoEnqueue? then Performs(CallEnqueue(script.place, script.p), c, d)
    else if script.DoPromote? then
      exists fromRetry: bool, limit: nat, items: seq<D.Payload> ::
        && DueRange(Members(c, fromRetry), script.now, limit, items)
        && script.ids == JobIds(items) && d == Promoted(c, fromRetry, items)
    else (script.DoFetch? ==> AtTail(c, script.p)) && Performs(CallOf(script), c, d)
  }

  lemma PromotionRefines(c: Store, d: Store, s: D.State, script: D.Step)
    requires Represents(c, s) && D.Inv(s) && script.DoPromote? && ScriptOnKeys(script, c, d)
    ensures Represents(d, D.Next(s, script))
  {
    var fromRetry: bool, limit: nat, items: seq<D.Payload> :|
      && DueRange(Members(c, fromRetry), script.now, limit, items)
      && script.ids == JobIds(items) && d == Promoted(c, fromRetry, items);
    PromoteRepresents(c, s, fromRetry, items, script.now);
  }

  lemma ScriptRefines(c: Store, d: Store, s: D.State, script: D.Step)
    requires Represents(c, s) && D.Inv(s) && D.Enabled(s, script) && ScriptOnKeys(script, c, d)
    ensures Represents(d, D.Next(s, script))
  {
    if script.DoEnqueue? {
      EnqueueRefines(c, s, script.place, script.p);
    } else if script.DoPromote? {
      PromotionRefines(c, d, s, script);
    } else if script.DoFetch? {
      var t := FetchCallRefines(c, s, script.p.queue, script.w);
      assert t == D.Next(s, script);
    } else {
      assert StepOf(CallOf(script)) == script;
      PlainCallRefines(CallOf(script), c, d, s);
    }
  }

  /** The keys d are what the step of anyone makes of the keys c. */
  ghost predicate KeyStep(m: State, step: Step, c: Store, d: Store)
    requires Enabled(m, step)
  {
    if Script(m, step).Some? then ScriptOnKeys(Script(m, step).value, c, d)
    else
      match step
      case Submit(place, p) => ScriptOnKeys(D.DoEnqueue(place, p), c, d)
      case TrackMembers(_, ps) => d == Pushed(c, ps)
      case AddMembers(b, ps) => d == if B.AcceptsJobs(m.forest[b]) then Pushed(c, ps) else c
      case FinishEmpty(b) => d == Pushed(c, Issues(m, b, Child(b), B.EmptySuccess))
      case RecordResult(g, _) =>
        var pr := m.procs[g];
        d == if pr.raw.batch.None? then c
             else Pushed(c, Issues(m, pr.raw.batch.value, pr.raw.jid, ResultOf(pr.stage.fin.op)))
      case DeliverSignal(sig) => d == Pushed(c, Issues(m, sig.parent, Child(sig.child), sig.result))
      case _ => d == c
  }

  lemma ClientOnKeys(m: State, step: Step, c: Store, d: Store)
    requires Inv(m) && Enabled(m, step) && Represents(c, m.d) && KeyStep(m, step, c, d)
    requires step.Submit? || step.TrackMembers? || step.AddMembers?
    ensures Represents(d, Next(m, step).d)
  {
    if step.Submit? {
      assert step.p.jid in m.d.copies ==> PayloadOk(m, m.d.copies[step.p.jid].payload);
      ScriptRefines(c, d, m.d, D.DoEnqueue(step.place, step.p));
    } else {
      MembersOnKeys(m, step.b, step.ps, c);
    }
  }

  lemma ResultOnKeys(m: State, step: Step, c: Store, d: Store)
    requires Inv(m) && Enabled(m, step) && Represents(c, m.d) && KeyStep(m, step, c, d) && step.RecordResult?
    ensures Represents(d, Next(m, step).d)
  {
    var pr := m.procs[step.g];
    if pr.raw.batch.Some? {
      RecordOnKeys(m, pr.raw.batch.value, pr.raw.jid, ResultOf(pr.stage.fin.op), c);
    }
  }

  lemma EmptyOnKeys(m: State, b: BatchId, c: Store)
    requires Inv(m) && b in m.forest && Represents(c, m.d)
    ensures Represents(Pushed(c, Issues(m, b, Child(b), B.EmptySuccess)), Next(m, FinishEmpty(b)).d)
  {
    RecordOnKeys(m, b, Child(b), B.EmptySuccess, c);
  }

  lemma ReportOnKeys(m: State, sig: Signal, c: Store)
    requires Inv(m) && sig in m.signals && Represents(c, m.d)
    ensures Represents(Pushed(c, Issues(m, sig.parent, Child(sig.child), sig.result)), Next(m, DeliverSignal(sig)).d)
  {
    RecordOnKeys(m, sig.parent, Child(sig.child), sig.result, c);
    assert RecordIn(m.(signals := m.signals - multiset{sig}), sig.parent, Child(sig.child), sig.result).0.d
        == RecordIn(m, sig.parent, Child(sig.child), sig.result).0.d;
  }

  lemma CompletionOnKeys(m: State, step: Step, c: Store, d: Store)
    requires Inv(m) && Enabled(m, step) && Represents(c, m.d) && KeyStep(m, step, c, d)
    requires step.RecordResult? || step.FinishEmpty? || step.DeliverSignal?
    ensures Represents(d, Next(m, step).d)
  {
    if step.RecordResult? {
      ResultOnKeys(m, step, c, d);
    } else if step.FinishEmpty? {
      EmptyOnKeys(m, step.b, c);
    } else {
      ReportOnKeys(m, step.sig, c);
    }
  }

  lemma DeliveryOnKeys(m: State, step: Step, c: Store, d: Store)
    requires Inv(m) && Enabled(m, step) && Represents(c, m.d) && KeyStep(m, step, c, d) && Script(m, step).Some?
    ensures Represents(d, Next(m, step).d)
  {
    ScriptIsStep(m, step);
    ScriptRefines(c, d, m.d, Script(m, step).value);
  }

  lemma OthersOnKeys(m: State, step: Step)
    requires Enabled(m, step) && (Quiet(step) || step.Decide? || step.RecordCallback? || step.Restart? || step.Vanish?)
    ensures Next(m, step).d == m.d
  {
  }

  /** A step of the machine, done on keys that represent its copies, leaves keys that represent its copies. */
  lemma KeysFollow(m: State, step: Step, c: Store, d: Store)
    requires Inv(m) && Enabled(m, step) && Represents(c, m.d) && KeyStep(m, step, c, d)
    ensures Represents(d, Next(m, step).d)
  {
    if Script(m, step).Some? {
      DeliveryOnKeys(m, step, c, d);
    } else if step.Submit? || step.TrackMembers? || step.AddMembers? {
      ClientOnKeys(m, step, c, d);
    } else if step.RecordResult? || step.FinishEmpty? || step.DeliverSignal? {
      CompletionOnKeys(m, step, c, d);
    } else {
      OthersOnKeys(m, step);
    }
  }

  // ---------------------------------------------------------------------
  // Every run on the keys

  /** The keys before the first step of a run, and after each. */
  ghost predicate KeyRun(m: State, steps: seq<Step>, log: seq<Store>)
    requires Possible(m, steps)
    decreases |steps|
  {
    && |log| == |steps| + 1
    && (steps != [] ==>
          KeyStep(m, steps[0], log[0], log[1]) && KeyRun(Next(m, steps[0]), steps[1..], log[1..]))
  }

  lemma {:induction false} RunOnKeys(m: State, steps: seq<Step>, log: seq<Store>)
    requires Inv(m) && Possible(m, steps) && KeyRun(m, steps, log) && Represents(log[0], m.d)
    ensures Represents(log[|steps|], Run(m, steps).d)
    decreases |steps|
  {
    if steps != [] {
      KeysFollow(m, steps[0], log[0], log[1]);
      StepKeepsInv(m, steps[0]);
      RunOnKeys(Next(m, steps[0]), steps[1..], log[1..]);
    }
  }

  lemma LiveCopyIsListed(c: Store, s: D.State, id: Id)
    requires Represents(c, s) && D.Inv(s) && HasLiveCopy(s, id)
    ensures exists place: D.Place, p: D.Payload :: Holds(c, place, p) && p.jid == id && Waiting(place)
    ensures Unrepeated(c)
  {
    var copy := s.copies[id];
    assert D.CopyOk(s, id);
    assert Holds(c, copy.place, copy.payload) <==> D.At(s, copy.place, copy.payload);
    RepresentsOnce(c, s);
  }

  /** In every harmless run on the keys, every job and callback that a batch waits for is in a queue,
      an in-flight list or the retry set, and no job is anywhere twice. */
  lemma NoStrandedOnKeys(steps: seq<Step>, log: seq<Store>, b: BatchId, id: Id)
    requires Possible(INIT, steps) && AllHarmless(INIT, steps) && KeyRun(INIT, steps, log) && log[0] == EMPTY_STORE
    requires b in Run(INIT, steps).forest
    requires (id in Run(INIT, steps).forest[b].jobs && !id.Child?) || id in Run(INIT, steps).forest[b].callbacks
    ensures exists place: D.Place, p: D.Payload :: Holds(log[|steps|], place, p) && p.jid == id && Waiting(place)
    ensures Unrepeated(log[|steps|])
  {
    EmptyRepresents();
    RunOnKeys(INIT, steps, log);
    RunKeepsInv(INIT, steps);
    NoStrandedBatch(steps, b, id);
    LiveCopyIsListed(log[|steps|], Run(INIT, steps).d, id);
  }
}
