/**
  Where each job's payload is, which finalized payloads are trusted and who
  holds each unique key.  A job has at most one copy by construction here;
  DeliveryScripts proves that the Redis lists and sorted sets realise this.
 */
module Delivery {
  import opened Ids

  type Key = nat

  datatype Operation = Finish | Retry | Kill

  /** The outcome a worker chose for a job whose handler has returned. */
  datatype Finalization = Finalization(op: Operation, error: nat, retryAt: Option<int>)

  /** A job payload.  Encoding is injective, so a payload is its record; `rest`
      stands for the fields that no script and no property looks at. */
  datatype Payload = Payload(
    jid: Id, queue: QueueName, retryCount: nat, fin: Option<Finalization>,
    batch: Option<BatchId>, callbackOf: Option<BatchId>, uniqueKey: Option<Key>, rest: nat)

  datatype Place =
    | Queue(q: QueueName)
    | InFlight(w: WorkerId)
    | Retrying(at: int)
    | Scheduled(at: int)
    | Dead(at: int)

  datatype Copy = Copy(place: Place, payload: Payload)

  datatype State = State(copies: map<Id, Copy>, trust: map<Id, Payload>, unique: map<Key, Id>)

  const EMPTY := State(map[], map[], map[])

  predicate At(s: State, place: Place, p: Payload) {
    p.jid in s.copies && s.copies[p.jid] == Copy(place, p)
  }

  /** The payload carries a finalization marker and its trust key vouches for it. */
  predicate Trusted(s: State, p: Payload) {
    p.jid in s.trust && s.trust[p.jid] == p
  }

  /** `next` is a later payload of the same job, with the marker cleared. */
  predicate Successor(p: Payload, next: Payload) {
    && next.jid == p.jid && next.queue == p.queue && next.batch == p.batch
    && next.callbackOf == p.callbackOf && next.uniqueKey == p.uniqueKey && next.fin.None?
  }

  // ---------------------------------------------------------------------
  // The scripts

  function Put(s: State, place: Place, p: Payload): State {
    s.(copies := s.copies[p.jid := Copy(place, p)])
  }

  function Unlock(s: State, p: Payload): State {
    if p.uniqueKey.Some? && p.uniqueKey.value in s.unique && s.unique[p.uniqueKey.value] == p.jid
    then s.(unique := s.unique - {p.uniqueKey.value})
    else s
  }

  /** enqueue_now, enqueue_unique_now, enqueue_unique_at and a plain schedule: refused iff the key is taken. */
  predicate Accepts(s: State, p: Payload) {
    p.uniqueKey.None? || p.uniqueKey.value !in s.unique
  }

  function Enqueue(s: State, place: Place, p: Payload): State {
    if !Accepts(s, p) then s
    else
      var t := Put(s, place, p);
      if p.uniqueKey.Some? then t.(unique := t.unique[p.uniqueKey.value := p.jid]) else t
  }

  /** What a fetch hands out: a marker that no trust key vouches for is stripped. */
  function Sanitized(trust: map<Id, Payload>, p: Payload): Payload {
    if p.fin.Some? && !(p.jid in trust && trust[p.jid] == p) then p.(fin := None) else p
  }

  function Delivered(s: State, p: Payload): Payload {
    Sanitized(s.trust, p)
  }

  function Fetch(s: State, w: WorkerId, p: Payload): State {
    if At(s, Queue(p.queue), p) then Put(s, InFlight(w), Delivered(s, p)) else s
  }

  function Marked(p: Payload, f: Finalization): Payload {
    p.(fin := Some(f))
  }

  /** mark_job_finalization: 1 if the marker is in the in-flight list, 2 if in the queue, 0 if the job moved on. */
  function MarkCode(s: State, w: WorkerId, p: Payload, f: Finalization): nat {
    if At(s, InFlight(w), p) || At(s, InFlight(w), Marked(p, f)) then 1
    else if At(s, Queue(p.queue), p) || At(s, Queue(p.queue), Marked(p, f)) then 2
    else 0
  }

  function Mark(s: State, w: WorkerId, p: Payload, f: Finalization): State {
    var code := MarkCode(s, w, p, f);
    if code == 0 then s
    else
      Put(s, if code == 1 then InFlight(w) else Queue(p.queue), Marked(p, f))
        .(trust := s.trust[p.jid := Marked(p, f)])
  }

  /** ack_job: also the zero-delay Nack, which passes no unique key. */
  function Ack(s: State, w: WorkerId, p: Payload, unlock: bool): State {
    if !At(s, InFlight(w), p) then s
    else
      var t := if unlock then Unlock(s, p) else s;
      t.(copies := s.copies - {p.jid}, trust := s.trust - {p.jid})
  }

  function RetryLater(s: State, w: WorkerId, p: Payload, at: int, next: Payload): State {
    if !At(s, InFlight(w), p) then s
    else Put(s, Retrying(at), next).(trust := s.trust - {p.jid})
  }

  function Bury(s: State, w: WorkerId, p: Payload, at: int, next: Payload): State {
    if !At(s, InFlight(w), p) then s
    else Put(Unlock(s, p), Dead(at), next).(trust := s.trust - {p.jid})
  }

  /** requeue_job: an interrupted iterable job goes back to its queue. */
  function Requeue(s: State, w: WorkerId, p: Payload, next: Payload): State {
    if !At(s, InFlight(w), p) then s else Put(s, Queue(p.queue), next)
  }

  /** requeue_orphaned: everything in flight at w returns to its queue. */
  function Reap(s: State, w: WorkerId): State {
    s.(copies := map id | id in s.copies ::
         if s.copies[id].place == InFlight(w)
         then Copy(Queue(s.copies[id].payload.queue), s.copies[id].payload) else s.copies[id],
       trust := s.trust + map id | id in s.copies && s.copies[id].place == InFlight(w) && s.copies[id].payload.fin.Some?
                          :: s.copies[id].payload)
  }

  predicate Due(place: Place, now: int) {
    (place.Retrying? || place.Scheduled?) && place.at <= now
  }

  /** enqueue_scheduled: the chosen due jobs move to their queues. */
  function Promote(s: State, ids: set<Id>, now: int): State {
    s.(copies := map id | id in s.copies ::
         if id in ids && Due(s.copies[id].place, now)
         then Copy(Queue(s.copies[id].payload.queue), s.copies[id].payload) else s.copies[id])
  }

  // ---------------------------------------------------------------------
  // Steps by any worker, live or presumed dead, and any client

  datatype Step =
    | DoEnqueue(place: Place, p: Payload)
    | DoFetch(w: WorkerId, p: Payload)
    | DoMark(w: WorkerId, p: Payload, f: Finalization)
    | DoAck(w: WorkerId, p: Payload, unlock: bool)
    | DoRetry(w: WorkerId, p: Payload, at: int, next: Payload)
    | DoBury(w: WorkerId, p: Payload, at: int, next: Payload)
    | DoRequeue(w: WorkerId, p: Payload, next: Payload)
    | DoReap(w: WorkerId)
    | DoPromote(ids: set<Id>, now: int)
    | DoExpire(key: Key)

  /** Ids are fresh, payloads come from this code, and markers are set once on unmarked payloads. */
  predicate Enabled(s: State, step: Step) {
    match step
    case DoEnqueue(place, p) =>
      p.jid !in s.copies && p.fin.None? && (place == Queue(p.queue) || place.Scheduled?)
    case DoMark(w, p, f) => p.fin.None?
    case DoRetry(w, p, at, next) => Successor(p, next)
    case DoBury(w, p, at, next) => Successor(p, next)
    case DoRequeue(w, p, next) => Successor(p, next) && p.fin.None?
    case _ => true
  }

  function Next(s: State, step: Step): State {
    match step
    case DoEnqueue(place, p) => Enqueue(s, place, p)
    case DoFetch(w, p) => Fetch(s, w, p)
    case DoMark(w, p, f) => Mark(s, w, p, f)
    case DoAck(w, p, unlock) => Ack(s, w, p, unlock)
    case DoRetry(w, p, at, next) => RetryLater(s, w, p, at, next)
    case DoBury(w, p, at, next) => Bury(s, w, p, at, next)
    case DoRequeue(w, p, next) => Requeue(s, w, p, next)
    case DoReap(w) => Reap(s, w)
    case DoPromote(ids, now) => Promote(s, ids, now)
    case DoExpire(key) => s.(unique := s.unique - {key})
  }

  // ---------------------------------------------------------------------
  // Invariant: places and trust

  /** Where a finalization marker may be: a queue or an in-flight list. */
  predicate Deliverable(place: Place) {
    place.Queue? || place.InFlight?
  }

  ghost predicate CopyOk(s: State, id: Id)
    requires id in s.copies
  {
    var c := s.copies[id];
    && c.payload.jid == id
    && (c.place.Queue? ==> c.place.q == c.payload.queue)
    && (c.payload.fin.Some? ==> Deliverable(c.place))
  }

  /** The trust key of a job is exactly its finalized copy, when it has one. */
  ghost predicate TrustOk(s: State, id: Id) {
    && (id in s.trust ==> id in s.copies && s.copies[id].payload == s.trust[id] && s.trust[id].fin.Some?)
    && (id in s.copies && s.copies[id].payload.fin.Some? ==> id in s.trust)
  }

  ghost predicate Inv(s: State) {
    && (forall id :: id in s.copies ==> CopyOk(s, id))
    && (forall id :: TrustOk(s, id))
  }

  /** What every step keeps is kept job by job. */
  ghost predicate OkAt(s: State, id: Id) {
    TrustOk(s, id) && (id in s.copies ==> CopyOk(s, id))
  }

  lemma EntryKeepsOk(s: State, step: Step, id: Id)
    requires Inv(s) && Enabled(s, step) && (step.DoEnqueue? || step.DoFetch? || step.DoMark?)
    ensures OkAt(Next(s, step), id)
  {
    assert OkAt(s, id);
    assert OkAt(s, step.p.jid);
  }

  lemma ExitKeepsOk(s: State, step: Step, id: Id)
    requires Inv(s) && Enabled(s, step) && (step.DoAck? || step.DoRetry? || step.DoBury? || step.DoRequeue?)
    ensures OkAt(Next(s, step), id)
  {
    assert OkAt(s, id);
    assert OkAt(s, step.p.jid);
  }

  lemma SweepKeepsOk(s: State, step: Step, id: Id)
    requires Inv(s) && Enabled(s, step) && (step.DoReap? || step.DoPromote? || step.DoExpire?)
    ensures OkAt(Next(s, step), id)
  {
    assert OkAt(s, id);
  }

  lemma StepKeepsInv(s: State, step: Step)
    requires Inv(s) && Enabled(s, step)
    ensures Inv(Next(s, step))
  {
    var t := Next(s, step);
    forall id
      ensures TrustOk(t, id) && (id in t.copies ==> CopyOk(t, id))
    {
      if step.DoEnqueue? || step.DoFetch? || step.DoMark? {
        EntryKeepsOk(s, step, id);
      } else if step.DoReap? || step.DoPromote? || step.DoExpire? {
        SweepKeepsOk(s, step, id);
      } else {
        ExitKeepsOk(s, step, id);
      }
    }
  }

  /** In any state, a fetch hands out a marker only if the trust key vouches for it, and changes nothing else. */
  lemma OnlyTrustedIsDelivered(s: State, p: Payload)
    ensures Delivered(s, p).fin == if p.fin.Some? && Trusted(s, p) then p.fin else None
    ensures Delivered(s, p).(fin := p.fin) == p
  {
  }

  /** In any state, what the reaper returns with a marker is trusted from then on. */
  lemma ReapVouches(s: State, w: WorkerId, p: Payload)
    requires At(s, InFlight(w), p) && p.fin.Some?
    ensures Trusted(Reap(s, w), p)
  {
  }

  /** A fetch in a reachable state never strips a marker. */
  lemma FetchDeliversAsIs(s: State, p: Payload)
    requires Inv(s) && At(s, Queue(p.queue), p)
    ensures Delivered(s, p) == p
  {
    assert TrustOk(s, p.jid);
  }

  // ---------------------------------------------------------------------
  // A job leaves only when an acknowledgement finds it

  predicate SameJob(p: Payload, q: Payload) {
    && q.jid == p.jid && q.queue == p.queue && q.batch == p.batch
    && q.callbackOf == p.callbackOf && q.uniqueKey == p.uniqueKey
  }

  lemma OnlyAckRemoves(s: State, step: Step, id: Id)
    requires Inv(s) && Enabled(s, step) && id in s.copies
    ensures id in Next(s, step).copies ==> SameJob(s.copies[id].payload, Next(s, step).copies[id].payload)
    ensures id !in Next(s, step).copies ==>
      step.DoAck? && step.p.jid == id && s.copies[id] == Copy(InFlight(step.w), step.p)
  {
    assert CopyOk(s, id);
  }

  /** Apart from enqueueing, no step invents a job, and only a mark sets a marker. */
  lemma MarkersComeFromMarks(s: State, step: Step, id: Id)
    requires Inv(s) && Enabled(s, step) && !step.DoEnqueue? && id in Next(s, step).copies
    ensures id in s.copies
    ensures var fin := Next(s, step).copies[id].payload.fin;
      fin.None? || fin == s.copies[id].payload.fin || (step.DoMark? && fin == Some(step.f))
  {
    assert id in s.copies;
    assert CopyOk(s, id);
  }

  // ---------------------------------------------------------------------
  // First outcome wins

  /** A finalized copy keeps its marker and trust through every step except the
      terminal script that is given exactly that payload. */
  lemma FinalizedStays(s: State, step: Step, p: Payload)
    requires Inv(s) && Enabled(s, step)
    requires p.fin.Some? && p.jid in s.copies && s.copies[p.jid].payload == p
    ensures var t := Next(s, step);
      || (Trusted(t, p) && p.jid in t.copies && t.copies[p.jid].payload == p && Deliverable(t.copies[p.jid].place))
      || ((step.DoAck? || step.DoRetry? || step.DoBury?) && step.p == p && At(s, InFlight(step.w), p))
  {
    assert CopyOk(s, p.jid) && TrustOk(s, p.jid);
    StepKeepsInv(s, step);
    var t := Next(s, step);
    assert TrustOk(t, p.jid);
    assert p.jid in t.copies ==> CopyOk(t, p.jid);
  }

  /** A mark with another outcome finds nothing and changes nothing. */
  lemma CompetingMarkLoses(s: State, w: WorkerId, p: Payload, f: Finalization, winner: Finalization)
    requires Inv(s) && p.fin.None? && winner != f
    requires p.jid in s.copies && s.copies[p.jid].payload.fin == Some(winner)
    ensures MarkCode(s, w, p, f) == 0 && Mark(s, w, p, f) == s
  {
  }

  /** A mark that reports 1 or 2 has made its outcome the job's trusted outcome. */
  lemma MarkWins(s: State, w: WorkerId, p: Payload, f: Finalization)
    requires Inv(s) && p.fin.None? && MarkCode(s, w, p, f) != 0
    ensures var t := Mark(s, w, p, f);
      && Trusted(t, Marked(p, f)) && t.copies[p.jid].payload == Marked(p, f)
      && Mark(t, w, p, f) == t
  {
    var t := Mark(s, w, p, f);
    assert t.copies[p.jid := t.copies[p.jid]] == t.copies;
  }

  /** Where a mark looks: in flight at the worker that calls it, or back in the job's own queue. */
  predicate InReach(s: State, w: WorkerId, p: Payload) {
    At(s, InFlight(w), p) || At(s, Queue(p.queue), p)
  }

  /** A mark must win while the job has not moved on: it finds the payload in flight or, once the reaper has
      returned it, in the queue, marks it where it is, and replies 1 or 2 by the place. */
  lemma MarkIsExact(s: State, w: WorkerId, p: Payload, f: Finalization)
    requires Inv(s) && p.fin.None?
    ensures Marked(p, f).fin == Some(f) && Marked(p, f).(fin := None) == p
    ensures MarkCode(s, w, p, f) != 0 <==> InReach(s, w, p) || InReach(s, w, Marked(p, f))
    ensures InReach(s, w, p) ==>
      var t, place := Mark(s, w, p, f), s.copies[p.jid].place;
      && At(t, place, Marked(p, f)) && Trusted(t, Marked(p, f))
      && MarkCode(s, w, p, f) == if place.InFlight? then 1 else 2
    ensures forall id :: id != p.jid ==>
      (id in Mark(s, w, p, f).copies <==> id in s.copies)
      && (id in s.copies ==> Mark(s, w, p, f).copies[id] == s.copies[id])
  {
  }

  /** So a job that is reaped from a worker that is still alive can still be marked by it. */
  lemma ReapedIsMarked(s: State, w: WorkerId, p: Payload, f: Finalization)
    requires Inv(s) && p.fin.None? && At(s, InFlight(w), p)
    ensures var t := Mark(Reap(s, w), w, p, f); At(t, Queue(p.queue), Marked(p, f)) && Trusted(t, Marked(p, f))
  {
    StepKeepsInv(s, DoReap(w));
    MarkIsExact(Reap(s, w), w, p, f);
  }

  // ---------------------------------------------------------------------
  // Where jobs go

  /** Where a script that finds its job in flight, or accepts it, puts it, and as which payload. */
  lemma ScriptsLand(s: State, step: Step)
    requires Inv(s) && Enabled(s, step)
    ensures step.DoEnqueue? && Accepts(s, step.p) ==> At(Next(s, step), step.place, step.p)
    ensures step.DoFetch? && At(s, Queue(step.p.queue), step.p) ==> At(Next(s, step), InFlight(step.w), step.p)
    ensures step.DoRetry? && At(s, InFlight(step.w), step.p) ==> At(Next(s, step), Retrying(step.at), step.next)
    ensures step.DoBury? && At(s, InFlight(step.w), step.p) ==> At(Next(s, step), Dead(step.at), step.next)
    ensures step.DoRequeue? && At(s, InFlight(step.w), step.p) ==> At(Next(s, step), Queue(step.p.queue), step.next)
    ensures step.DoAck? && At(s, InFlight(step.w), step.p) ==> step.p.jid !in Next(s, step).copies
  {
    if step.DoFetch? && At(s, Queue(step.p.queue), step.p) {
      FetchDeliversAsIs(s, step.p);
    }
  }

  /** The reaper returns every job in flight at the worker to its queue as it is, and moves no other. */
  lemma ReapReturnsAll(s: State, w: WorkerId, place: Place, p: Payload)
    requires Inv(s) && At(s, place, p)
    ensures At(Reap(s, w), if place == InFlight(w) then Queue(p.queue) else place, p)
  {
  }

  /** Promotion moves exactly the chosen jobs whose time has come, each to its queue as it is. */
  lemma PromoteMovesDue(s: State, ids: set<Id>, now: int, place: Place, p: Payload)
    requires Inv(s) && At(s, place, p)
    ensures var moves := p.jid in ids && (place.Retrying? || place.Scheduled?) && place.at <= now;
      At(Promote(s, ids, now), if moves then Queue(p.queue) else place, p)
  {
  }

  // ---------------------------------------------------------------------
  // Unique keys

  predicate Live(place: Place) {
    !place.Dead?
  }

  /** Every live job with a unique key holds that key. */
  ghost predicate KeysHeld(s: State) {
    forall id :: id in s.copies && Live(s.copies[id].place) && s.copies[id].payload.uniqueKey.Some? ==>
      var k := s.copies[id].payload.uniqueKey.value;
      k in s.unique && s.unique[k] == id
  }

  lemma StepKeepsKeysHeld(s: State, step: Step)
    requires Inv(s) && Enabled(s, step) && KeysHeld(s) && !step.DoExpire?
    ensures KeysHeld(Next(s, step))
  {
    forall id | id in Next(s, step).copies
      ensures id in s.copies ==> CopyOk(s, id)
    {
    }
  }

  /** So at most one job is live per key. */
  lemma OneLiveJobPerKey(s: State, id: Id, id': Id)
    requires KeysHeld(s) && id in s.copies && id' in s.copies
    requires Live(s.copies[id].place) && Live(s.copies[id'].place)
    requires s.copies[id].payload.uniqueKey.Some? && s.copies[id].payload.uniqueKey == s.copies[id'].payload.uniqueKey
    ensures id == id'
  {
  }

  /** Even with expiry, only the holder's own end, or expiry, frees a key. */
  lemma NoForeignUnlock(s: State, step: Step, k: Key)
    requires k in s.unique && Enabled(s, step)
    ensures k in Next(s, step).unique ==> Next(s, step).unique[k] == s.unique[k]
    ensures k !in Next(s, step).unique ==>
      || (step.DoExpire? && step.key == k)
      || ((step.DoAck? || step.DoBury?) && step.p.jid == s.unique[k] && At(s, InFlight(step.w), step.p))
  {
  }

  // ---------------------------------------------------------------------
  // Runs

  ghost predicate Possible(s: State, steps: seq<Step>)
    decreases |steps|
  {
    steps == [] || (Enabled(s, steps[0]) && Possible(Next(s, steps[0]), steps[1..]))
  }

  function Run(s: State, steps: seq<Step>): State
    decreases |steps|
  {
    if steps == [] then s else Run(Next(s, steps[0]), steps[1..])
  }

  ghost predicate NoExpiry(steps: seq<Step>) {
    forall i :: 0 <= i < |steps| ==> !steps[i].DoExpire?
  }

  lemma {:induction false} RunKeepsInv(s: State, steps: seq<Step>)
    requires Inv(s) && Possible(s, steps)
    ensures Inv(Run(s, steps))
    ensures KeysHeld(s) && NoExpiry(steps) ==> KeysHeld(Run(s, steps))
    decreases |steps|
  {
    if steps != [] {
      StepKeepsInv(s, steps[0]);
      if KeysHeld(s) && NoExpiry(steps) {
        StepKeepsKeysHeld(s, steps[0]);
      }
      RunKeepsInv(Next(s, steps[0]), steps[1..]);
    }
  }

  predicate AckFinds(s: State, step: Step, id: Id) {
    step.DoAck? && step.p.jid == id && At(s, InFlight(step.w), step.p)
  }

  /** Whether some step of a run acknowledges this job and finds it. */
  predicate Acknowledged(s: State, steps: seq<Step>, id: Id)
    decreases |steps|
  {
    steps != [] && (AckFinds(s, steps[0], id) || Acknowledged(Next(s, steps[0]), steps[1..], id))
  }

  /** An accepted job survives every run in which no acknowledgement finds it. */
  lemma {:induction false} JobSurvives(s: State, steps: seq<Step>, id: Id)
    requires Inv(s) && Possible(s, steps) && id in s.copies && !Acknowledged(s, steps, id)
    ensures id in Run(s, steps).copies && SameJob(s.copies[id].payload, Run(s, steps).copies[id].payload)
    decreases |steps|
  {
    if steps != [] {
      StepKeepsInv(s, steps[0]);
      OnlyAckRemoves(s, steps[0], id);
      assert CopyOk(s, id);
      JobSurvives(Next(s, steps[0]), steps[1..], id);
    }
  }
}
