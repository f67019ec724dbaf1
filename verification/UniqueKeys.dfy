/**
  Unique keys, both ways: a live job holds its key, and a key that is taken has a live job, so
  that a job is accepted exactly when no other job with its key is live.
 */
module UniqueKeys {
  import opened Ids
  import opened Delivery
  import opened DeliveryStore

  /** The key is held by a live job that asked for it. */
  ghost predicate HeldByLive(s: State, k: Key)
    requires k in s.unique
  {
    && s.unique[k] in s.copies && Live(s.copies[s.unique[k]].place)
    && s.copies[s.unique[k]].payload.uniqueKey == Some(k)
  }

  ghost predicate KeysBacked(s: State) {
    forall k :: k in s.unique ==> HeldByLive(s, k)
  }

  predicate HoldsOwnKey(s: State, p: Payload) {
    p.uniqueKey.Some? && p.uniqueKey.value in s.unique && s.unique[p.uniqueKey.value] == p.jid
  }

  /** A retry without delay ends the job that holds a key, and leaves the key. */
  predicate Abandons(s: State, step: Step) {
    step.DoAck? && !step.unlock && At(s, InFlight(step.w), step.p) && HoldsOwnKey(s, step.p)
  }

  lemma EntryKeepsBacked(s: State, step: Step)
    requires Inv(s) && Enabled(s, step) && KeysBacked(s)
    requires step.DoEnqueue? || step.DoFetch? || step.DoMark? || step.DoExpire?
    ensures KeysBacked(Next(s, step))
  {
    forall k | k in Next(s, step).unique
      ensures HeldByLive(Next(s, step), k)
    {
      assert k in s.unique ==> HeldByLive(s, k) && CopyOk(s, s.unique[k]);
    }
  }

  lemma ExitKeepsBacked(s: State, step: Step)
    requires Inv(s) && Enabled(s, step) && KeysBacked(s) && !Abandons(s, step)
    requires step.DoAck? || step.DoRetry? || step.DoBury? || step.DoRequeue?
    ensures KeysBacked(Next(s, step))
  {
    forall k | k in Next(s, step).unique
      ensures HeldByLive(Next(s, step), k)
    {
      assert HeldByLive(s, k) && CopyOk(s, s.unique[k]);
    }
  }

  lemma SweepKeepsBacked(s: State, step: Step)
    requires Inv(s) && KeysBacked(s) && (step.DoReap? || step.DoPromote?)
    ensures KeysBacked(Next(s, step))
  {
    forall k | k in Next(s, step).unique
      ensures HeldByLive(Next(s, step), k)
    {
      assert HeldByLive(s, k);
    }
  }

  /** Every script keeps every taken key backed, but for the retry without delay of its holder. */
  lemma BackedIsExact(s: State, step: Step)
    requires Inv(s) && Enabled(s, step) && KeysBacked(s)
    ensures KeysBacked(Next(s, step)) <==> !Abandons(s, step)
  {
    if Abandons(s, step) {
      assert !HeldByLive(Next(s, step), step.p.uniqueKey.value);
    } else if step.DoAck? || step.DoRetry? || step.DoBury? || step.DoRequeue? {
      ExitKeepsBacked(s, step);
    } else if step.DoReap? || step.DoPromote? {
      SweepKeepsBacked(s, step);
    } else {
      EntryKeepsBacked(s, step);
    }
  }

  ghost predicate NeverAbandons(s: State, steps: seq<Step>)
    decreases |steps|
  {
    steps == [] || (!Abandons(s, steps[0]) && NeverAbandons(Next(s, steps[0]), steps[1..]))
  }

  lemma {:induction false} RunKeepsBacked(s: State, steps: seq<Step>)
    requires Inv(s) && KeysBacked(s) && Possible(s, steps) && NeverAbandons(s, steps)
    ensures KeysBacked(Run(s, steps))
    decreases |steps|
  {
    if steps != [] {
      BackedIsExact(s, steps[0]);
      StepKeepsInv(s, steps[0]);
      RunKeepsBacked(Next(s, steps[0]), steps[1..]);
    }
  }

  /** Some job with this key is queued, in flight, scheduled or waiting for a retry. */
  ghost predicate SomeLive(s: State, k: Key) {
    exists id :: id in s.copies && Live(s.copies[id].place) && s.copies[id].payload.uniqueKey == Some(k)
  }

  /** In every run from empty keys without expiry and without retries that abandon a key, a job is
      accepted exactly when no job with its key is live. */
  lemma AcceptedIffNoneLive(steps: seq<Step>, p: Payload)
    requires Possible(EMPTY, steps) && NoExpiry(steps) && NeverAbandons(EMPTY, steps)
    ensures Accepts(Run(EMPTY, steps), p) <==>
      p.uniqueKey.None? || !SomeLive(Run(EMPTY, steps), p.uniqueKey.value)
  {
    RunKeepsInv(EMPTY, steps);
    RunKeepsBacked(EMPTY, steps);
    var s := Run(EMPTY, steps);
    if p.uniqueKey.Some? && p.uniqueKey.value in s.unique {
      assert HeldByLive(s, p.uniqueKey.value);
    }
  }

  /** The holder's acknowledgement, or its move to the dead set, frees the key for the next job. */
  lemma EndFreesKey(s: State, step: Step, q: Payload)
    requires Inv(s) && Enabled(s, step) && ((step.DoAck? && step.unlock) || step.DoBury?)
    requires At(s, InFlight(step.w), step.p) && HoldsOwnKey(s, step.p) && q.uniqueKey == step.p.uniqueKey
    ensures !Accepts(s, q) && Accepts(Next(s, step), q)
    ensures forall k :: k in s.unique && Some(k) != q.uniqueKey ==>
      k in Next(s, step).unique && Next(s, step).unique[k] == s.unique[k]
  {
  }

  /** On the keys: an enqueue goes through exactly when no live job with its key is held. */
  lemma AcceptsOnKeys(c: Store, s: State, p: Payload)
    requires Represents(c, s) && Inv(s) && KeysHeld(s) && KeysBacked(s) && p.uniqueKey.Some?
    ensures p.uniqueKey.value !in c.unique <==>
      !exists place: Place, q: Payload :: Holds(c, place, q) && Live(place) && q.uniqueKey == p.uniqueKey
  {
    var k := p.uniqueKey.value;
    if k in c.unique {
      assert HeldByLive(s, k);
      var copy := s.copies[s.unique[k]];
      assert CopyOk(s, s.unique[k]);
      assert Holds(c, copy.place, copy.payload) <==> At(s, copy.place, copy.payload);
    }
    forall place: Place, q: Payload | Holds(c, place, q) && Live(place) && q.uniqueKey == p.uniqueKey
      ensures k in c.unique
    {
      assert At(s, place, q);
    }
  }

  /** A retry without delay leaves a key that no job holds: the next job with that key is refused. */
  lemma ZeroDelayRetryLeavesKey(p: Payload, q: Payload, w: WorkerId)
    requires p.fin.None? && p.uniqueKey.Some? && q.uniqueKey == p.uniqueKey
    ensures var s := Fetch(Enqueue(EMPTY, Queue(p.queue), p), w, p);
      var t := Ack(s, w, p, false);
      && Enabled(EMPTY, DoEnqueue(Queue(p.queue), p)) && Abandons(s, DoAck(w, p, false))
      && t.copies == map[] && !SomeLive(t, p.uniqueKey.value) && !Accepts(t, q)
  {
  }
}
