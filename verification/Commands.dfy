/**
  Sequences of script calls on the Redis keys, by any workers and clients: each is a run of
  Delivery, and every accepted job stays in the keys, once, until an acknowledgement finds it.
 */
module Commands {
  import opened Ids
  import opened Delivery
  import opened DeliveryStore

  /** One script call.  Payload arguments are whatever the caller holds, however stale. */
  datatype Command =
    | CallEnqueue(place: Place, p: Payload)
    | CallFetch(q: QueueName, w: WorkerId)
    | CallMark(w: WorkerId, p: Payload, f: Finalization)
    | CallAck(w: WorkerId, p: Payload, unlock: bool)
    | CallRetry(w: WorkerId, p: Payload, at: int, next: Payload)
    | CallBury(w: WorkerId, p: Payload, at: int, next: Payload)
    | CallRequeue(w: WorkerId, p: Payload, next: Payload)
    | CallReap(w: WorkerId)
    | CallPromote(fromRetry: bool, now: int, limit: nat)
    | KeyExpires(key: Key)

  predicate WellFormed(cmd: Command) {
    match cmd
    case CallEnqueue(place, p) => p.fin.None? && (place == Queue(p.queue) || place.Scheduled?)
    case CallMark(w, p, f) => p.fin.None?
    case CallRetry(w, p, at, next) => Successor(p, next)
    case CallBury(w, p, at, next) => Successor(p, next)
    case CallRequeue(w, p, next) => Successor(p, next) && p.fin.None?
    case _ => true
  }

  /** The keys d are what the call makes of the keys c. */
  ghost predicate Performs(cmd: Command, c: Store, d: Store) {
    match cmd
    case CallEnqueue(place, p) => (place.Queue? || place.Scheduled?) && d == EnqueueKeys(c, place, p)
    case CallFetch(q, w) => d == FetchKeys(c, q, w).0
    case CallMark(w, p, f) => d == MarkKeys(c, w, p, f).0
    case CallAck(w, p, unlock) => d == AckKeys(c, w, p, unlock)
    case CallRetry(w, p, at, next) => d == RetryKeys(c, w, p, at, next)
    case CallBury(w, p, at, next) => d == BuryKeys(c, w, p, at, next)
    case CallRequeue(w, p, next) => d == RequeueKeys(c, w, p, next)
    case CallReap(w) => d == Reaped(c, w)
    case CallPromote(fromRetry, now, limit) =>
      exists items :: DueRange(Members(c, fromRetry), now, limit, items) && d == Promoted(c, fromRetry, items)
    case KeyExpires(key) => d == c.(unique := c.unique - {key})
  }

  /** The keys before the first call, and after each. */
  ghost predicate Logs(cmds: seq<Command>, log: seq<Store>) {
    |log| == |cmds| + 1 && forall i :: 0 <= i < |cmds| ==> Performs(cmds[i], log[i], log[i + 1])
  }

  /** The state t is what the call's step makes of the state s that the keys c represent. */
  ghost predicate Steps(cmd: Command, c: Store, s: State, t: State) {
    match cmd
    case CallEnqueue(place, p) => t == Enqueue(s, place, p)
    case CallFetch(q, w) =>
      var l := Get(c.queues, q);
      t == if l == [] then s else Fetch(s, w, l[|l| - 1])
    case CallMark(w, p, f) => t == Mark(s, w, p, f)
    case CallAck(w, p, unlock) => t == Ack(s, w, p, unlock)
    case CallRetry(w, p, at, next) => t == RetryLater(s, w, p, at, next)
    case CallBury(w, p, at, next) => t == Bury(s, w, p, at, next)
    case CallRequeue(w, p, next) => t == Requeue(s, w, p, next)
    case CallReap(w) => t == Reap(s, w)
    case CallPromote(fromRetry, now, limit) =>
      exists items :: DueRange(Members(c, fromRetry), now, limit, items) && t == Promote(s, JobIds(items), now)
    case KeyExpires(key) => t == s.(unique := s.unique - {key})
  }

  // ---------------------------------------------------------------------
  // Each call is its step

  lemma ExpireRefines(c: Store, s: State, key: Key)
    requires Represents(c, s)
    ensures Represents(c.(unique := c.unique - {key}), s.(unique := s.unique - {key}))
  {
    var d, t := c.(unique := c.unique - {key}), s.(unique := s.unique - {key});
    forall pl, x
      ensures Holds(d, pl, x) <==> At(t, pl, x)
    {
      assert Holds(c, pl, x) <==> At(s, pl, x);
    }
  }

  lemma FetchCallRefines(c: Store, s: State, q: QueueName, w: WorkerId) returns (t: State)
    requires Represents(c, s) && Inv(s)
    ensures Steps(CallFetch(q, w), c, s, t) && Represents(FetchKeys(c, q, w).0, t) && Inv(t)
  {
    var l := Get(c.queues, q);
    t := s;
    if l != [] {
      var p := l[|l| - 1];
      t := Fetch(s, w, p);
      FetchRepresents(c, s, q, w);
      StepKeepsInv(s, DoFetch(w, p));
    }
  }

  lemma PromoteCallRefines(cmd: Command, c: Store, d: Store, s: State) returns (t: State)
    requires cmd.CallPromote? && Performs(cmd, c, d) && Represents(c, s) && Inv(s)
    ensures Steps(cmd, c, s, t) && Represents(d, t) && Inv(t)
  {
    var items :| DueRange(Members(c, cmd.fromRetry), cmd.now, cmd.limit, items)
      && d == Promoted(c, cmd.fromRetry, items);
    PromoteRepresents(c, s, cmd.fromRetry, items, cmd.now);
    t := Promote(s, JobIds(items), cmd.now);
    StepKeepsInv(s, DoPromote(JobIds(items), cmd.now));
  }

  /** The Delivery step of a call that is neither a fetch nor a promotion. */
  function StepOf(cmd: Command): Step
    requires !cmd.CallFetch? && !cmd.CallPromote?
  {
    match cmd
    case CallEnqueue(place, p) => DoEnqueue(place, p)
    case CallMark(w, p, f) => DoMark(w, p, f)
    case CallAck(w, p, unlock) => DoAck(w, p, unlock)
    case CallRetry(w, p, at, next) => DoRetry(w, p, at, next)
    case CallBury(w, p, at, next) => DoBury(w, p, at, next)
    case CallRequeue(w, p, next) => DoRequeue(w, p, next)
    case CallReap(w) => DoReap(w)
    case KeyExpires(key) => DoExpire(key)
  }

  lemma PlainCallRefines(cmd: Command, c: Store, d: Store, s: State)
    requires !cmd.CallFetch? && !cmd.CallPromote? && WellFormed(cmd) && Performs(cmd, c, d)
    requires Represents(c, s) && Inv(s) && Enabled(s, StepOf(cmd))
    ensures Represents(d, Next(s, StepOf(cmd)))
  {
    match cmd
    case CallEnqueue(place, p) => EnqueueRefines(c, s, place, p);
    case CallMark(w, p, f) => MarkRefines(c, s, w, p, f);
    case CallAck(w, p, unlock) => AckRefines(c, s, w, p, unlock);
    case CallRetry(w, p, at, next) => RetryRefines(c, s, w, p, at, next);
    case CallBury(w, p, at, next) => BuryRefines(c, s, w, p, at, next);
    case CallRequeue(w, p, next) => RequeueRefines(c, s, w, p, next);
    case CallReap(w) => ReapRepresents(c, s, w);
    case KeyExpires(key) => ExpireRefines(c, s, key);
  }

  lemma CallRefines(cmd: Command, c: Store, d: Store, s: State) returns (t: State)
    requires WellFormed(cmd) && Performs(cmd, c, d) && Represents(c, s) && Inv(s)
    requires cmd.CallEnqueue? ==> cmd.p.jid !in s.copies
    ensures Steps(cmd, c, s, t) && Represents(d, t) && Inv(t)
  {
    if cmd.CallFetch? {
      t := FetchCallRefines(c, s, cmd.q, cmd.w);
    } else if cmd.CallPromote? {
      t := PromoteCallRefines(cmd, c, d, s);
    } else {
      t := Next(s, StepOf(cmd));
      PlainCallRefines(cmd, c, d, s);
      StepKeepsInv(s, StepOf(cmd));
    }
  }

  // ---------------------------------------------------------------------
  // The ledger: what was accepted and not yet acknowledged

  /** The call is an enqueue that replies with acceptance. */
  predicate Accepted(cmd: Command, c: Store) {
    cmd.CallEnqueue? && (cmd.p.uniqueKey.None? || cmd.p.uniqueKey.value !in c.unique)
  }

  /** The call is an acknowledgement, or a retry without delay, that replies that it found the job. */
  predicate Found(cmd: Command, c: Store) {
    cmd.CallAck? && cmd.p in Get(c.inFlight, cmd.w)
  }

  function Entered(cmd: Command, c: Store, ids: set<Id>): set<Id> {
    if Accepted(cmd, c) then ids + {cmd.p.jid} else if Found(cmd, c) then ids - {cmd.p.jid} else ids
  }

  ghost function Ledger(cmds: seq<Command>, log: seq<Store>, ids: set<Id>): set<Id>
    requires Logs(cmds, log)
    decreases |cmds|
  {
    if cmds == [] then ids else Ledger(cmds[1..], log[1..], Entered(cmds[0], log[0], ids))
  }

  /** Every enqueue brings an id never used before. */
  ghost predicate FreshIds(cmds: seq<Command>, used: set<Id>)
    decreases |cmds|
  {
    cmds == [] ||
    ((cmds[0].CallEnqueue? ==> cmds[0].p.jid !in used) && FreshIds(cmds[1..], Used(cmds[0], used)))
  }

  lemma StepEnters(cmd: Command, c: Store, s: State, t: State)
    requires WellFormed(cmd) && Steps(cmd, c, s, t) && Represents(c, s) && Inv(s)
    requires cmd.CallEnqueue? ==> cmd.p.jid !in s.copies
    ensures t.copies.Keys == Entered(cmd, c, s.copies.Keys)
  {
    if cmd.CallFetch? {
      var l := Get(c.queues, cmd.q);
      if l != [] {
        assert Holds(c, Queue(cmd.q), l[|l| - 1]);
      }
    } else if cmd.CallAck? || cmd.CallRetry? || cmd.CallBury? || cmd.CallRequeue? {
      assert Holds(c, InFlight(cmd.w), cmd.p) <==> At(s, InFlight(cmd.w), cmd.p);
    }
  }

  /** The keys hold the job somewhere. */
  ghost predicate Held(c: Store, id: Id) {
    exists place: Place, p: Payload :: Holds(c, place, p) && p.jid == id
  }

  /** No job is in two places, under two payloads, or twice in a list. */
  ghost predicate Unrepeated(c: Store) {
    && (forall place, p, place', p' :: Holds(c, place, p) && Holds(c, place', p') && p.jid == p'.jid ==>
          place == place' && p == p')
    && (forall q, p :: p in Get(c.queues, q) ==> multiset(Get(c.queues, q))[p] == 1)
    && (forall w, p :: p in Get(c.inFlight, w) ==> multiset(Get(c.inFlight, w))[p] == 1)
  }

  lemma HeldIsCopied(c: Store, s: State, id: Id)
    requires Represents(c, s) && Inv(s)
    ensures Held(c, id) <==> id in s.copies
  {
    if id in s.copies {
      assert CopyOk(s, id);
      assert Holds(c, s.copies[id].place, s.copies[id].payload) <==> At(s, s.copies[id].place, s.copies[id].payload);
    }
  }

  lemma RepresentsOnce(c: Store, s: State)
    requires Represents(c, s)
    ensures Unrepeated(c)
  {
    forall place, p, place', p' | Holds(c, place, p) && Holds(c, place', p') && p.jid == p'.jid
      ensures place == place' && p == p'
    {
      SingleCopy(c, s, place, place', p, p');
    }
    forall q, p | p in Get(c.queues, q)
      ensures multiset(Get(c.queues, q))[p] == 1
    {
      OccursOnce(Get(c.queues, q), p);
    }
    forall w, p | p in Get(c.inFlight, w)
      ensures multiset(Get(c.inFlight, w))[p] == 1
    {
      OccursOnce(Get(c.inFlight, w), p);
    }
  }

  lemma LogTail(cmds: seq<Command>, log: seq<Store>)
    requires Logs(cmds, log) && cmds != []
    ensures Logs(cmds[1..], log[1..]) && Performs(cmds[0], log[0], log[1])
    ensures log[1..][0] == log[1] && log[1..][|cmds| - 1] == log[|cmds|]
  {
    forall i | 0 <= i < |cmds[1..]|
      ensures Performs(cmds[1..][i], log[1..][i], log[1..][i + 1])
    {
      assert Performs(cmds[i + 1], log[i + 1], log[i + 2]);
    }
  }

  lemma CallEnters(cmd: Command, c: Store, d: Store, s: State) returns (t: State)
    requires WellFormed(cmd) && Performs(cmd, c, d) && Represents(c, s) && Inv(s)
    requires cmd.CallEnqueue? ==> cmd.p.jid !in s.copies
    ensures Represents(d, t) && Inv(t) && t.copies.Keys == Entered(cmd, c, s.copies.Keys)
  {
    t := CallRefines(cmd, c, d, s);
    StepEnters(cmd, c, s, t);
  }

  function Used(cmd: Command, used: set<Id>): set<Id> {
    if cmd.CallEnqueue? then used + {cmd.p.jid} else used
  }

  /** A log is a run of Delivery: its last keys represent a state with the ledger's jobs. */
  lemma {:induction false} LogRefines(cmds: seq<Command>, log: seq<Store>, s: State, used: set<Id>) returns (t: State)
    requires Logs(cmds, log) && (forall cmd :: cmd in cmds ==> WellFormed(cmd))
    requires Represents(log[0], s) && Inv(s) && FreshIds(cmds, used) && s.copies.Keys <= used
    ensures Represents(log[|cmds|], t) && Inv(t) && t.copies.Keys == Ledger(cmds, log, s.copies.Keys)
    decreases |cmds|
  {
    t := s;
    if cmds != [] {
      LogTail(cmds, log);
      t := CallEnters(cmds[0], log[0], log[1], s);
      t := LogRefines(cmds[1..], log[1..], t, Used(cmds[0], used));
    }
  }

  lemma HoldsTheCopied(c: Store, s: State, ids: set<Id>)
    requires Represents(c, s) && Inv(s) && s.copies.Keys == ids
    ensures forall id :: Held(c, id) <==> id in ids
    ensures Unrepeated(c)
  {
    forall id
      ensures Held(c, id) <==> id in ids
    {
      HeldIsCopied(c, s, id);
    }
    RepresentsOnce(c, s);
  }

  /** From empty keys, over any sequence of calls: the keys hold exactly the jobs whose enqueue was
      accepted and that no acknowledgement has found since, and each of them exactly once. */
  lemma EveryJobExactlyOnce(cmds: seq<Command>, log: seq<Store>)
    requires Logs(cmds, log) && log[0] == EMPTY_STORE && FreshIds(cmds, {})
    requires forall cmd :: cmd in cmds ==> WellFormed(cmd)
    ensures forall id :: Held(log[|cmds|], id) <==> id in Ledger(cmds, log, {})
    ensures Unrepeated(log[|cmds|])
  {
    EmptyRepresents();
    var t := LogRefines(cmds, log, EMPTY, {});
    HoldsTheCopied(log[|cmds|], t, Ledger(cmds, log, {}));
  }

  /** A job of the ledger stays in it while no acknowledgement finds it. */
  lemma {:induction false} LedgerKeeps(cmds: seq<Command>, log: seq<Store>, ids: set<Id>, id: Id)
    requires Logs(cmds, log) && id in ids
    requires forall j :: 0 <= j < |cmds| && Found(cmds[j], log[j]) ==> cmds[j].p.jid != id
    ensures id in Ledger(cmds, log, ids)
    decreases |cmds|
  {
    if cmds != [] {
      assert forall j :: 0 <= j < |cmds[1..]| ==> cmds[1..][j] == cmds[j + 1] && log[1..][j] == log[j + 1];
      LedgerKeeps(cmds[1..], log[1..], Entered(cmds[0], log[0], ids), id);
    }
  }

  lemma {:induction false} LedgerHasAccepted(cmds: seq<Command>, log: seq<Store>, ids: set<Id>, i: nat)
    requires Logs(cmds, log) && i < |cmds| && Accepted(cmds[i], log[i])
    requires forall j :: i < j < |cmds| && Found(cmds[j], log[j]) ==> cmds[j].p.jid != cmds[i].p.jid
    ensures cmds[i].p.jid in Ledger(cmds, log, ids)
    decreases |cmds|
  {
    assert forall j :: 0 <= j < |cmds[1..]| ==> cmds[1..][j] == cmds[j + 1] && log[1..][j] == log[j + 1];
    if i == 0 {
      LedgerKeeps(cmds[1..], log[1..], Entered(cmds[0], log[0], ids), cmds[0].p.jid);
    } else {
      LedgerHasAccepted(cmds[1..], log[1..], Entered(cmds[0], log[0], ids), i - 1);
    }
  }

  /** An accepted job that no later acknowledgement finds is in the keys. */
  lemma AcceptedJobIsHeld(cmds: seq<Command>, log: seq<Store>, i: nat)
    requires Logs(cmds, log) && log[0] == EMPTY_STORE && FreshIds(cmds, {})
    requires forall cmd :: cmd in cmds ==> WellFormed(cmd)
    requires i < |cmds| && Accepted(cmds[i], log[i])
    requires forall j :: i < j < |cmds| && Found(cmds[j], log[j]) ==> cmds[j].p.jid != cmds[i].p.jid
    ensures Held(log[|cmds|], cmds[i].p.jid) && Unrepeated(log[|cmds|])
  {
    LedgerHasAccepted(cmds, log, {}, i);
    EveryJobExactlyOnce(cmds, log);
  }
}
