/** The concurrent limiter: slots in a list, held locks in a hash, and a sentinel key. */
module Concurrent {

  type LockId = nat

  /** `timeout` is the age in milliseconds beyond which a lock may be reclaimed. */
  datatype Config = Config(limit: int, timeout: int)

  /** The three keys; `locksAt` is the time before which Redis keeps the locks hash. */
  datatype Keys = Keys(sentinel: bool, slots: nat, locks: map<LockId, int>, locksAt: int)

  function Cap(c: Config): nat {
    if c.limit < 0 then 0 else c.limit
  }

  /** Lifetime of the keys in seconds: three lock timeouts, at least one second. */
  function Seconds(c: Config): int {
    var ttl := (c.timeout * 3) / 1000;
    if ttl < 1 then 1 else ttl
  }

  lemma LifetimeCovers(c: Config)
    ensures Seconds(c) * 1000 > c.timeout
    ensures Seconds(c) * 1000 <= 3 * c.timeout || Seconds(c) == 1
  {
  }

  function Init(c: Config, k: Keys, now: int): (Keys, nat) {
    var at := now + Seconds(c) * 1000;
    if k.sentinel then (k.(locksAt := at), 0)
    else
      var missing := c.limit - (k.slots + |k.locks|);
      var added := if missing > 0 then missing else 0;
      (Keys(true, k.slots + added, k.locks, at), added)
  }

  function Acquire(c: Config, k: Keys, id: LockId, now: int): (Keys, bool) {
    if k.slots == 0 then (k, false)
    else (k.(slots := k.slots - 1, locks := k.locks[id := now], locksAt := now + Seconds(c) * 1000), true)
  }

  function Release(c: Config, k: Keys, id: LockId, now: int): (Keys, nat) {
    if id !in k.locks then (k, 0)
    else (k.(slots := k.slots + 1, locks := k.locks - {id}, locksAt := now + Seconds(c) * 1000), 1)
  }

  function Stale(c: Config, k: Keys, now: int): set<LockId> {
    set id | id in k.locks && k.locks[id] < now - c.timeout
  }

  function Reclaim(c: Config, k: Keys, now: int): (Keys, nat) {
    var stale := Stale(c, k, now);
    if stale == {} then (k, 0)
    else (k.(slots := k.slots + |stale|, locks := k.locks - stale, locksAt := now + Seconds(c) * 1000), |stale|)
  }

  /** The limiter, with the leases that callers hold and have not released, and when they got them. */
  datatype State = State(keys: Keys, clock: int, leases: map<LockId, int>)

  datatype Step =
    | InitAt(now: int)
    | AcquireAt(id: LockId, now: int, reply: bool)
    | ReleaseAt(id: LockId, now: int)
    | ReclaimAt(now: int)
    | SlotsExpire(now: int)
    | LocksExpire(now: int)
    | SentinelExpires(now: int)

  /** The server's clock does not go back, and lock identifiers are fresh. */
  predicate Enabled(s: State, step: Step) {
    s.clock <= step.now && (step.AcquireAt? ==> step.id !in s.keys.locks && step.id !in s.leases)
  }

  function Next(c: Config, s: State, step: Step): State {
    match step
    case InitAt(now) => State(Init(c, s.keys, now).0, now, s.leases)
    case AcquireAt(id, now, reply) =>
      var (k, got) := Acquire(c, s.keys, id, now);
      State(k, now, if got && reply then s.leases[id := now] else s.leases)
    case ReleaseAt(id, now) => State(Release(c, s.keys, id, now).0, now, s.leases - {id})
    case ReclaimAt(now) => State(Reclaim(c, s.keys, now).0, now, s.leases)
    case SlotsExpire(now) => State(s.keys.(slots := 0), now, s.leases)
    case LocksExpire(now) => State(s.keys.(locks := map[]), now, s.leases)
    case SentinelExpires(now) => State(s.keys.(sentinel := false), now, s.leases)
  }

  const INIT := State(Keys(false, 0, map[], 0), 0, map[])

  ghost predicate Possible(c: Config, s: State, steps: seq<Step>)
    decreases |steps|
  {
    steps == [] || (Enabled(s, steps[0]) && Possible(c, Next(c, s, steps[0]), steps[1..]))
  }

  ghost function Run(c: Config, s: State, steps: seq<Step>): State
    decreases |steps|
  {
    if steps == [] then s else Run(c, Next(c, s, steps[0]), steps[1..])
  }

  function Total(k: Keys): nat {
    k.slots + |k.locks|
  }

  lemma RemovedSize(m: map<LockId, int>, gone: set<LockId>)
    requires gone <= m.Keys
    ensures |m - gone| + |gone| == |m|
  {
    assert (m - gone).Keys == m.Keys - gone;
    assert |(m - gone).Keys| == |m - gone| && |m.Keys| == |m|;
  }

  predicate KeyExpires(step: Step) {
    step.SlotsExpire? || step.LocksExpire? || step.SentinelExpires?
  }

  /** What a script does to the total: nothing, but for an initialization, which restores the limit. */
  lemma ScriptTotal(c: Config, s: State, step: Step)
    requires Enabled(s, step) && !KeyExpires(step)
    ensures step.InitAt? && !s.keys.sentinel && Total(s.keys) <= Cap(c) ==>
      Total(Next(c, s, step).keys) == Cap(c) && Next(c, s, step).keys.sentinel
    ensures !step.InitAt? || s.keys.sentinel ==>
      Total(Next(c, s, step).keys) == Total(s.keys) && Next(c, s, step).keys.sentinel == s.keys.sentinel
  {
    if step.ReleaseAt? && step.id in s.keys.locks {
      RemovedSize(s.keys.locks, {step.id});
    } else if step.ReclaimAt? {
      RemovedSize(s.keys.locks, Stale(c, s.keys, step.now));
    }
  }

  /** In every run, whichever keys expire and whenever, slots and locks together never exceed the limit. */
  lemma {:induction false} NeverOverLimit(c: Config, s: State, steps: seq<Step>)
    requires Possible(c, s, steps) && Total(s.keys) <= Cap(c)
    ensures Total(Run(c, s, steps).keys) <= Cap(c)
    decreases |steps|
  {
    if steps != [] {
      if !KeyExpires(steps[0]) {
        ScriptTotal(c, s, steps[0]);
      }
      NeverOverLimit(c, Next(c, s, steps[0]), steps[1..]);
    }
  }

  /** Once initialized, and while no key expires, slots and locks together are exactly the limit. */
  lemma {:induction false} SlotsConserved(c: Config, s: State, steps: seq<Step>)
    requires Possible(c, s, steps) && Total(s.keys) <= Cap(c)
    requires s.keys.sentinel ==> Total(s.keys) == Cap(c)
    requires forall step :: step in steps ==> !KeyExpires(step)
    ensures s.keys.sentinel || (exists step :: step in steps && step.InitAt?) ==> Run(c, s, steps).keys.sentinel
    ensures Run(c, s, steps).keys.sentinel ==> Total(Run(c, s, steps).keys) == Cap(c)
    decreases |steps|
  {
    if steps != [] {
      ScriptTotal(c, s, steps[0]);
      SlotsConserved(c, Next(c, s, steps[0]), steps[1..]);
      assert forall step :: step in steps && step != steps[0] ==> step in steps[1..];
    }
  }

  /** Once initialized, and while no key expires, an acquire succeeds exactly when fewer than `limit` locks are
      held, and then its caller's lock is the one that is added. */
  lemma AcquireIffRoom(c: Config, steps: seq<Step>, id: LockId, now: int)
    requires Possible(c, INIT, steps) && (exists step :: step in steps && step.InitAt?)
    requires forall step :: step in steps ==> !KeyExpires(step)
    ensures var k := Run(c, INIT, steps).keys; var (n, got) := Acquire(c, k, id, now);
      && (got <==> |k.locks| < Cap(c))
      && n.locks == if got then k.locks[id := now] else k.locks
  {
    SlotsConserved(c, INIT, steps);
  }

  /** A lock that is given back makes room for the next caller, and only that lock goes. */
  lemma ReleaseMakesRoom(c: Config, k: Keys, id: LockId, next: LockId, now: int, later: int)
    requires id in k.locks
    ensures var (n, released) := Release(c, k, id, now);
      released == 1 && n.locks == k.locks - {id} && Acquire(c, n, next, later).1
  {
  }

  /** Every script that changes a key gives the keys a new life of the same length. */
  lemma WritesRenew(c: Config, k: Keys, id: LockId, now: int)
    ensures var until := now + Seconds(c) * 1000;
      && Init(c, k, now).0.locksAt == until
      && (Acquire(c, k, id, now).1 ==> Acquire(c, k, id, now).0.locksAt == until)
      && (Release(c, k, id, now).1 > 0 ==> Release(c, k, id, now).0.locksAt == until)
      && (Reclaim(c, k, now).1 > 0 ==> Reclaim(c, k, now).0.locksAt == until)
  {
  }

  /** A reclaim takes back exactly the locks older than the timeout, whose slots become free. */
  lemma ReclaimIsExact(c: Config, k: Keys, now: int, id: LockId)
    ensures var (n, reclaimed) := Reclaim(c, k, now);
      && (id in n.locks <==> id in k.locks && now - k.locks[id] <= c.timeout)
      && (id in n.locks ==> n.locks[id] == k.locks[id])
      && n.slots == k.slots + reclaimed && reclaimed == |k.locks| - |n.locks|
  {
    RemovedSize(k.locks, Stale(c, k, now));
    if Stale(c, k, now) == {} && id in k.locks {
      assert id !in Stale(c, k, now);
    }
  }

  /** A lease no older than the lock timeout. */
  predicate Young(c: Config, s: State, id: LockId) {
    id in s.leases && s.clock - s.leases[id] <= c.timeout
  }

  /** Redis drops the locks hash only when its lifetime is over. */
  predicate Timely(s: State, step: Step) {
    step.LocksExpire? && s.keys.locks != map[] ==> s.keys.locksAt <= step.now
  }

  ghost predicate AllTimely(c: Config, s: State, steps: seq<Step>)
    decreases |steps|
  {
    steps == [] || (Timely(s, steps[0]) && AllTimely(c, Next(c, s, steps[0]), steps[1..]))
  }

  /** Every young lease still has its lock, and the hash outlives its locks. */
  ghost predicate Inv(c: Config, s: State) {
    && (forall id :: Young(c, s, id) ==> id in s.keys.locks && s.keys.locks[id] == s.leases[id])
    && (forall id :: id in s.keys.locks ==>
          s.keys.locks[id] <= s.clock && s.keys.locks[id] + Seconds(c) * 1000 <= s.keys.locksAt)
  }

  lemma StepKeepsInv(c: Config, s: State, step: Step)
    requires Inv(c, s) && Enabled(s, step) && Timely(s, step)
    ensures Inv(c, Next(c, s, step))
  {
    LifetimeCovers(c);
    var t := Next(c, s, step);
    forall id | Young(c, t, id)
      ensures id in t.keys.locks && t.keys.locks[id] == t.leases[id]
    {
      assert id in s.leases ==> Young(c, s, id);
    }
  }

  lemma {:induction false} RunKeepsInv(c: Config, s: State, steps: seq<Step>)
    requires Inv(c, s) && Possible(c, s, steps) && AllTimely(c, s, steps)
    ensures Inv(c, Run(c, s, steps))
    decreases |steps|
  {
    if steps != [] {
      StepKeepsInv(c, s, steps[0]);
      RunKeepsInv(c, Next(c, s, steps[0]), steps[1..]);
    }
  }

  lemma {:induction false} SubsetSize(a: set<LockId>, b: set<LockId>)
    requires a <= b
    ensures |a| <= |b|
  {
    assert b == a + (b - a);
  }

  ghost function YoungLeases(c: Config, s: State): set<LockId> {
    set id | id in s.leases && Young(c, s, id)
  }

  /**
    What the limiter is for: callers never hold more than `limit` leases that are within
    the lock timeout, although locks are reclaimed, replies get lost and all keys expire.
   */
  lemma AtMostLimitLeases(c: Config, steps: seq<Step>)
    requires Possible(c, INIT, steps) && AllTimely(c, INIT, steps)
    ensures |YoungLeases(c, Run(c, INIT, steps))| <= Cap(c)
  {
    var s := Run(c, INIT, steps);
    RunKeepsInv(c, INIT, steps);
    NeverOverLimit(c, INIT, steps);
    SubsetSize(YoungLeases(c, s), s.keys.locks.Keys);
    assert |s.keys.locks.Keys| == |s.keys.locks|;
  }

  /** A release that comes after its lock was reclaimed or has expired changes no key. */
  lemma LateReleaseIsNothing(c: Config, k: Keys, id: LockId, reclaimed: int, now: int)
    requires id in Stale(c, k, reclaimed)
    ensures var t := Reclaim(c, k, reclaimed).0; Release(c, t, id, now) == (t, 0)
    ensures Total(Reclaim(c, k, reclaimed).0) == Total(k)
  {
    RemovedSize(k.locks, Stale(c, k, reclaimed));
  }

  /** The reclaim loop over the fields and values of the hash, as read before the loop. */
  function Sweep(locks: map<LockId, int>, slots: nat, pairs: seq<(LockId, int)>, threshold: int)
    : (map<LockId, int>, nat)
    decreases |pairs|
  {
    if pairs == [] then (locks, slots)
    else if pairs[0].1 < threshold then Sweep(locks - {pairs[0].0}, slots + 1, pairs[1..], threshold)
    else Sweep(locks, slots, pairs[1..], threshold)
  }

  ghost function StaleIn(pairs: seq<(LockId, int)>, threshold: int): set<LockId>
    decreases |pairs|
  {
    if pairs == [] then {}
    else (if pairs[0].1 < threshold then {pairs[0].0} else {}) + StaleIn(pairs[1..], threshold)
  }

  /** The fields of a hash with their values, each once, in any order. */
  ghost predicate Lists(pairs: seq<(LockId, int)>, locks: map<LockId, int>) {
    && (forall i :: 0 <= i < |pairs| ==> pairs[i].0 in locks && locks[pairs[i].0] == pairs[i].1)
    && (forall i, j :: 0 <= i < j < |pairs| ==> pairs[i].0 != pairs[j].0)
    && (forall id :: id in locks ==> exists i :: 0 <= i < |pairs| && pairs[i].0 == id)
  }

  lemma {:induction false} StaleInSpec(pairs: seq<(LockId, int)>, threshold: int, id: LockId)
    ensures id in StaleIn(pairs, threshold) <==>
      exists i :: 0 <= i < |pairs| && pairs[i].0 == id && pairs[i].1 < threshold
    decreases |pairs|
  {
    if pairs != [] {
      StaleInSpec(pairs[1..], threshold, id);
      if id in StaleIn(pairs[1..], threshold) {
        var i :| 0 <= i < |pairs[1..]| && pairs[1..][i].0 == id && pairs[1..][i].1 < threshold;
        assert pairs[i + 1] == pairs[1..][i];
      }
      if i :| 1 <= i < |pairs| && pairs[i].0 == id && pairs[i].1 < threshold {
        assert pairs[i] == pairs[1..][i - 1];
      }
    }
  }

  lemma {:induction false} NotListedNotStale(pairs: seq<(LockId, int)>, threshold: int, id: LockId)
    requires forall i :: 0 <= i < |pairs| ==> pairs[i].0 != id
    ensures id !in StaleIn(pairs, threshold)
    decreases |pairs|
  {
    if pairs != [] {
      NotListedNotStale(pairs[1..], threshold, id);
    }
  }

  lemma RemoveInTurn(locks: map<LockId, int>, a: set<LockId>, b: set<LockId>)
    ensures locks - a - b == locks - (a + b) && locks - {} == locks
  {
  }

  lemma {:induction false} SweepCounts(locks: map<LockId, int>, slots: nat, pairs: seq<(LockId, int)>, threshold: int)
    requires forall i, j :: 0 <= i < j < |pairs| ==> pairs[i].0 != pairs[j].0
    ensures Sweep(locks, slots, pairs, threshold).0 == locks - StaleIn(pairs, threshold)
    ensures Sweep(locks, slots, pairs, threshold).1 == slots + |StaleIn(pairs, threshold)|
    decreases |pairs|
  {
    RemoveInTurn(locks, {}, {});
    if pairs != [] {
      var id, stale, rest := pairs[0].0, pairs[0].1 < threshold, StaleIn(pairs[1..], threshold);
      NotListedNotStale(pairs[1..], threshold, id);
      RemoveInTurn(locks, {id}, rest);
      SweepCounts(if stale then locks - {id} else locks, if stale then slots + 1 else slots, pairs[1..], threshold);
      assert StaleIn(pairs, threshold) == if stale then {id} + rest else rest;
    }
  }

  lemma StaleInIsStale(c: Config, k: Keys, pairs: seq<(LockId, int)>, now: int, id: LockId)
    requires Lists(pairs, k.locks)
    ensures id in StaleIn(pairs, now - c.timeout) <==> id in Stale(c, k, now)
  {
    StaleInSpec(pairs, now - c.timeout, id);
    if id in k.locks {
      var i :| 0 <= i < |pairs| && pairs[i].0 == id;
      assert pairs[i].1 == k.locks[id];
    }
  }

  lemma SweepReclaims(c: Config, k: Keys, pairs: seq<(LockId, int)>, now: int)
    requires Lists(pairs, k.locks)
    ensures Sweep(k.locks, k.slots, pairs, now - c.timeout)
      == (k.locks - Stale(c, k, now), k.slots + |Stale(c, k, now)|)
    ensures Stale(c, k, now) == {} ==> k.locks - Stale(c, k, now) == k.locks
  {
    SweepCounts(k.locks, k.slots, pairs, now - c.timeout);
    assert StaleIn(pairs, now - c.timeout) == Stale(c, k, now) by {
      forall id
        ensures id in StaleIn(pairs, now - c.timeout) <==> id in Stale(c, k, now)
      {
        StaleInIsStale(c, k, pairs, now, id);
      }
    }
  }

  /** The keys that the scripts work on. */
  class Limiter {
    var sentinel: bool
    var slots: nat
    var locks: map<LockId, int>
    var locksAt: int

    function State(): Keys
      reads this
    {
      Keys(sentinel, slots, locks, locksAt)
    }

    method InitScript(limit: int, ttl: int, ghost timeout: int, now: int) returns (added: nat)
      requires ttl == Seconds(Config(limit, timeout))
      modifies this
      ensures (State(), added) == Init(Config(limit, timeout), old(State()), now)
    {
      if sentinel {
        locksAt := now + ttl * 1000;
        return 0;
      }
      sentinel := true;
      var totalKnown := slots + |locks|;
      var slotsToAdd := limit - totalKnown;
      added := 0;
      while added < slotsToAdd
        invariant 0 <= added && slots == old(slots) + added
        invariant added <= (if slotsToAdd < 0 then 0 else slotsToAdd)
        invariant sentinel && locks == old(locks)
      {
        slots := slots + 1;
        added := added + 1;
      }
      locksAt := now + ttl * 1000;
    }

    method AcquireScript(id: LockId, ttl: int, ghost c: Config, now: int) returns (acquired: bool, held: nat)
      requires ttl == Seconds(c)
      modifies this
      ensures (State(), acquired) == Acquire(c, old(State()), id, now)
      ensures held == if acquired then |locks| else 0
    {
      if slots == 0 {
        return false, 0;
      }
      slots := slots - 1;
      locks := locks[id := now];
      locksAt := now + ttl * 1000;
      return true, |locks|;
    }

    method ReleaseScript(id: LockId, ttl: int, ghost c: Config, now: int) returns (released: nat)
      requires ttl == Seconds(c)
      modifies this
      ensures (State(), released) == Release(c, old(State()), id, now)
    {
      if id !in locks {
        return 0;
      }
      locks := locks - {id};
      slots := slots + 1;
      locksAt := now + ttl * 1000;
      return 1;
    }

    method ReclaimLoop(pairs: seq<(LockId, int)>, threshold: int) returns (reclaimed: nat)
      modifies this`locks, this`slots
      ensures (locks, slots) == Sweep(old(locks), old(slots), pairs, threshold)
      ensures slots == old(slots) + reclaimed
    {
      reclaimed := 0;
      var i := 0;
      while i < |pairs|
        invariant 0 <= i <= |pairs| && slots == old(slots) + reclaimed
        invariant Sweep(locks, slots, pairs[i..], threshold) == Sweep(old(locks), old(slots), pairs, threshold)
      {
        assert pairs[i..][1..] == pairs[i + 1..];
        if pairs[i].1 < threshold {
          locks := locks - {pairs[i].0};
          slots := slots + 1;
          reclaimed := reclaimed + 1;
        }
        i := i + 1;
      }
    }

    /** Works on the hash as it was read at the start. */
    method ReclaimScript(pairs: seq<(LockId, int)>, timeout: int, ttl: int, ghost c: Config, now: int)
      returns (reclaimed: nat)
      requires c.timeout == timeout && ttl == Seconds(c) && Lists(pairs, locks)
      modifies this
      ensures (State(), reclaimed) == Reclaim(c, old(State()), now)
    {
      SweepReclaims(c, State(), pairs, now);
      reclaimed := ReclaimLoop(pairs, now - timeout);
      if reclaimed > 0 {
        locksAt := now + ttl * 1000;
      }
    }
  }
}
