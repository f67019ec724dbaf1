/** The sliding-window limiter: a sorted set of admission times. */
module Window {
  import opened Ids
  import KeyLifetime

  datatype Config = Config(limit: int, window: int)

  /** The sorted set, and the time before which Redis keeps it. */
  datatype Key = Key(scores: seq<int>, expireAt: Option<int>)

  datatype Reply = Reply(allowed: bool, count: nat, retryIn: int)

  const ABSENT := Key([], None)

  ghost predicate Sorted(s: seq<int>) {
    forall i, j :: 0 <= i <= j < |s| ==> s[i] <= s[j]
  }

  /** ZREMRANGEBYSCORE from minus infinity. */
  function Prune(s: seq<int>, cutoff: int): seq<int> {
    if s == [] then []
    else if s[0] <= cutoff then Prune(s[1..], cutoff)
    else [s[0]] + Prune(s[1..], cutoff)
  }

  /** ZADD of a fresh member. */
  function Insert(s: seq<int>, x: int): seq<int> {
    if s == [] || s[|s| - 1] <= x then s + [x]
    else Insert(s[..|s| - 1], x) + [s[|s| - 1]]
  }

  /** The admission script. */
  function Acquire(c: Config, k: Key, now: int): (Key, Reply) {
    var kept := Prune(k.scores, now - c.window);
    if |kept| >= c.limit then
      (Key(kept, if kept == [] then None else k.expireAt),
       Reply(false, |kept|,
         if kept == [] then c.window
         else if kept[0] + c.window - now < 0 then 0
         else kept[0] + c.window - now))
    else
      (Key(Insert(kept, now), Some(now + KeyLifetime.Seconds(c.window) * KeyLifetime.SECOND)),
       Reply(true, |kept| + 1, 0))
  }

  lemma {:induction false} NothingToPrune(s: seq<int>, cutoff: int)
    requires forall i :: 0 <= i < |s| ==> cutoff < s[i]
    ensures Prune(s, cutoff) == s
    decreases |s|
  {
    if s != [] {
      NothingToPrune(s[1..], cutoff);
    }
  }

  /** Pruning what follows old scores in a sorted sequence leaves exactly the scores after the cutoff. */
  lemma {:induction false} PruneIsSuffix(s: seq<int>, base: nat, cutoff: int) returns (k: nat)
    requires Sorted(s) && base <= |s|
    requires base > 0 ==> s[base - 1] <= cutoff
    ensures base <= k <= |s| && Prune(s[base..], cutoff) == s[k..]
    ensures forall i :: 0 <= i < |s| ==> (i < k <==> s[i] <= cutoff)
    decreases |s| - base
  {
    k := base;
    if base < |s| {
      if s[base] <= cutoff {
        k := PruneIsSuffix(s, base + 1, cutoff);
        assert s[base..][1..] == s[base + 1..];
      } else {
        NothingToPrune(s[base..], cutoff);
      }
    }
  }

  /** A limiter key under its clock, with the times of all admissions so far. */
  datatype State = State(key: Key, clock: int, admitted: seq<int>)

  /** One call of the script; `expired` tells whether Redis has dropped the key by then. */
  datatype Step = Step(now: int, expired: bool)

  predicate Enabled(s: State, step: Step) {
    && s.clock <= step.now
    && (step.expired ==> s.key.expireAt.None? || s.key.expireAt.value <= step.now)
  }

  function Next(c: Config, s: State, step: Step): State {
    var (key, reply) := Acquire(c, Found(s, step), step.now);
    State(key, step.now, if reply.allowed then s.admitted + [step.now] else s.admitted)
  }

  function Cap(c: Config): nat {
    if c.limit < 0 then 0 else c.limit
  }

  /** Of any two admissions at least `limit` apart, the later one came a whole window later. */
  ghost predicate Spaced(c: Config, admitted: seq<int>) {
    forall i, j :: 0 <= i <= j < |admitted| && i + Cap(c) <= j ==> admitted[i] + c.window <= admitted[j]
  }

  /** The key holds the admissions from the k-th on, and the earlier ones are out of the window. */
  ghost predicate Holds(c: Config, s: State, k: nat) {
    && k <= |s.admitted| && s.key.scores == s.admitted[k..] && |s.admitted| - k <= Cap(c)
    && (k > 0 ==> s.admitted[k - 1] <= s.clock - c.window)
  }

  ghost predicate Outlives(c: Config, s: State) {
    s.key.scores != [] && s.admitted != [] ==>
      s.key.expireAt.Some? && s.admitted[|s.admitted| - 1] + c.window <= s.key.expireAt.value
  }

  ghost predicate Inv(c: Config, s: State) {
    && Sorted(s.admitted) && Spaced(c, s.admitted)
    && (s.admitted != [] ==> s.admitted[|s.admitted| - 1] <= s.clock)
    && (exists k :: Holds(c, s, k))
    && Outlives(c, s)
  }

  /** The scores that a call finds: none, if the key has expired. */
  function Found(s: State, step: Step): Key {
    if step.expired then ABSENT else s.key
  }

  lemma ExpiredIsOld(c: Config, s: State, k: nat, step: Step)
    requires Holds(c, s, k) && Outlives(c, s) && Enabled(s, step) && step.expired && Sorted(s.admitted)
    ensures forall i :: 0 <= i < |s.admitted| ==> s.admitted[i] <= step.now - c.window
  {
    if s.admitted != [] {
      var last := s.admitted[|s.admitted| - 1];
      assert last <= step.now - c.window;
      assert forall i :: 0 <= i < |s.admitted| ==> s.admitted[i] <= last;
    }
  }

  /** What pruning keeps is exactly the admissions inside the window, expired key or not. */
  lemma KeptIsRecent(c: Config, s: State, step: Step, base: nat) returns (k: nat)
    requires Sorted(s.admitted) && Holds(c, s, base) && Outlives(c, s) && Enabled(s, step)
    ensures k <= |s.admitted| && Prune(Found(s, step).scores, step.now - c.window) == s.admitted[k..]
    ensures forall i :: 0 <= i < |s.admitted| ==> (i < k <==> s.admitted[i] <= step.now - c.window)
    ensures |s.admitted| - k <= Cap(c)
  {
    if step.expired {
      k := |s.admitted|;
      ExpiredIsOld(c, s, base, step);
    } else {
      k := PruneIsSuffix(s.admitted, base, step.now - c.window);
    }
  }

  /** The state after a call at `now` that kept the admissions from the k-th on. */
  function After(c: Config, s: State, k: nat, now: int): State
    requires k <= |s.admitted|
  {
    if |s.admitted| - k >= c.limit then
      State(Key(s.admitted[k..], if k == |s.admitted| then None else s.key.expireAt), now, s.admitted)
    else
      State(Key(s.admitted[k..] + [now], Some(now + KeyLifetime.Seconds(c.window) * KeyLifetime.SECOND)),
            now, s.admitted + [now])
  }

  lemma Decides(c: Config, s: State, step: Step, k: nat)
    requires k <= |s.admitted| && Prune(Found(s, step).scores, step.now - c.window) == s.admitted[k..]
    requires s.admitted != [] ==> s.admitted[|s.admitted| - 1] <= step.now
    requires k < |s.admitted| ==> s.admitted[k] > step.now - c.window
    ensures k < |s.admitted| ==> s.key.scores != []
    ensures Next(c, s, step) == After(c, s, k, step.now)
    ensures Acquire(c, Found(s, step), step.now).1.allowed <==> |s.admitted| - k < c.limit
    ensures Acquire(c, Found(s, step), step.now).1.count == |Next(c, s, step).admitted| - k
    ensures |s.admitted| - k >= c.limit ==>
      Acquire(c, Found(s, step), step.now).1.retryIn
        == if k == |s.admitted| then c.window else s.admitted[k] + c.window - step.now
  {
    var kept := s.admitted[k..];
    if k < |s.admitted| {
      assert kept[0] == s.admitted[k] && kept[|kept| - 1] == s.admitted[|s.admitted| - 1];
    }
    assert Insert(kept, step.now) == kept + [step.now];
  }

  /** A call is decided by the admissions inside the window alone. */
  lemma Outcome(c: Config, s: State, step: Step) returns (k: nat)
    requires c.window >= 1 && Inv(c, s) && Enabled(s, step)
    ensures k <= |s.admitted|
    ensures forall i :: 0 <= i < |s.admitted| ==> (i < k <==> s.admitted[i] <= step.now - c.window)
    ensures |s.admitted| - k <= Cap(c)
    ensures k < |s.admitted| ==> s.key.scores != []
    ensures Next(c, s, step) == After(c, s, k, step.now)
    ensures Acquire(c, Found(s, step), step.now).1.allowed <==> |s.admitted| - k < c.limit
    ensures Acquire(c, Found(s, step), step.now).1.count == |Next(c, s, step).admitted| - k
    ensures |s.admitted| - k >= c.limit ==>
      Acquire(c, Found(s, step), step.now).1.retryIn
        == if k == |s.admitted| then c.window else s.admitted[k] + c.window - step.now
  {
    var base :| Holds(c, s, base);
    k := KeptIsRecent(c, s, step, base);
    Decides(c, s, step, k);
  }

  lemma AfterKeepsSpaced(c: Config, admitted: seq<int>, k: nat, now: int)
    requires Sorted(admitted) && Spaced(c, admitted) && k <= |admitted|
    requires forall i :: 0 <= i < |admitted| ==> admitted[i] <= now
    requires forall i :: 0 <= i < k ==> admitted[i] <= now - c.window
    requires |admitted| - k < c.limit
    ensures Sorted(admitted + [now]) && Spaced(c, admitted + [now])
  {
  }

  lemma AfterHolds(c: Config, s: State, k: nat, now: int)
    requires k <= |s.admitted| && |s.admitted| - k <= Cap(c)
    requires k > 0 ==> s.admitted[k - 1] <= now - c.window
    requires Outlives(c, s) && (k < |s.admitted| ==> s.key.scores != [])
    ensures Holds(c, After(c, s, k, now), k) && Outlives(c, After(c, s, k, now))
  {
    KeyLifetime.Covers(c.window);
    assert (s.admitted + [now])[k..] == s.admitted[k..] + [now];
  }

  lemma AfterKeepsInv(c: Config, s: State, k: nat, now: int)
    requires Sorted(s.admitted) && Spaced(c, s.admitted) && Outlives(c, s)
    requires s.admitted != [] ==> s.admitted[|s.admitted| - 1] <= now
    requires k <= |s.admitted| && |s.admitted| - k <= Cap(c) && (k < |s.admitted| ==> s.key.scores != [])
    requires forall i :: 0 <= i < |s.admitted| ==> (i < k <==> s.admitted[i] <= now - c.window)
    ensures Inv(c, After(c, s, k, now))
  {
    AfterHolds(c, s, k, now);
    if |s.admitted| - k < c.limit {
      assert forall i :: 0 <= i < |s.admitted| ==> s.admitted[i] <= s.admitted[|s.admitted| - 1];
      AfterKeepsSpaced(c, s.admitted, k, now);
    }
  }

  lemma StepKeepsInv(c: Config, s: State, step: Step)
    requires c.window >= 1 && Inv(c, s) && Enabled(s, step)
    ensures Inv(c, Next(c, s, step))
  {
    var k := Outcome(c, s, step);
    AfterKeepsInv(c, s, k, step.now);
  }

  ghost predicate Possible(c: Config, s: State, steps: seq<Step>)
    decreases |steps|
  {
    steps == [] || (Enabled(s, steps[0]) && Possible(c, Next(c, s, steps[0]), steps[1..]))
  }

  ghost function Run(c: Config, s: State, steps: seq<Step>): State
    decreases |steps|
  {
    if steps == [] then s else Run(c, Next(c, s, steps[0]), steps[1..])
  }

  lemma {:induction false} RunKeepsInv(c: Config, s: State, steps: seq<Step>)
    requires c.window >= 1 && Inv(c, s) && Possible(c, s, steps)
    ensures Inv(c, Run(c, s, steps))
    decreases |steps|
  {
    if steps != [] {
      StepKeepsInv(c, s, steps[0]);
      RunKeepsInv(c, Next(c, s, steps[0]), steps[1..]);
    }
  }

  /** The admissions whose time lies in (t - window, t]. */
  ghost function Within(c: Config, admitted: seq<int>, t: int): set<int> {
    set i | 0 <= i < |admitted| && t - c.window < admitted[i] <= t
  }

  lemma {:induction false} SizeWithin(a: set<int>, lo: int, n: nat)
    requires forall i :: i in a ==> lo <= i < lo + n
    ensures |a| <= n
    decreases n
  {
    if n == 0 {
      assert forall i :: i !in a;
    } else {
      SizeWithin(a - {lo + n - 1}, lo, n - 1);
    }
  }

  lemma SpacedBounds(c: Config, admitted: seq<int>, t: int)
    requires Sorted(admitted) && Spaced(c, admitted)
    ensures |Within(c, admitted, t)| <= Cap(c)
  {
    var k := PruneIsSuffix(admitted, 0, t - c.window);
    forall i | i in Within(c, admitted, t)
      ensures k <= i < k + Cap(c)
    {
      assert k <= i;
      assert admitted[k] > t - c.window;
    }
    SizeWithin(Within(c, admitted, t), k, Cap(c));
  }

  /** In every run, whatever keys expire on the way, every window holds at most `limit` admissions. */
  lemma WindowIsExact(c: Config, clock: int, steps: seq<Step>, t: int)
    requires c.window >= 1 && Possible(c, State(ABSENT, clock, []), steps)
    ensures |Within(c, Run(c, State(ABSENT, clock, []), steps).admitted, t)| <= Cap(c)
  {
    assert Holds(c, State(ABSENT, clock, []), 0);
    RunKeepsInv(c, State(ABSENT, clock, []), steps);
    SpacedBounds(c, Run(c, State(ABSENT, clock, []), steps).admitted, t);
  }

  lemma {:induction false} SizeOfRange(a: set<int>, lo: int, n: nat)
    requires forall i :: i in a <==> lo <= i < lo + n
    ensures |a| == n
    decreases n
  {
    if n == 0 {
      assert forall i :: i !in a;
    } else {
      SizeOfRange(a - {lo + n - 1}, lo, n - 1);
    }
  }

  lemma LastIsLatest(admitted: seq<int>, clock: int)
    requires Sorted(admitted) && (admitted != [] ==> admitted[|admitted| - 1] <= clock)
    ensures forall i :: 0 <= i < |admitted| ==> admitted[i] <= clock
  {
  }

  lemma CountWithin(c: Config, admitted: seq<int>, clock: int, k: nat, now: int)
    requires Sorted(admitted) && (admitted != [] ==> admitted[|admitted| - 1] <= clock) && clock <= now
    requires k <= |admitted| && forall i :: 0 <= i < |admitted| ==> (i < k <==> admitted[i] <= now - c.window)
    ensures |Within(c, admitted, now)| == |admitted| - k
  {
    LastIsLatest(admitted, clock);
    SizeOfRange(Within(c, admitted, now), k, |admitted| - k);
  }

  lemma AdmittedByCount(c: Config, s: State, step: Step)
    requires c.window >= 1 && Inv(c, s) && Enabled(s, step)
    ensures var r := Acquire(c, Found(s, step), step.now).1;
      && (r.allowed <==> |Within(c, s.admitted, step.now)| < c.limit)
      && r.count == |Within(c, s.admitted, step.now)| + (if r.allowed then 1 else 0)
  {
    var k := Outcome(c, s, step);
    assert |After(c, s, k, step.now).admitted| == |s.admitted| + if |s.admitted| - k >= c.limit then 0 else 1;
    CountWithin(c, s.admitted, s.clock, k, step.now);
  }

  /** In every run, whatever keys expire, a call is admitted exactly when fewer than `limit` admissions lie in the
      window that ends now, and it reports their number, itself included. */
  lemma AdmittedIffRoom(c: Config, clock: int, steps: seq<Step>, step: Step)
    requires c.window >= 1 && Possible(c, State(ABSENT, clock, []), steps)
    requires Enabled(Run(c, State(ABSENT, clock, []), steps), step)
    ensures var s := Run(c, State(ABSENT, clock, []), steps);
      var r := Acquire(c, Found(s, step), step.now).1;
      && (r.allowed <==> |Within(c, s.admitted, step.now)| < c.limit)
      && r.count == |Within(c, s.admitted, step.now)| + (if r.allowed then 1 else 0)
  {
    assert Holds(c, State(ABSENT, clock, []), 0);
    RunKeepsInv(c, State(ABSENT, clock, []), steps);
    AdmittedByCount(c, Run(c, State(ABSENT, clock, []), steps), step);
  }

  /** The clamp of the retry time to zero is never taken: a refusal names a positive wait within the window. */
  lemma RetryIsPositive(c: Config, s: State, step: Step)
    requires c.window >= 1 && Inv(c, s) && Enabled(s, step)
    requires !Acquire(c, Found(s, step), step.now).1.allowed
    ensures 0 < Acquire(c, Found(s, step), step.now).1.retryIn <= c.window
  {
    var k := Outcome(c, s, step);
    assert k < |s.admitted| ==> s.admitted[k] <= s.admitted[|s.admitted| - 1];
  }

  /**
    After a refusal, and with no call in between, a second call is admitted exactly when
    it comes no sooner than the reported retry time, whether or not the key expires first.
   */
  lemma RetryIsExact(c: Config, s: State, step: Step, again: Step)
    requires c.limit >= 1 && c.window >= 1 && Inv(c, s) && Enabled(s, step)
    requires !Acquire(c, Found(s, step), step.now).1.allowed
    requires Enabled(Next(c, s, step), again)
    ensures Acquire(c, Found(Next(c, s, step), again), again.now).1.allowed
      <==> step.now + Acquire(c, Found(s, step), step.now).1.retryIn <= again.now
  {
    var k := Outcome(c, s, step);
    StepKeepsInv(c, s, step);
    var j := Outcome(c, Next(c, s, step), again);
    assert k < j <==> s.admitted[k] <= again.now - c.window;
  }

  /** The key that the script works on. */
  class Limiter {
    var scores: seq<int>
    var expireAt: Option<int>

    function State(): Key
      reads this
    {
      Key(scores, expireAt)
    }

    method DropUpTo(cutoff: int)
      requires Sorted(scores)
      modifies this`scores
      ensures scores == Prune(old(scores), cutoff)
      ensures Sorted(scores)
    {
      while scores != [] && scores[0] <= cutoff
        invariant Sorted(scores) && Prune(scores, cutoff) == Prune(old(scores), cutoff)
        decreases |scores|
      {
        scores := scores[1..];
      }
      NothingToPrune(scores, cutoff);
    }

    method AcquireScript(limit: int, window: int, ttl: int, now: int) returns (r: Reply)
      requires Sorted(scores) && ttl == KeyLifetime.Seconds(window)
      modifies this
      ensures (State(), r) == Acquire(Config(limit, window), old(State()), now)
      ensures Sorted(scores)
    {
      DropUpTo(now - window);
      if scores == [] {
        expireAt := None;
      }
      var count := |scores|;
      if count >= limit {
        if scores != [] {
          var retryIn := scores[0] + window - now;
          if retryIn < 0 {
            retryIn := 0;
          }
          return Reply(false, count, retryIn);
        }
        return Reply(false, count, window);
      }
      InsertKeepsSorted(scores, now);
      scores := Insert(scores, now);
      expireAt := Some(now + ttl * KeyLifetime.SECOND);
      r := Reply(true, count + 1, 0);
    }
  }

  lemma {:induction false} InsertBounded(s: seq<int>, x: int, top: int)
    requires x <= top && forall i :: 0 <= i < |s| ==> s[i] <= top
    ensures forall i :: 0 <= i < |Insert(s, x)| ==> Insert(s, x)[i] <= top
    decreases |s|
  {
    if s != [] && s[|s| - 1] > x {
      InsertBounded(s[..|s| - 1], x, top);
    }
  }

  lemma {:induction false} InsertKeepsSorted(s: seq<int>, x: int)
    requires Sorted(s)
    ensures Sorted(Insert(s, x))
    decreases |s|
  {
    if s != [] && s[|s| - 1] > x {
      InsertKeepsSorted(s[..|s| - 1], x);
      InsertBounded(s[..|s| - 1], x, s[|s| - 1]);
    }
  }
}
