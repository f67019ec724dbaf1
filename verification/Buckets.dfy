/**
  The points limiter (a bucket that refills with time) and the leaky bucket (one that
  drains with time).  Lua's doubles are reals here.
 */
module Points {
  import opened Ids
  import KeyLifetime

  /** Capacity in points, and the time in microseconds in which an empty bucket fills up. */
  datatype Config = Config(capacity: int, period: int)

  ghost predicate Sound(c: Config) {
    c.capacity >= 1 && c.period >= 1
  }

  /** A missing hash, or one with a balance; an adjustment may create one without a refill time. */
  datatype Key = Absent | Key(points: real, last: Option<int>, expireAt: int)

  datatype Reply = InvalidCost | Refused(left: real, wait: int) | Admitted(left: real)

  function Min(x: real, y: real): real {
    if x <= y then x else y
  }

  function Max(x: real, y: real): real {
    if x >= y then x else y
  }

  function Ceil(x: real): int {
    -(-x).Floor
  }

  /** Points that flow in (or drain out) during `dt` microseconds. */
  function Flow(c: Config, dt: int): real
    requires c.period >= 1
  {
    (dt * c.capacity) as real / c.period as real
  }

  /** The time in which `need` points flow. */
  function Duration(c: Config, need: real): real
    requires c.capacity >= 1
  {
    need * c.period as real / c.capacity as real
  }

  function Wait(c: Config, need: real): int
    requires c.capacity >= 1
  {
    Ceil(Duration(c, need))
  }

  function ExpireAt(c: Config, now: int): int {
    now + KeyLifetime.Seconds(c.period) * KeyLifetime.SECOND
  }

  /** The balance at `now`, refilled lazily. */
  function Available(c: Config, k: Key, now: int): real
    requires c.period >= 1
  {
    match k
    case Absent => c.capacity as real
    case Key(points, last, _) =>
      Min(c.capacity as real, points + Flow(c, if last.Some? then now - last.value else 0))
  }

  /** The admission script. */
  function Check(c: Config, k: Key, cost: int, now: int): (Key, Reply)
    requires Sound(c)
  {
    if cost <= 0 then (k, InvalidCost)
    else
      var have := Available(c, k, now);
      if have < cost as real then
        (k, Refused(have, Wait(c, cost as real - have)))
      else
        (Key(have - cost as real, Some(now), ExpireAt(c, now)), Admitted(have - cost as real))
  }

  function Balance(k: Key): real {
    if k.Absent? then 0.0 else k.points
  }

  /** The script that refunds (or charges) the difference between estimate and use; None is its error reply. */
  function Adjust(c: Config, k: Key, diff: int, maxRefund: int, now: int): (Key, Option<real>) {
    if diff > maxRefund then (k, None)
    else
      var current := Balance(k);
      var points := Max(0.0, Min(c.capacity as real, current + diff as real));
      (Key(points, if k.Absent? then None else k.last, ExpireAt(c, now)), Some(points))
  }

  // Arithmetic of the flow

  lemma ProductOrder(x: real, y: real, m: real)
    requires m > 0.0
    ensures x <= y <==> x * m <= y * m
  {
  }

  lemma QuotientOrder(d: real, need: real, p: real, q: real)
    requires p > 0.0 && q > 0.0
    ensures need <= d * q / p <==> need * p / q <= d
  {
    ProductOrder(need, d * q / p, p);
    ProductOrder(need * p / q, d, q);
    assert d * q / p * p == d * q;
    assert need * p / q * q == need * p;
  }

  lemma FlowAdds(c: Config, x: int, y: int)
    requires c.period >= 1
    ensures Flow(c, x + y) == Flow(c, x) + Flow(c, y)
  {
    assert (x + y) * c.capacity == x * c.capacity + y * c.capacity;
  }

  /** A bucket fills up, or drains, in one period. */
  lemma FlowIsRate(c: Config)
    requires Sound(c)
    ensures Flow(c, c.period) == c.capacity as real
    ensures Duration(c, c.capacity as real) == c.period as real
  {
    var p, q := c.period as real, c.capacity as real;
    assert (c.period * c.capacity) as real == p * q;
    assert p * q / p == q && q * p / q == p;
  }

  lemma FlowGrows(c: Config, x: int)
    requires Sound(c) && x >= 0
    ensures Flow(c, x) >= 0.0
  {
    assert x * c.capacity >= 0;
  }

  lemma FlowFills(c: Config, x: int)
    requires Sound(c) && x >= c.period
    ensures Flow(c, x) >= c.capacity as real
  {
    FlowAdds(c, c.period, x - c.period);
    FlowGrows(c, x - c.period);
    var p, q := c.period as real, c.capacity as real;
    assert (c.period * c.capacity) as real == p * q;
    assert p * q / p == q;
  }

  lemma CeilIsLeast(x: real, n: int)
    ensures n >= Ceil(x) <==> n as real >= x
  {
    var f := (-x).Floor;
    assert f as real <= -x < (f + 1) as real;
  }

  lemma FlowInReals(c: Config, d: int)
    requires c.period >= 1
    ensures Flow(c, d) == d as real * c.capacity as real / c.period as real
  {
    assert (d * c.capacity) as real == d as real * c.capacity as real;
  }

  lemma FlowInverts(c: Config, need: real, d: int)
    requires Sound(c)
    ensures need <= Flow(c, d) <==> Duration(c, need) <= d as real
  {
    FlowInReals(c, d);
    QuotientOrder(d as real, need, c.period as real, c.capacity as real);
  }

  /** `need` points have flowed after `d` microseconds exactly from the computed wait on. */
  lemma FlowReaches(c: Config, need: real, d: int)
    requires Sound(c)
    ensures Flow(c, d) >= need <==> d >= Wait(c, need)
  {
    FlowInverts(c, need, d);
    CeilIsLeast(Duration(c, need), d);
  }

  // Runs

  /** One script call; `expired` tells whether Redis has dropped the key by then. */
  datatype Step =
    | CheckAt(cost: int, now: int, expired: bool)
    | AdjustAt(diff: int, maxRefund: int, now: int, expired: bool)

  function Found(k: Key, step: Step): Key {
    if step.expired then Absent else k
  }

  predicate Enabled(k: Key, clock: int, step: Step) {
    clock <= step.now && (step.expired && k.Key? ==> k.expireAt <= step.now)
  }

  function Next(c: Config, k: Key, step: Step): Key
    requires Sound(c)
  {
    match step
    case CheckAt(cost, now, _) => Check(c, Found(k, step), cost, now).0
    case AdjustAt(diff, maxRefund, now, _) => Adjust(c, Found(k, step), diff, maxRefund, now).0
  }

  ghost predicate Possible(c: Config, k: Key, clock: int, steps: seq<Step>)
    requires Sound(c)
    decreases |steps|
  {
    steps == [] || (Enabled(k, clock, steps[0]) && Possible(c, Next(c, k, steps[0]), steps[0].now, steps[1..]))
  }

  /** Balances stay in range, and a key with a refill time outlives the refill. */
  ghost predicate Inv(c: Config, k: Key, clock: int) {
    k.Key? ==>
      && 0.0 <= k.points <= c.capacity as real
      && (k.last.Some? ==> k.last.value <= clock && ExpireAt(c, k.last.value) <= k.expireAt)
  }

  lemma StepKeepsInv(c: Config, k: Key, clock: int, step: Step)
    requires Sound(c) && Inv(c, k, clock) && Enabled(k, clock, step)
    ensures Inv(c, Next(c, k, step), step.now)
  {
    if step.CheckAt? {
      var have := Available(c, Found(k, step), step.now);
      if step.cost > 0 && have >= step.cost as real {
        assert have <= c.capacity as real;
      }
    }
  }

  /** Points taken by a call within [from, until], less the points that it credits. */
  function Taken(c: Config, k: Key, step: Step, from: int, until: int): real
    requires Sound(c)
  {
    if !(from <= step.now <= until) then 0.0
    else
      match step
      case CheckAt(cost, now, _) =>
        if Check(c, Found(k, step), cost, now).1.Admitted? then cost as real else 0.0
      case AdjustAt(diff, maxRefund, now, _) =>
        var r := Adjust(c, Found(k, step), diff, maxRefund, now).1;
        if r.None? || diff <= 0 then 0.0 else Balance(Found(k, step)) - r.value
  }

  function NetTaken(c: Config, k: Key, steps: seq<Step>, from: int, until: int): real
    requires Sound(c)
    decreases |steps|
  {
    if steps == [] then 0.0
    else Taken(c, k, steps[0], from, until) + NetTaken(c, Next(c, k, steps[0]), steps[1..], from, until)
  }

  /** The most that could be had at `now`; a key without a refill time may yet expire into a full bucket. */
  function Potential(c: Config, k: Key, now: int): real
    requires c.period >= 1
  {
    if k.Absent? || k.last.None? then c.capacity as real else Available(c, k, now)
  }

  lemma PotentialGrows(c: Config, k: Key, clock: int, now: int)
    requires Sound(c) && Inv(c, k, clock) && clock <= now
    ensures 0.0 <= Potential(c, k, clock) <= c.capacity as real
    ensures Potential(c, k, now) <= Potential(c, k, clock) + Flow(c, now - clock)
  {
    FlowGrows(c, now - clock);
    if k.Key? && k.last.Some? {
      FlowGrows(c, clock - k.last.value);
      FlowAdds(c, clock - k.last.value, now - clock);
    }
  }

  /** When Redis may drop a key, its potential is a full bucket already. */
  lemma ExpiryAddsNothing(c: Config, k: Key, clock: int, step: Step)
    requires Sound(c) && Inv(c, k, clock) && Enabled(k, clock, step)
    ensures Potential(c, Found(k, step), step.now) == Potential(c, k, step.now)
  {
    KeyLifetime.Covers(c.period);
    if step.expired && k.Key? && k.last.Some? {
      FlowFills(c, step.now - k.last.value);
    }
  }

  lemma StepTakes(c: Config, k: Key, step: Step)
    requires Sound(c) && Inv(c, k, step.now) && !step.expired
    ensures Potential(c, Next(c, k, step), step.now) + Taken(c, k, step, step.now, step.now)
      <= Potential(c, k, step.now)
  {
    assert Flow(c, 0) == 0.0;
    if k.Key? && k.last.Some? {
      FlowGrows(c, step.now - k.last.value);
    }
  }

  lemma {:induction false} NothingAfter(c: Config, k: Key, clock: int, steps: seq<Step>, from: int, until: int)
    requires Sound(c) && Possible(c, k, clock, steps) && until < clock
    ensures NetTaken(c, k, steps, from, until) == 0.0
    decreases |steps|
  {
    if steps != [] {
      NothingAfter(c, Next(c, k, steps[0]), steps[0].now, steps[1..], from, until);
    }
  }

  lemma {:induction false} TakenSince(c: Config, k: Key, clock: int, steps: seq<Step>, from: int, until: int)
    requires Sound(c) && Inv(c, k, clock) && Possible(c, k, clock, steps) && from <= clock <= until
    ensures NetTaken(c, k, steps, from, until) <= Potential(c, k, clock) + Flow(c, until - clock)
    decreases |steps|
  {
    PotentialGrows(c, k, clock, clock);
    FlowGrows(c, until - clock);
    if steps != [] {
      var step := steps[0];
      StepKeepsInv(c, k, clock, step);
      if step.now > until {
        NothingAfter(c, Next(c, k, step), step.now, steps[1..], from, until);
      } else {
        TakenSince(c, Next(c, k, step), step.now, steps[1..], from, until);
        PotentialGrows(c, k, clock, step.now);
        FlowAdds(c, step.now - clock, until - step.now);
        FoundStepTakes(c, k, clock, step);
      }
    }
  }

  lemma FoundStepTakes(c: Config, k: Key, clock: int, step: Step)
    requires Sound(c) && Inv(c, k, clock) && Enabled(k, clock, step)
    ensures Potential(c, Next(c, k, step), step.now) + Taken(c, k, step, step.now, step.now)
      <= Potential(c, k, step.now)
  {
    ExpiryAddsNothing(c, k, clock, step);
    StepTakes(c, Found(k, step), step.(expired := false));
  }

  /**
    The rate bound: whatever calls are made, refunds and extra charges among them, and
    whenever keys expire, the points taken in an interval less the points that refunds
    credited in it are at most one bucket plus what flows in during the interval.
   */
  lemma {:induction false} RateBound(c: Config, k: Key, clock: int, steps: seq<Step>, from: int, until: int)
    requires Sound(c) && Inv(c, k, clock) && Possible(c, k, clock, steps) && from <= until
    ensures NetTaken(c, k, steps, from, until) <= c.capacity as real + Flow(c, until - from)
    decreases |steps|
  {
    FlowGrows(c, until - from);
    if steps != [] {
      var step := steps[0];
      if step.now < from {
        StepKeepsInv(c, k, clock, step);
        RateBound(c, Next(c, k, step), step.now, steps[1..], from, until);
      } else if clock < from {
        assert Possible(c, k, from, steps);
        PotentialGrows(c, k, from, from);
        TakenSince(c, k, from, steps, from, until);
      } else if clock <= until {
        PotentialGrows(c, k, clock, clock);
        FlowAdds(c, clock - from, until - clock);
        FlowGrows(c, clock - from);
        TakenSince(c, k, clock, steps, from, until);
      } else {
        NothingAfter(c, k, clock, steps, from, until);
      }
    }
  }

  /** A refused request is admitted on being repeated `d` microseconds later, with no call in between. */
  predicate AdmittedAfter(c: Config, k: Key, cost: int, now: int, d: nat)
    requires Sound(c)
  {
    Check(c, k, cost, now + d).1.Admitted?
  }

  lemma AvailableLater(c: Config, k: Key, cost: int, now: int, d: nat)
    requires Sound(c) && k.Key? && k.last.Some? && cost <= c.capacity
    requires Available(c, k, now) < cost as real
    ensures Available(c, k, now + d) >= cost as real <==> Flow(c, d) >= cost as real - Available(c, k, now)
  {
    FlowAdds(c, now - k.last.value, d);
    assert now + d - k.last.value == now - k.last.value + d;
  }

  /**
    The wait that a refusal reports is the least whole number of microseconds after which
    the request is admitted, exactly when the cost fits the bucket and the key has a refill time.
   */
  lemma WaitIsExact(c: Config, k: Key, cost: int, now: int)
    requires Sound(c) && Check(c, k, cost, now).1.Refused?
    ensures (forall d: nat :: AdmittedAfter(c, k, cost, now, d) <==> d >= Check(c, k, cost, now).1.wait)
      <==> cost <= c.capacity && k.Key? && k.last.Some?
  {
    var wait := Check(c, k, cost, now).1.wait;
    if cost <= c.capacity && k.Key? && k.last.Some? {
      forall d: nat
        ensures AdmittedAfter(c, k, cost, now, d) <==> d >= wait
      {
        AvailableLater(c, k, cost, now, d);
        FlowReaches(c, cost as real - Available(c, k, now), d);
      }
    } else {
      var d: nat := if wait < 0 then 0 else wait;
      assert !AdmittedAfter(c, k, cost, now, d);
    }
  }

  /** A refund that finds the key expired leaves a balance that never refills. */
  lemma LateRefundStalls(d: nat)
    ensures var c := Config(10, 1_000_000);
            var k := Adjust(c, Absent, 1, 5, 0).0;
            && Check(c, k, 5, 0).1 == Refused(1.0, 400_000)
            && !AdmittedAfter(c, k, 5, 0, d)
  {
    var c := Config(10, 1_000_000);
    var k := Adjust(c, Absent, 1, 5, 0).0;
    assert k.points == 1.0 && Flow(c, 0) == 0.0;
    CeilIsLeast(400_000.0, 400_000);
    CeilIsLeast(400_000.0, 399_999);
  }

  // Expiry cannot be observed without adjustments

  ghost predicate Same(c: Config, k: Key, other: Key, clock: int)
    requires c.period >= 1
  {
    forall t :: clock <= t ==> Available(c, k, t) == Available(c, other, t)
  }

  function Kept(steps: seq<Step>): seq<Step>
    decreases |steps|
  {
    if steps == [] then [] else [steps[0].(expired := false)] + Kept(steps[1..])
  }

  function Replies(c: Config, k: Key, steps: seq<Step>): seq<Reply>
    requires Sound(c) && forall step :: step in steps ==> step.CheckAt?
    decreases |steps|
  {
    if steps == [] then []
    else [Check(c, Found(k, steps[0]), steps[0].cost, steps[0].now).1] + Replies(c, Next(c, k, steps[0]), steps[1..])
  }

  ghost predicate Refilling(c: Config, k: Key, clock: int) {
    Inv(c, k, clock) && (k.Key? ==> k.last.Some?)
  }

  lemma ExpiredIsFull(c: Config, k: Key, clock: int, step: Step)
    requires Sound(c) && Refilling(c, k, clock) && Enabled(k, clock, step)
    ensures Same(c, Found(k, step), k, step.now)
  {
    KeyLifetime.Covers(c.period);
    if step.expired && k.Key? {
      forall t | step.now <= t
        ensures Available(c, k, t) == c.capacity as real
      {
        FlowFills(c, t - k.last.value);
      }
    }
  }

  lemma SameStep(c: Config, k: Key, other: Key, clock: int, step: Step)
    requires Sound(c) && Refilling(c, k, clock) && Enabled(k, clock, step) && step.CheckAt?
    requires Same(c, k, other, clock)
    ensures Check(c, Found(k, step), step.cost, step.now).1 == Check(c, other, step.cost, step.now).1
    ensures Same(c, Next(c, k, step), Check(c, other, step.cost, step.now).0, step.now)
    ensures Refilling(c, Next(c, k, step), step.now)
  {
    ExpiredIsFull(c, k, clock, step);
    StepKeepsInv(c, k, clock, step);
    assert Available(c, Found(k, step), step.now) == Available(c, other, step.now);
  }

  lemma {:induction false} SameReplies(c: Config, k: Key, other: Key, clock: int, steps: seq<Step>)
    requires Sound(c) && Refilling(c, k, clock) && Possible(c, k, clock, steps) && Same(c, k, other, clock)
    requires forall step :: step in steps ==> step.CheckAt?
    ensures forall step :: step in Kept(steps) ==> step.CheckAt?
    ensures Replies(c, k, steps) == Replies(c, other, Kept(steps))
    decreases |steps|
  {
    if steps != [] {
      var step := steps[0];
      SameStep(c, k, other, clock, step);
      SameReplies(c, Next(c, k, step), Check(c, other, step.cost, step.now).0, step.now, steps[1..]);
      assert Kept(steps)[0] == CheckAt(step.cost, step.now, false) && Kept(steps)[1..] == Kept(steps[1..]);
    }
  }

  /** Runs of admission calls get the same replies whether or not Redis ever drops the key. */
  lemma ExpiryUnobservable(c: Config, clock: int, steps: seq<Step>)
    requires Sound(c) && Possible(c, Absent, clock, steps)
    requires forall step :: step in steps ==> step.CheckAt?
    ensures forall step :: step in Kept(steps) ==> step.CheckAt?
    ensures Replies(c, Absent, steps) == Replies(c, Absent, Kept(steps))
  {
    SameReplies(c, Absent, Absent, clock, steps);
  }

  // An admission takes its cost and no more

  /** A request is admitted exactly when its cost is positive and there, and then exactly its cost is gone;
      else nothing changes. */
  lemma CheckIsExact(c: Config, k: Key, cost: int, now: int)
    requires Sound(c)
    ensures var (n, r) := Check(c, k, cost, now); var have := Available(c, k, now);
      && (cost <= 0 ==> r == InvalidCost && n == k)
      && (0 < cost && cost as real <= have ==>
            r == Admitted(have - cost as real) && Available(c, n, now) == have - cost as real)
      && (0 < cost && cost as real > have ==> r.Refused? && r.left == have && n == k)
  {
    assert Flow(c, 0) == 0.0;
  }

  /** Settling an estimate: a check for the estimate, and an adjustment by what it was off, leave the key
      that a check for the actual cost would have left. */
  lemma EstimateThenSettle(c: Config, k: Key, estimate: int, actual: int, now: int)
    requires Sound(c) && 1 <= estimate && 1 <= actual
    requires estimate as real <= Available(c, k, now) && actual as real <= Available(c, k, now)
    ensures Adjust(c, Check(c, k, estimate, now).0, estimate - actual, estimate, now).0 == Check(c, k, actual, now).0
  {
    assert Available(c, k, now) <= c.capacity as real;
  }

  /** An adjustment moves the balance by the difference, as far as the bucket allows, and leaves the time of
      the last refill; a refund of more than was taken is turned down. */
  lemma AdjustIsExact(c: Config, k: Key, diff: int, maxRefund: int, now: int)
    requires Sound(c)
    ensures var (n, r) := Adjust(c, k, diff, maxRefund, now);
      && (diff > maxRefund <==> r.None?) && (r.None? ==> n == k)
      && (r.Some? ==>
            && n.Key? && r.value == n.points && n.last == (if k.Key? then k.last else None)
            && (n.points == Balance(k) + diff as real
                || (n.points == 0.0 && Balance(k) + diff as real < 0.0)
                || (n.points == c.capacity as real && Balance(k) + diff as real > c.capacity as real)))
  {
  }

  predicate OnlyChecks(steps: seq<Step>) {
    forall i :: 0 <= i < |steps| ==> steps[i].CheckAt?
  }

  function Run(c: Config, k: Key, steps: seq<Step>): Key
    requires Sound(c)
    decreases |steps|
  {
    if steps == [] then k else Run(c, Next(c, k, steps[0]), steps[1..])
  }

  function EndTime(clock: int, steps: seq<Step>): int {
    if steps == [] then clock else steps[|steps| - 1].now
  }

  /** Since `from`, when the bucket was full, `taken` points have been taken and none has gone to waste. */
  ghost predicate Owes(c: Config, k: Key, clock: int, from: int, taken: real)
    requires c.period >= 1
  {
    from <= clock && Available(c, k, clock) == c.capacity as real + Flow(c, clock - from) - taken
  }

  /** As time passes, either nothing goes to waste or the bucket is full again. */
  lemma LaterOwes(c: Config, k: Key, clock: int, now: int, from: int, taken: real)
    requires Sound(c) && Refilling(c, k, clock) && clock <= now && Owes(c, k, clock, from, taken)
    ensures Owes(c, k, now, from, taken) || (clock < now && Owes(c, k, now, now, 0.0))
  {
    assert Flow(c, 0) == 0.0;
    FlowAdds(c, clock - from, now - clock);
    FlowGrows(c, now - clock);
    if k.Key? {
      FlowAdds(c, clock - k.last.value, now - clock);
    } else {
      FlowGrows(c, clock - from);
    }
  }

  lemma StepOwes(c: Config, k: Key, clock: int, step: Step, from: int, taken: real) returns (from': int, taken': real)
    requires Sound(c) && Refilling(c, k, clock) && Enabled(k, clock, step) && step.CheckAt?
    requires Owes(c, k, clock, from, taken)
    ensures Refilling(c, Next(c, k, step), step.now) && Owes(c, Next(c, k, step), step.now, from', taken')
    ensures taken' == (if from' == from then taken else 0.0) + Taken(c, k, step, from', step.now)
    ensures from' == from || from' == step.now > clock
  {
    StepKeepsInv(c, k, clock, step);
    ExpiredIsFull(c, k, clock, step);
    LaterOwes(c, k, clock, step.now, from, taken);
    from' := if Owes(c, k, step.now, from, taken) then from else step.now;
    taken' := (if from' == from then taken else 0.0) + Taken(c, k, step, from', step.now);
    assert Available(c, Found(k, step), step.now) == Available(c, k, step.now);
    CheckIsExact(c, Found(k, step), step.cost, step.now);
  }

  lemma {:induction false} TimesGrow(c: Config, k: Key, clock: int, steps: seq<Step>)
    requires Sound(c) && Possible(c, k, clock, steps)
    ensures clock <= EndTime(clock, steps)
    ensures forall i :: 0 <= i < |steps| ==> clock <= steps[i].now <= EndTime(clock, steps)
    decreases |steps|
  {
    if steps != [] {
      TimesGrow(c, Next(c, k, steps[0]), steps[0].now, steps[1..]);
      assert forall i :: 1 <= i < |steps| ==> steps[i] == steps[1..][i - 1];
    }
  }

  lemma {:induction false} RunOwes(c: Config, k: Key, clock: int, steps: seq<Step>, from: int, taken: real)
    returns (from': int, taken': real)
    requires Sound(c) && Refilling(c, k, clock) && Possible(c, k, clock, steps) && OnlyChecks(steps)
    requires Owes(c, k, clock, from, taken)
    ensures Refilling(c, Run(c, k, steps), EndTime(clock, steps))
    ensures Owes(c, Run(c, k, steps), EndTime(clock, steps), from', taken')
    ensures from' == from || from' > clock
    ensures taken' == (if from' == from then taken else 0.0) + NetTaken(c, k, steps, from', EndTime(clock, steps))
    decreases |steps|
  {
    from', taken' := from, taken;
    if steps != [] {
      var step := steps[0];
      TimesGrow(c, k, clock, steps);
      var f, x := StepOwes(c, k, clock, step, from, taken);
      from', taken' := RunOwes(c, Next(c, k, step), step.now, steps[1..], f, x);
      assert EndTime(step.now, steps[1..]) == EndTime(clock, steps);
    }
  }

  lemma {:induction false} UntilLater(c: Config, k: Key, clock: int, steps: seq<Step>, from: int, until: int)
    requires Sound(c) && Possible(c, k, clock, steps) && EndTime(clock, steps) <= until
    ensures NetTaken(c, k, steps, from, until) == NetTaken(c, k, steps, from, EndTime(clock, steps))
    ensures from > EndTime(clock, steps) ==> NetTaken(c, k, steps, from, until) == 0.0
    decreases |steps|
  {
    if steps != [] {
      TimesGrow(c, k, clock, steps);
      UntilLater(c, Next(c, k, steps[0]), steps[0].now, steps[1..], from, until);
      assert EndTime(steps[0].now, steps[1..]) == EndTime(clock, steps);
    }
  }

  lemma {:induction false} OneMore(c: Config, k: Key, clock: int, steps: seq<Step>, step: Step, from: int, until: int)
    requires Sound(c) && Possible(c, k, clock, steps) && Enabled(Run(c, k, steps), EndTime(clock, steps), step)
    ensures Possible(c, k, clock, steps + [step])
    ensures NetTaken(c, k, steps + [step], from, until)
      == NetTaken(c, k, steps, from, until) + Taken(c, Run(c, k, steps), step, from, until)
    decreases |steps|
  {
    if steps == [] {
      assert steps + [step] == [step] && [step][1..] == [];
    } else {
      assert (steps + [step])[1..] == steps[1..] + [step];
      assert EndTime(steps[0].now, steps[1..]) == EndTime(clock, steps);
      OneMore(c, Next(c, k, steps[0]), steps[0].now, steps[1..], step, from, until);
    }
  }

  /** With this cost, more would be taken since `from` than a full bucket and what flowed in since then. */
  ghost predicate Overdraws(c: Config, steps: seq<Step>, cost: int, from: int, now: int)
    requires Sound(c)
  {
    from <= now && NetTaken(c, Absent, steps, from, now) + cost as real > c.capacity as real + Flow(c, now - from)
  }

  lemma RefusedOverdraws(c: Config, clock: int, steps: seq<Step>, step: Step) returns (from: int)
    requires Sound(c) && Possible(c, Absent, clock, steps) && OnlyChecks(steps) && step.CheckAt? && step.cost > 0
    requires Enabled(Run(c, Absent, steps), EndTime(clock, steps), step)
    requires Check(c, Found(Run(c, Absent, steps), step), step.cost, step.now).1.Refused?
    ensures Overdraws(c, steps, step.cost, from, step.now)
  {
    var k, t := Run(c, Absent, steps), EndTime(clock, steps);
    assert Flow(c, 0) == 0.0;
    var f, taken := RunOwes(c, Absent, clock, steps, clock, 0.0);
    ExpiredIsFull(c, k, t, step);
    LaterOwes(c, k, t, step.now, f, taken);
    from := if Owes(c, k, step.now, f, taken) then f else step.now;
    UntilLater(c, Absent, clock, steps, from, step.now);
    assert Available(c, Found(k, step), step.now) == Available(c, k, step.now);
  }

  /**
    The limiter refuses no more than it must: in a run of checks from a fresh key, whatever expires, a request
    is refused if and only if admitting it would overdraw some stretch of time that ends now.
   */
  lemma RefusedIffOverdrawn(c: Config, clock: int, steps: seq<Step>, step: Step)
    requires Sound(c) && Possible(c, Absent, clock, steps) && OnlyChecks(steps) && step.CheckAt? && step.cost > 0
    requires Enabled(Run(c, Absent, steps), EndTime(clock, steps), step)
    ensures Check(c, Found(Run(c, Absent, steps), step), step.cost, step.now).1.Refused?
      <==> exists from :: Overdraws(c, steps, step.cost, from, step.now)
  {
    if Check(c, Found(Run(c, Absent, steps), step), step.cost, step.now).1.Refused? {
      var from := RefusedOverdraws(c, clock, steps, step);
    } else {
      forall from
        ensures !Overdraws(c, steps, step.cost, from, step.now)
      {
        if from <= step.now {
          OneMore(c, Absent, clock, steps, step, from, step.now);
          RateBound(c, Absent, clock, steps + [step], from, step.now);
        }
      }
    }
  }

  /** The hash that the two scripts work on. */
  class Limiter {
    var points: Option<real>
    var lastRefill: Option<int>
    var expireAt: int

    ghost predicate Valid()
      reads this
    {
      lastRefill.Some? ==> points.Some?
    }

    function State(): Key
      reads this
    {
      if points.None? then Absent else Key(points.value, lastRefill, expireAt)
    }

    method CheckScript(capacity: int, refillTime: int, cost: int, ttl: int, now: int) returns (r: Reply)
      requires Valid() && Sound(Config(capacity, refillTime)) && ttl == KeyLifetime.Seconds(refillTime)
      modifies this
      ensures Valid() && (State(), r) == Check(Config(capacity, refillTime), old(State()), cost, now)
    {
      if cost <= 0 {
        return InvalidCost;
      }
      var have := if points.Some? then points.value else capacity as real;
      var last := if lastRefill.Some? then lastRefill.value else now;
      var refilled := Flow(Config(capacity, refillTime), now - last);
      have := Min(capacity as real, have + refilled);
      assert have == Available(Config(capacity, refillTime), old(State()), now);
      if have < cost as real {
        var needed := cost as real - have;
        return Refused(have, Wait(Config(capacity, refillTime), needed));
      }
      have := have - cost as real;
      points, lastRefill, expireAt := Some(have), Some(now), now + ttl * KeyLifetime.SECOND;
      r := Admitted(have);
    }

    method AdjustScript(diff: int, maxRefund: int, capacity: int, ttl: int, ghost refillTime: int, now: int)
      returns (r: Option<real>)
      requires Valid() && ttl == KeyLifetime.Seconds(refillTime)
      modifies this
      ensures Valid() && (State(), r) == Adjust(Config(capacity, refillTime), old(State()), diff, maxRefund, now)
    {
      if diff > maxRefund {
        return None;
      }
      var current := if points.Some? then points.value else 0.0;
      var updated := Max(0.0, Min(capacity as real, current + diff as real));
      points, expireAt := Some(updated), now + ttl * KeyLifetime.SECOND;
      r := Some(updated);
    }
  }
}

/** The leaky bucket: a level that drains, where the points limiter has a balance that refills. */
module Leaky {
  import opened Ids
  import KeyLifetime
  import P = Points

  datatype Key = Absent | Key(level: real, lastDrip: int, expireAt: int)

  datatype Reply = Refused(level: real, wait: int) | Admitted(level: real)

  /** The admission script. */
  function Acquire(c: P.Config, k: Key, now: int): (Key, Reply)
    requires P.Sound(c)
  {
    var drained := P.Flow(c, if k.Absent? then 0 else now - k.lastDrip);
    var level := P.Max(0.0, (if k.Absent? then 0.0 else k.level) - drained);
    if level + 1.0 > c.capacity as real then
      var overfill := level + 1.0 - c.capacity as real;
      (k, Refused(level, P.Wait(c, overfill)))
    else
      (Key(level + 1.0, now, P.ExpireAt(c, now)), Admitted(level + 1.0))
  }

  /** The free room of a leaky bucket, as the balance of a points bucket. */
  function Room(c: P.Config, k: Key): P.Key {
    match k
    case Absent => P.Absent
    case Key(level, lastDrip, expireAt) => P.Key(c.capacity as real - level, Some(lastDrip), expireAt)
  }

  function RoomReply(c: P.Config, r: Reply): P.Reply {
    match r
    case Refused(level, wait) => P.Refused(c.capacity as real - level, wait)
    case Admitted(level) => P.Admitted(c.capacity as real - level)
  }

  /** A leaky bucket is a points bucket seen from below, in which every request costs one point. */
  lemma IsPoints(c: P.Config, k: Key, now: int)
    requires P.Sound(c)
    ensures Room(c, Acquire(c, k, now).0) == P.Check(c, Room(c, k), 1, now).0
    ensures RoomReply(c, Acquire(c, k, now).1) == P.Check(c, Room(c, k), 1, now).1
  {
    assert P.Flow(c, 0) == 0.0;
    var drained := P.Flow(c, if k.Absent? then 0 else now - k.lastDrip);
    var level := P.Max(0.0, (if k.Absent? then 0.0 else k.level) - drained);
    assert P.Available(c, Room(c, k), now) == c.capacity as real - level;
  }

  datatype Step = Step(now: int, expired: bool)

  function Found(k: Key, step: Step): Key {
    if step.expired then Absent else k
  }

  predicate Enabled(k: Key, clock: int, step: Step) {
    clock <= step.now && (step.expired && k.Key? ==> k.expireAt <= step.now)
  }

  function Next(c: P.Config, k: Key, step: Step): Key
    requires P.Sound(c)
  {
    Acquire(c, Found(k, step), step.now).0
  }

  ghost predicate Possible(c: P.Config, k: Key, clock: int, steps: seq<Step>)
    requires P.Sound(c)
    decreases |steps|
  {
    steps == [] || (Enabled(k, clock, steps[0]) && Possible(c, Next(c, k, steps[0]), steps[0].now, steps[1..]))
  }

  /** How many of the calls within [from, until] are admitted. */
  function Admissions(c: P.Config, k: Key, steps: seq<Step>, from: int, until: int): nat
    requires P.Sound(c)
    decreases |steps|
  {
    if steps == [] then 0
    else
      (if from <= steps[0].now <= until && Acquire(c, Found(k, steps[0]), steps[0].now).1.Admitted? then 1 else 0)
      + Admissions(c, Next(c, k, steps[0]), steps[1..], from, until)
  }

  function Costs(steps: seq<Step>): seq<P.Step>
    decreases |steps|
  {
    if steps == [] then [] else [P.CheckAt(1, steps[0].now, steps[0].expired)] + Costs(steps[1..])
  }

  lemma {:induction false} RunIsPoints(c: P.Config, k: Key, clock: int, steps: seq<Step>, from: int, until: int)
    requires P.Sound(c) && Possible(c, k, clock, steps)
    ensures P.Possible(c, Room(c, k), clock, Costs(steps))
    ensures P.NetTaken(c, Room(c, k), Costs(steps), from, until) == Admissions(c, k, steps, from, until) as real
    decreases |steps|
  {
    if steps != [] {
      var step := steps[0];
      IsPoints(c, Found(k, step), step.now);
      RunIsPoints(c, Next(c, k, step), step.now, steps[1..], from, until);
      assert Costs(steps)[0] == P.CheckAt(1, step.now, step.expired) && Costs(steps)[1..] == Costs(steps[1..]);
      assert P.Found(Room(c, k), Costs(steps)[0]) == Room(c, Found(k, step));
    }
  }

  /** In any interval, whatever keys expire, at most one bucketful plus what drains in it is admitted. */
  lemma RateBound(c: P.Config, clock: int, steps: seq<Step>, from: int, until: int)
    requires P.Sound(c) && Possible(c, Absent, clock, steps) && from <= until
    ensures Admissions(c, Absent, steps, from, until) as real <= c.capacity as real + P.Flow(c, until - from)
  {
    RunIsPoints(c, Absent, clock, steps, from, until);
    P.RateBound(c, P.Absent, clock, Costs(steps), from, until);
  }

  /** The level at `now`, drained lazily. */
  function Level(c: P.Config, k: Key, now: int): real
    requires P.Sound(c)
  {
    c.capacity as real - P.Available(c, Room(c, k), now)
  }

  /** A call is admitted exactly when one more fits, and then the level is one higher; else nothing changes. */
  lemma AcquireIsExact(c: P.Config, k: Key, now: int)
    requires P.Sound(c)
    ensures var (n, r) := Acquire(c, k, now); var level := Level(c, k, now);
      && (level + 1.0 <= c.capacity as real ==> r == Admitted(level + 1.0) && Level(c, n, now) == level + 1.0)
      && (level + 1.0 > c.capacity as real ==> r.Refused? && r.level == level && n == k)
  {
    IsPoints(c, k, now);
    P.CheckIsExact(c, Room(c, k), 1, now);
  }

  /** The level after a call is what was poured in, less what has drained since. */
  lemma LevelDrains(c: P.Config, k: Key, now: int)
    requires P.Sound(c)
    ensures Level(c, Absent, now) == 0.0
    ensures k.Key? ==> Level(c, k, now) == P.Max(0.0, k.level - P.Flow(c, now - k.lastDrip))
  {
  }

  function Run(c: P.Config, k: Key, steps: seq<Step>): Key
    requires P.Sound(c)
    decreases |steps|
  {
    if steps == [] then k else Run(c, Next(c, k, steps[0]), steps[1..])
  }

  function EndTime(clock: int, steps: seq<Step>): int {
    if steps == [] then clock else steps[|steps| - 1].now
  }

  lemma {:induction false} CostsAt(steps: seq<Step>)
    ensures |Costs(steps)| == |steps|
    ensures forall i :: 0 <= i < |steps| ==> Costs(steps)[i] == P.CheckAt(1, steps[i].now, steps[i].expired)
    decreases |steps|
  {
    if steps != [] {
      CostsAt(steps[1..]);
    }
  }

  lemma CostsEnd(clock: int, steps: seq<Step>)
    ensures P.OnlyChecks(Costs(steps)) && P.EndTime(clock, Costs(steps)) == EndTime(clock, steps)
  {
    CostsAt(steps);
  }

  lemma {:induction false} EndIsPoints(c: P.Config, k: Key, clock: int, steps: seq<Step>)
    requires P.Sound(c) && Possible(c, k, clock, steps)
    ensures P.Run(c, Room(c, k), Costs(steps)) == Room(c, Run(c, k, steps))
    decreases |steps|
  {
    if steps != [] {
      var step := steps[0];
      IsPoints(c, Found(k, step), step.now);
      EndIsPoints(c, Next(c, k, step), step.now, steps[1..]);
      assert Costs(steps)[0] == P.CheckAt(1, step.now, step.expired) && Costs(steps)[1..] == Costs(steps[1..]);
      assert P.Found(Room(c, k), Costs(steps)[0]) == Room(c, Found(k, step));
    }
  }

  /** One more admission since `from` would be more than a bucketful and what has drained since then. */
  ghost predicate Overflows(c: P.Config, steps: seq<Step>, from: int, now: int)
    requires P.Sound(c)
  {
    from <= now &&
    Admissions(c, Absent, steps, from, now) as real + 1.0 > c.capacity as real + P.Flow(c, now - from)
  }

  /** In any run, whatever expires, a call is refused if and only if admitting it would make some stretch of
      time that ends now overflow. */
  lemma RefusedIffOverflows(c: P.Config, clock: int, steps: seq<Step>, step: Step)
    requires P.Sound(c) && Possible(c, Absent, clock, steps)
    requires Enabled(Run(c, Absent, steps), EndTime(clock, steps), step)
    ensures Acquire(c, Found(Run(c, Absent, steps), step), step.now).1.Refused?
      <==> exists from :: Overflows(c, steps, from, step.now)
  {
    var k, check := Run(c, Absent, steps), P.CheckAt(1, step.now, step.expired);
    EndIsPoints(c, Absent, clock, steps);
    CostsEnd(clock, steps);
    IsPoints(c, Found(k, step), step.now);
    assert P.Found(Room(c, k), check) == Room(c, Found(k, step));
    RunIsPoints(c, Absent, clock, steps, step.now, step.now);
    forall from
      ensures Overflows(c, steps, from, step.now) <==> P.Overdraws(c, Costs(steps), 1, from, step.now)
    {
      RunIsPoints(c, Absent, clock, steps, from, step.now);
    }
    P.RefusedIffOverdrawn(c, clock, Costs(steps), check);
  }

  /** A refused call, repeated with no call in between, is admitted exactly from the reported wait on. */
  lemma WaitIsExact(c: P.Config, k: Key, now: int, d: nat)
    requires P.Sound(c) && Acquire(c, k, now).1.Refused?
    ensures Acquire(c, k, now + d).1.Admitted? <==> d >= Acquire(c, k, now).1.wait
  {
    IsPoints(c, k, now);
    IsPoints(c, k, now + d);
    P.WaitIsExact(c, Room(c, k), 1, now);
    assert P.AdmittedAfter(c, Room(c, k), 1, now, d) <==> d >= Acquire(c, k, now).1.wait;
  }

  function Replies(c: P.Config, k: Key, steps: seq<Step>): seq<Reply>
    requires P.Sound(c)
    decreases |steps|
  {
    if steps == [] then []
    else [Acquire(c, Found(k, steps[0]), steps[0].now).1] + Replies(c, Next(c, k, steps[0]), steps[1..])
  }

  ghost predicate Inv(c: P.Config, k: Key, clock: int) {
    k.Key? ==> 0.0 <= k.level <= c.capacity as real && k.lastDrip <= clock && P.ExpireAt(c, k.lastDrip) <= k.expireAt
  }

  lemma StepKeepsInv(c: P.Config, k: Key, clock: int, step: Step)
    requires P.Sound(c) && Inv(c, k, clock) && Enabled(k, clock, step)
    ensures Inv(c, Next(c, k, step), step.now)
  {
  }

  /** A key that Redis may drop holds an empty bucket, so the call does the same without it. */
  lemma ExpiredIsEmpty(c: P.Config, k: Key, clock: int, step: Step)
    requires P.Sound(c) && Inv(c, k, clock) && Enabled(k, clock, step)
    ensures Acquire(c, Found(k, step), step.now) == Acquire(c, k, step.now)
  {
    KeyLifetime.Covers(c.period);
    if step.expired && k.Key? {
      P.FlowFills(c, step.now - k.lastDrip);
      assert P.Flow(c, 0) == 0.0;
    }
  }

  function Kept(steps: seq<Step>): seq<Step>
    decreases |steps|
  {
    if steps == [] then [] else [steps[0].(expired := false)] + Kept(steps[1..])
  }

  /** Every run gets the same replies whether or not Redis ever drops the key. */
  lemma {:induction false} ExpiryUnobservable(c: P.Config, k: Key, clock: int, steps: seq<Step>)
    requires P.Sound(c) && Inv(c, k, clock) && Possible(c, k, clock, steps)
    ensures Replies(c, k, steps) == Replies(c, k, Kept(steps))
    decreases |steps|
  {
    if steps != [] {
      var step := steps[0];
      StepKeepsInv(c, k, clock, step);
      ExpiredIsEmpty(c, k, clock, step);
      ExpiryUnobservable(c, Next(c, k, step), step.now, steps[1..]);
      assert Kept(steps)[0] == step.(expired := false) && Kept(steps)[1..] == Kept(steps[1..]);
    }
  }

  /** The hash that the script works on. */
  class Limiter {
    var level: Option<real>
    var lastDrip: Option<int>
    var expireAt: int

    ghost predicate Valid()
      reads this
    {
      level.Some? <==> lastDrip.Some?
    }

    function State(): Key
      reads this
    {
      if level.None? || lastDrip.None? then Absent else Key(level.value, lastDrip.value, expireAt)
    }

    method AcquireScript(capacity: int, drainTime: int, ttl: int, now: int) returns (r: Reply)
      requires Valid() && P.Sound(P.Config(capacity, drainTime)) && ttl == KeyLifetime.Seconds(drainTime)
      modifies this
      ensures Valid() && (State(), r) == Acquire(P.Config(capacity, drainTime), old(State()), now)
    {
      var filled := if level.Some? then level.value else 0.0;
      var last := if lastDrip.Some? then lastDrip.value else now;
      var drained := P.Flow(P.Config(capacity, drainTime), now - last);
      filled := P.Max(0.0, filled - drained);
      if filled + 1.0 > capacity as real {
        var overfill := filled + 1.0 - capacity as real;
        return Refused(filled, P.Wait(P.Config(capacity, drainTime), overfill));
      }
      filled := filled + 1.0;
      level, lastDrip, expireAt := Some(filled), Some(now), now + ttl * KeyLifetime.SECOND;
      r := Admitted(filled);
    }
  }
}
