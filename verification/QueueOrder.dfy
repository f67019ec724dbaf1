/**
  Queues are first in, first out, over any sequence of calls; and no job is beyond reach: whatever
  has become of it, calls that anyone can make hand it out again.
 */
module QueueOrder {
  import opened Ids
  import opened Delivery
  import opened DeliveryStore
  import opened Commands

  /** The jobs of a list in the order in which fetches take them, from the tail. */
  function Line(l: seq<Payload>): seq<Id>
    decreases |l|
  {
    if l == [] then [] else Line(l[1..]) + [l[0].jid]
  }

  /** Of these jobs those that name the queue, in order. */
  function Bound(ps: seq<Payload>, q: QueueName): seq<Id>
    decreases |ps|
  {
    if ps == [] then []
    else
      var last := ps[|ps| - 1];
      Bound(ps[..|ps| - 1], q) + if last.queue == q then [last.jid] else []
  }

  /** What the call puts into the queue, but for a promotion. */
  function PutBy(cmd: Command, c: Store, q: QueueName): seq<Id> {
    match cmd
    case CallEnqueue(place, p) => if Accepted(cmd, c) && place == Queue(q) then [p.jid] else []
    case CallRequeue(w, p, next) => if p in Get(c.inFlight, w) && p.queue == q then [next.jid] else []
    case CallReap(w) => Bound(Get(c.inFlight, w), q)
    case _ => []
  }

  /** The call puts these jobs into the queue, in this order: the accepted one, the interrupted one, the ones
      in flight at a dead worker from the newest to the oldest, or the due ones from the earliest on. */
  ghost predicate Enqueues(cmd: Command, c: Store, d: Store, q: QueueName, ids: seq<Id>) {
    if cmd.CallPromote? then
      exists items ::
        && DueRange(Members(c, cmd.fromRetry), cmd.now, cmd.limit, items)
        && d == Promoted(c, cmd.fromRetry, items) && ids == Bound(items, q)
    else ids == PutBy(cmd, c, q)
  }

  /** The job that the call hands out from the queue. */
  function HandsOut(cmd: Command, c: Store, q: QueueName): seq<Id> {
    if cmd.CallFetch? && cmd.q == q then
      var r := FetchKeys(c, q, cmd.w).1;
      if r.Some? then [r.value.jid] else []
    else []
  }

  // ---------------------------------------------------------------------
  // What each command does to a line

  lemma {:induction false} LineOfAppended(l: seq<Payload>, p: Payload)
    ensures Line(l + [p]) == [p.jid] + Line(l)
    decreases |l|
  {
    if l == [] {
      assert (l + [p])[1..] == [];
    } else {
      assert (l + [p])[1..] == l[1..] + [p];
      LineOfAppended(l[1..], p);
    }
  }

  lemma {:induction false} LineOfReplaced(l: seq<Payload>, p: Payload, q: Payload)
    requires p.jid == q.jid
    ensures Line(ReplaceFirst(l, p, q)) == Line(l)
    decreases |l|
  {
    if l != [] {
      var r := ReplaceFirst(l, p, q);
      if l[0] == p {
        assert r[1..] == l[1..];
      } else {
        assert r[1..] == ReplaceFirst(l[1..], p, q);
        LineOfReplaced(l[1..], p, q);
      }
    }
  }

  lemma LineOfPushed(lists: Lists, k: nat, p: Payload, q: nat)
    ensures Line(Get(PushTo(lists, k, p), q)) == Line(Get(lists, q)) + if k == q then [p.jid] else []
  {
    if k == q {
      assert ([p] + Get(lists, q))[1..] == Get(lists, q);
    }
  }

  lemma {:induction false} LineOfReturned(lists: Lists, ps: seq<Payload>, q: QueueName)
    ensures Line(Get(Returned(lists, ps), q)) == Line(Get(lists, q)) + Bound(ps, q)
    decreases |ps|
  {
    if ps != [] {
      var front, last := ps[..|ps| - 1], ps[|ps| - 1];
      LineOfReturned(lists, front, q);
      LineOfPushed(Returned(lists, front), last.queue, last, q);
    }
  }

  lemma FetchTakesFirst(c: Store, q: QueueName, k: QueueName, w: WorkerId)
    ensures Line(Get(c.queues, q)) == HandsOut(CallFetch(k, w), c, q) + Line(Get(FetchKeys(c, k, w).0.queues, q))
  {
    var l := Get(c.queues, k);
    if k == q && l != [] {
      assert l == l[..|l| - 1] + [l[|l| - 1]];
      LineOfAppended(l[..|l| - 1], l[|l| - 1]);
    }
  }

  lemma MarkedQueue(c: Store, w: WorkerId, p: Payload, f: Finalization, q: QueueName)
    ensures var l, l' := Get(c.queues, q), Get(MarkKeys(c, w, p, f).0.queues, q);
      l' == l || l' == ReplaceFirst(l, p, Marked(p, f))
  {
    if p !in Get(c.inFlight, w) && Marked(p, f) !in Get(c.inFlight, w) && p in Get(c.queues, p.queue) && q == p.queue {
      assert Get(MarkKeys(c, w, p, f).0.queues, q) == ReplaceFirst(Get(c.queues, q), p, Marked(p, f));
    } else {
      assert Get(MarkKeys(c, w, p, f).0.queues, q) == Get(c.queues, q);
    }
  }

  lemma MarkKeepsLine(c: Store, w: WorkerId, p: Payload, f: Finalization, q: QueueName)
    ensures Line(Get(MarkKeys(c, w, p, f).0.queues, q)) == Line(Get(c.queues, q))
  {
    MarkedQueue(c, w, p, f, q);
    LineOfReplaced(Get(c.queues, q), p, Marked(p, f));
  }

  lemma EnqueuedLine(c: Store, place: Place, p: Payload, q: QueueName)
    requires place.Queue? || place.Scheduled?
    ensures Line(Get(EnqueueKeys(c, place, p).queues, q))
      == Line(Get(c.queues, q)) + if Accepted(CallEnqueue(place, p), c) && place == Queue(q) then [p.jid] else []
  {
    if place.Queue? {
      LineOfPushed(c.queues, place.q, p, q);
    }
  }

  lemma RequeuedLine(c: Store, w: WorkerId, p: Payload, next: Payload, q: QueueName)
    ensures Line(Get(RequeueKeys(c, w, p, next).queues, q))
      == Line(Get(c.queues, q)) + if p in Get(c.inFlight, w) && p.queue == q then [next.jid] else []
  {
    LineOfPushed(c.queues, p.queue, next, q);
  }

  lemma PromotedLine(c: Store, fromRetry: bool, items: seq<Payload>, q: QueueName)
    ensures Line(Get(Promoted(c, fromRetry, items).queues, q)) == Line(Get(c.queues, q)) + Bound(items, q)
  {
    LineOfReturned(c.queues, items, q);
  }

  lemma ReapedLine(c: Store, w: WorkerId, q: QueueName)
    ensures Line(Get(Reaped(c, w).queues, q)) == Line(Get(c.queues, q)) + Bound(Get(c.inFlight, w), q)
  {
    LineOfReturned(c.queues, Get(c.inFlight, w), q);
  }

  lemma EndsLeaveQueues(c: Store, w: WorkerId, p: Payload, unlock: bool, at: int, next: Payload)
    ensures AckKeys(c, w, p, unlock).queues == c.queues
    ensures RetryKeys(c, w, p, at, next).queues == c.queues
    ensures BuryKeys(c, w, p, at, next).queues == c.queues
  {
  }

  lemma PlainKeepsOrder(cmd: Command, c: Store, d: Store, q: QueueName)
    requires Performs(cmd, c, d) && !cmd.CallPromote?
    ensures Line(Get(c.queues, q)) + PutBy(cmd, c, q) == HandsOut(cmd, c, q) + Line(Get(d.queues, q))
  {
    match cmd
    case CallEnqueue(place, p) => EnqueuedLine(c, place, p, q);
    case CallFetch(k, w) => FetchTakesFirst(c, q, k, w);
    case CallMark(w, p, f) => MarkKeepsLine(c, w, p, f, q);
    case CallAck(w, p, unlock) => EndsLeaveQueues(c, w, p, unlock, 0, p);
    case CallRetry(w, p, at, next) => EndsLeaveQueues(c, w, p, true, at, next);
    case CallBury(w, p, at, next) => EndsLeaveQueues(c, w, p, true, at, next);
    case CallRequeue(w, p, next) => RequeuedLine(c, w, p, next, q);
    case CallReap(w) => ReapedLine(c, w, q);
    case KeyExpires(_) =>
  }

  /** What waits in the queue, and what comes in behind it, is what goes out first and what waits then. */
  lemma CallKeepsOrder(cmd: Command, c: Store, d: Store, q: QueueName) returns (ids: seq<Id>)
    requires Performs(cmd, c, d)
    ensures Enqueues(cmd, c, d, q, ids)
    ensures Line(Get(c.queues, q)) + ids == HandsOut(cmd, c, q) + Line(Get(d.queues, q))
  {
    if cmd.CallPromote? {
      var items :| DueRange(Members(c, cmd.fromRetry), cmd.now, cmd.limit, items)
        && d == Promoted(c, cmd.fromRetry, items);
      ids := Bound(items, q);
      PromotedLine(c, cmd.fromRetry, items, q);
    } else {
      ids := PutBy(cmd, c, q);
      PlainKeepsOrder(cmd, c, d, q);
    }
  }

  // ---------------------------------------------------------------------
  // Over any sequence of calls

  function Joined(parts: seq<seq<Id>>): seq<Id>
    decreases |parts|
  {
    if parts == [] then [] else parts[0] + Joined(parts[1..])
  }

  ghost function HandedOut(cmds: seq<Command>, log: seq<Store>, q: QueueName): seq<Id>
    requires Logs(cmds, log)
    decreases |cmds|
  {
    if cmds == [] then [] else HandsOut(cmds[0], log[0], q) + HandedOut(cmds[1..], log[1..], q)
  }

  /** The parts list what each call of the log puts into the queue. */
  ghost predicate PutIn(cmds: seq<Command>, log: seq<Store>, q: QueueName, parts: seq<seq<Id>>)
    requires Logs(cmds, log)
  {
    |parts| == |cmds| && forall i :: 0 <= i < |cmds| ==> Enqueues(cmds[i], log[i], log[i + 1], q, parts[i])
  }

  /** First in, first out: over any sequence of calls, the jobs handed out from a queue, followed by those still
      waiting in it, are those that waited at the start, followed by those put in, in that order. */
  lemma {:induction false} FirstInFirstOut(cmds: seq<Command>, log: seq<Store>, q: QueueName)
    returns (parts: seq<seq<Id>>)
    requires Logs(cmds, log)
    ensures PutIn(cmds, log, q, parts)
    ensures Line(Get(log[0].queues, q)) + Joined(parts)
      == HandedOut(cmds, log, q) + Line(Get(log[|cmds|].queues, q))
    decreases |cmds|
  {
    parts := [];
    if cmds != [] {
      LogTail(cmds, log);
      var ids := CallKeepsOrder(cmds[0], log[0], log[1], q);
      var rest := FirstInFirstOut(cmds[1..], log[1..], q);
      parts := [ids] + rest;
      PartsJoin(cmds, log, q, ids, rest);
      OrderJoins(Line(Get(log[0].queues, q)), ids, Joined(rest), HandsOut(cmds[0], log[0], q),
                 Line(Get(log[1].queues, q)), HandedOut(cmds[1..], log[1..], q), Line(Get(log[|cmds|].queues, q)));
    }
  }

  lemma PartsJoin(cmds: seq<Command>, log: seq<Store>, q: QueueName, ids: seq<Id>, rest: seq<seq<Id>>)
    requires cmds != [] && Logs(cmds, log) && Logs(cmds[1..], log[1..])
    requires Enqueues(cmds[0], log[0], log[1], q, ids) && PutIn(cmds[1..], log[1..], q, rest)
    ensures PutIn(cmds, log, q, [ids] + rest) && Joined([ids] + rest) == ids + Joined(rest)
  {
    var parts := [ids] + rest;
    assert parts[1..] == rest;
    forall i | 0 <= i < |cmds|
      ensures Enqueues(cmds[i], log[i], log[i + 1], q, parts[i])
    {
      if i > 0 {
        assert Enqueues(cmds[1..][i - 1], log[1..][i - 1], log[1..][i], q, rest[i - 1]);
      }
    }
  }

  lemma OrderJoins(a: seq<Id>, ids: seq<Id>, rest: seq<Id>, out: seq<Id>, b: seq<Id>, outs: seq<Id>, z: seq<Id>)
    requires a + ids == out + b && b + rest == outs + z
    ensures a + (ids + rest) == (out + outs) + z
  {
    assert a + (ids + rest) == (a + ids) + rest;
    assert (out + b) + rest == out + (b + rest);
    assert out + (outs + z) == (out + outs) + z;
  }

  // ---------------------------------------------------------------------
  // Every live job can be handed out

  /** The last of these calls is a fetch that hands out the job. */
  ghost predicate EndsWith(cmds: seq<Command>, log: seq<Store>, id: Id) {
    && cmds != [] && |log| == |cmds| + 1 && cmds[|cmds| - 1].CallFetch?
    && HandsOut(cmds[|cmds| - 1], log[|cmds| - 1], cmds[|cmds| - 1].q) == [id]
  }

  /** Some calls on these keys end with a fetch that hands out the job. */
  ghost predicate InReachOf(c: Store, id: Id) {
    exists cmds: seq<Command>, log: seq<Store> :: Logs(cmds, log) && EndsWith(cmds, log, id) && log[0] == c
  }

  lemma LogFrom(cmd: Command, c: Store, cmds: seq<Command>, log: seq<Store>)
    requires Logs(cmds, log) && Performs(cmd, c, log[0])
    ensures Logs([cmd] + cmds, [c] + log)
  {
    var cmds', log' := [cmd] + cmds, [c] + log;
    forall i | 0 <= i < |cmds'|
      ensures Performs(cmds'[i], log'[i], log'[i + 1])
    {
      if i > 0 {
        assert Performs(cmds[i - 1], log[i - 1], log[i]);
      }
    }
  }

  lemma ReachedBy(cmd: Command, c: Store, d: Store, id: Id)
    requires Performs(cmd, c, d) && InReachOf(d, id)
    ensures InReachOf(c, id)
  {
    var cmds: seq<Command>, log: seq<Store> :| Logs(cmds, log) && EndsWith(cmds, log, id) && log[0] == d;
    LogFrom(cmd, c, cmds, log);
    assert EndsWith([cmd] + cmds, [c] + log, id);
  }

  /** A waiting job is handed out by one fetch more than jobs wait before it. */
  lemma {:induction false} QueuedIsReached(c: Store, q: QueueName, w: WorkerId, i: nat)
    requires i < |Line(Get(c.queues, q))|
    ensures InReachOf(c, Line(Get(c.queues, q))[i])
    decreases i
  {
    var d := FetchKeys(c, q, w).0;
    FetchTakesFirst(c, q, q, w);
    var cmd := CallFetch(q, w);
    if i == 0 {
      assert HandsOut(cmd, c, q) == [Line(Get(c.queues, q))[0]];
      assert Logs([cmd], [c, d]) && EndsWith([cmd], [c, d], Line(Get(c.queues, q))[0]);
    } else {
      QueuedIsReached(d, q, w, i - 1);
      ReachedBy(cmd, c, d, Line(Get(c.queues, q))[i]);
    }
  }

  lemma {:induction false} LineHolds(l: seq<Payload>, p: Payload) returns (i: nat)
    requires p in l
    ensures i < |Line(l)| && Line(l)[i] == p.jid
    decreases |l|
  {
    if p == l[0] {
      i := |Line(l[1..])|;
    } else {
      assert p in l[1..];
      i := LineHolds(l[1..], p);
    }
  }

  lemma QueuedJobIsReached(c: Store, s: State, p: Payload)
    requires Represents(c, s) && At(s, Queue(p.queue), p)
    ensures InReachOf(c, p.jid)
  {
    assert Holds(c, Queue(p.queue), p);
    var i := LineHolds(Get(c.queues, p.queue), p);
    QueuedIsReached(c, p.queue, 0, i);
  }

  /** All due members can be listed in order. */
  lemma {:induction false} SomeDueRange(zset: SortedSet, rest: set<Payload>) returns (items: seq<Payload>)
    requires rest <= zset.Keys
    ensures (forall p :: p in items <==> p in rest) && |items| == |rest| && Distinct(items) && InOrder(zset, items)
    decreases |rest|
  {
    items := [];
    if rest != {} {
      EarliestExists(zset, rest);
      var p :| p in rest && forall q :: q in rest ==> zset[p] <= zset[q];
      var tail := SomeDueRange(zset, rest - {p});
      items := [p] + tail;
    }
  }

  lemma AllDue(zset: SortedSet, now: int) returns (items: seq<Payload>)
    ensures DueRange(zset, now, |items|, items) && forall p :: p in items <==> p in zset && zset[p] <= now
  {
    items := SomeDueRange(zset, set x | x in zset && zset[x] <= now);
  }

  lemma PromotionReaches(c: Store, s: State, fromRetry: bool, at: int, p: Payload)
    requires Represents(c, s) && Inv(s) && At(s, ZPlace(fromRetry, at), p)
    ensures InReachOf(c, p.jid)
  {
    var zset := Members(c, fromRetry);
    assert Holds(c, ZPlace(fromRetry, at), p);
    var items := AllDue(zset, at);
    var d := Promoted(c, fromRetry, items);
    PromoteRepresents(c, s, fromRetry, items, at);
    assert p in items;
    PromoteMovesDue(s, JobIds(items), at, ZPlace(fromRetry, at), p);
    QueuedJobIsReached(d, Promote(s, JobIds(items), at), p);
    ReachedBy(CallPromote(fromRetry, at, |items|), c, d, p.jid);
  }

  /** No live job is beyond reach: it can be handed out once its worker is reaped, its time has come and
      the jobs before it are taken. */
  lemma LiveJobIsReached(c: Store, s: State, place: Place, p: Payload)
    requires Represents(c, s) && Inv(s) && Holds(c, place, p) && Live(place)
    ensures InReachOf(c, p.jid)
  {
    assert At(s, place, p);
    assert CopyOk(s, p.jid);
    match place
    case Queue(_) => QueuedJobIsReached(c, s, p);
    case InFlight(w) =>
      ReapRepresents(c, s, w);
      ReapReturnsAll(s, w, place, p);
      QueuedJobIsReached(Reaped(c, w), Reap(s, w), p);
      ReachedBy(CallReap(w), c, Reaped(c, w), p.jid);
    case Retrying(at) => PromotionReaches(c, s, true, at, p);
    case Scheduled(at) => PromotionReaches(c, s, false, at, p);
  }
}
