/**
  The Redis keys behind Delivery: queues and in-flight lists, the retry,
  scheduled and dead sorted sets, trust keys and unique keys.  Each script's
  effect on the keys is proved to be its step in Delivery, so whatever the
  interleaving, the lists hold exactly one copy of every job.
 */
module DeliveryStore {
  import opened Ids
  import opened Delivery

  type Lists = map<nat, seq<Payload>>
  type SortedSet = map<Payload, int>

  /** Everything the scripts touch. */
  datatype Store = Store(
    queues: Lists, inFlight: Lists, retry: SortedSet, scheduled: SortedSet, dead: SortedSet,
    trust: map<Id, Payload>, unique: map<Key, Id>)

  const EMPTY_STORE := Store(map[], map[], map[], map[], map[], map[], map[])

  // ---------------------------------------------------------------------
  // List commands

  function Get(lists: Lists, k: nat): seq<Payload> {
    if k in lists then lists[k] else []
  }

  /** LPUSH */
  function PushTo(lists: Lists, k: nat, p: Payload): Lists {
    lists[k := [p] + Get(lists, k)]
  }

  /** LREM key 1 p */
  function RemoveFirst(l: seq<Payload>, p: Payload): seq<Payload> {
    if l == [] then [] else if l[0] == p then l[1..] else [l[0]] + RemoveFirst(l[1..], p)
  }

  /** LPOS and LSET */
  function ReplaceFirst(l: seq<Payload>, p: Payload, q: Payload): seq<Payload> {
    if l == [] then [] else if l[0] == p then [q] + l[1..] else [l[0]] + ReplaceFirst(l[1..], p, q)
  }

  /** No job occurs twice. */
  ghost predicate NoRepeat(l: seq<Payload>) {
    forall i, j :: 0 <= i < j < |l| ==> l[i].jid != l[j].jid
  }

  lemma {:induction false} RemoveFirstSpec(l: seq<Payload>, p: Payload)
    requires NoRepeat(l)
    ensures NoRepeat(RemoveFirst(l, p))
    ensures forall q :: q in RemoveFirst(l, p) <==> q in l && q != p
  {
    if l != [] {
      assert l == [l[0]] + l[1..];
      if l[0] != p {
        RemoveFirstSpec(l[1..], p);
        forall x | x in RemoveFirst(l[1..], p)
          ensures x.jid != l[0].jid
        {
          assert x in l[1..];
        }
      } else {
        assert forall q :: q in l[1..] ==> q.jid != p.jid;
      }
    }
  }

  lemma {:induction false} ReplaceFirstSpec(l: seq<Payload>, p: Payload, q: Payload)
    requires NoRepeat(l) && p in l && q.jid == p.jid
    ensures NoRepeat(ReplaceFirst(l, p, q))
    ensures forall x :: x in ReplaceFirst(l, p, q) <==> x == q || (x in l && x != p)
  {
    assert l == [l[0]] + l[1..];
    if l[0] != p {
      ReplaceFirstSpec(l[1..], p, q);
      var r := ReplaceFirst(l[1..], p, q);
      forall x | x in r
        ensures x.jid != l[0].jid
      {
        assert x == q || x in l[1..];
      }
    }
  }

  // ---------------------------------------------------------------------
  // The lists represent the copies

  ghost predicate Holds(c: Store, place: Place, p: Payload) {
    match place
    case Queue(q) => p in Get(c.queues, q)
    case InFlight(w) => p in Get(c.inFlight, w)
    case Retrying(at) => p in c.retry && c.retry[p] == at
    case Scheduled(at) => p in c.scheduled && c.scheduled[p] == at
    case Dead(at) => p in c.dead && c.dead[p] == at
  }

  ghost predicate Represents(c: Store, s: State) {
    && c.trust == s.trust && c.unique == s.unique
    && (forall place, p :: Holds(c, place, p) <==> At(s, place, p))
    && (forall k :: NoRepeat(Get(c.queues, k)))
    && (forall k :: NoRepeat(Get(c.inFlight, k)))
  }

  lemma EmptyRepresents()
    ensures Represents(EMPTY_STORE, EMPTY) && Inv(EMPTY) && EMPTY.copies.Keys == {}
  {
  }

  /** Each job occurs at one place, as one payload, at one list position; and every copy is somewhere. */
  lemma SingleCopy(c: Store, s: State, place: Place, place': Place, p: Payload, p': Payload)
    requires Represents(c, s) && Holds(c, place, p) && Holds(c, place', p') && p.jid == p'.jid
    ensures place == place' && p == p'
    ensures place.Queue? ==> multiset(Get(c.queues, place.q))[p] == 1
    ensures place.InFlight? ==> multiset(Get(c.inFlight, place.w))[p] == 1
  {
    assert At(s, place, p) && At(s, place', p');
    if place.Queue? { OccursOnce(Get(c.queues, place.q), p); }
    if place.InFlight? { OccursOnce(Get(c.inFlight, place.w), p); }
  }

  lemma {:induction false} OccursOnce(l: seq<Payload>, p: Payload)
    requires NoRepeat(l) && p in l
    ensures multiset(l)[p] == 1
  {
    assert l == [l[0]] + l[1..];
    if l[0] != p {
      OccursOnce(l[1..], p);
    } else {
      assert p !in l[1..];
    }
  }

  /** A job in flight at w, wherever it goes next, leaves the list by one LREM. */
  lemma TakenFromInFlight(c: Store, s: State, w: WorkerId, p: Payload)
    requires Represents(c, s)
    ensures p in Get(c.inFlight, w) <==> At(s, InFlight(w), p)
    ensures NoRepeat(RemoveFirst(Get(c.inFlight, w), p))
    ensures forall q :: q in RemoveFirst(Get(c.inFlight, w), p) <==> At(s, InFlight(w), q) && q != p
    ensures At(s, InFlight(w), p) ==>
      forall place, q :: Holds(c, place, q) && q.jid == p.jid ==> q == p && place == InFlight(w)
  {
    RemoveFirstSpec(Get(c.inFlight, w), p);
    assert forall q :: Holds(c, InFlight(w), q) <==> At(s, InFlight(w), q);
    forall place, q | Holds(c, place, q) && q.jid == p.jid && At(s, InFlight(w), p)
      ensures q == p && place == InFlight(w)
    {
      assert At(s, place, q);
    }
  }

  function Taken(c: Store, w: WorkerId, p: Payload): Store {
    c.(inFlight := c.inFlight[w := RemoveFirst(Get(c.inFlight, w), p)])
  }

  /** The shape of every terminal script: LREM, then at most one ZADD or LPUSH of a successor. */
  ghost predicate Elsewhere(c: Store, d: Store, p: Payload, place: Place, next: Payload) {
    match place
    case Queue(q) => d.queues == PushTo(c.queues, q, next) && d.retry == c.retry && d.dead == c.dead
    case Retrying(at) => d.queues == c.queues && d.retry == c.retry[next := at] && d.dead == c.dead
    case Dead(at) => d.queues == c.queues && d.retry == c.retry && d.dead == c.dead[next := at]
    case _ => false
  }

  lemma PushKeepsNoRepeat(lists: Lists, k: nat, p: Payload)
    requires forall j :: NoRepeat(Get(lists, j))
    requires forall x :: x in Get(lists, k) ==> x.jid != p.jid
    ensures forall j :: NoRepeat(Get(PushTo(lists, k, p), j))
  {
    forall j
      ensures NoRepeat(Get(PushTo(lists, k, p), j))
    {
      assert NoRepeat(Get(lists, j));
    }
  }

  lemma MoveHolds(
    c: Store, s: State, w: WorkerId, p: Payload, d: Store, place: Place, next: Payload, pl: Place, q: Payload)
    requires Represents(c, s) && At(s, InFlight(w), p) && next.jid == p.jid
    requires d.inFlight == Taken(c, w, p).inFlight && d.scheduled == c.scheduled
    requires Elsewhere(c, d, p, place, next)
    ensures Holds(d, pl, q) <==> (Holds(c, pl, q) && q.jid != p.jid) || (pl == place && q == next)
  {
    TakenFromInFlight(c, s, w, p);
    assert Holds(c, pl, q) && q.jid == p.jid ==> q == p && pl == InFlight(w);
  }

  lemma MoveRepresents(c: Store, s: State, w: WorkerId, p: Payload, d: Store, t: State, place: Place, next: Payload)
    requires Represents(c, s) && Inv(s) && At(s, InFlight(w), p) && next.jid == p.jid
    requires d.inFlight == Taken(c, w, p).inFlight && d.scheduled == c.scheduled
    requires Elsewhere(c, d, p, place, next)
    requires d.trust == t.trust && d.unique == t.unique
    requires t.copies == s.copies[p.jid := Copy(place, next)]
    ensures Represents(d, t)
  {
    TakenFromInFlight(c, s, w, p);
    forall pl, q
      ensures Holds(d, pl, q) <==> At(t, pl, q)
    {
      MoveHolds(c, s, w, p, d, place, next, pl, q);
      assert Holds(c, pl, q) <==> At(s, pl, q);
    }
    if place.Queue? {
      assert forall q :: q in Get(c.queues, place.q) ==> Holds(c, Queue(place.q), q);
      PushKeepsNoRepeat(c.queues, place.q, next);
    }
    forall k
      ensures NoRepeat(Get(d.inFlight, k))
    {
      assert NoRepeat(Get(c.inFlight, k));
    }
  }

  lemma DropRepresents(c: Store, s: State, w: WorkerId, p: Payload, d: Store, t: State)
    requires Represents(c, s) && Inv(s) && At(s, InFlight(w), p)
    requires d == Taken(c, w, p).(trust := t.trust, unique := t.unique)
    requires t.copies == s.copies - {p.jid}
    ensures Represents(d, t)
  {
    TakenFromInFlight(c, s, w, p);
    forall pl, q
      ensures Holds(d, pl, q) <==> At(t, pl, q)
    {
      assert Holds(c, pl, q) <==> At(s, pl, q);
      assert Holds(c, pl, q) && q.jid == p.jid ==> q == p && pl == InFlight(w);
    }
    forall k
      ensures NoRepeat(Get(d.inFlight, k))
    {
      assert NoRepeat(Get(c.inFlight, k));
    }
  }

  function Added(c: Store, place: Place, p: Payload): Store
    requires place.Queue? || place.Scheduled?
  {
    match place
    case Queue(q) => c.(queues := PushTo(c.queues, q, p))
    case Scheduled(at) => c.(scheduled := c.scheduled[p := at])
  }

  /** A job that is nowhere yet is pushed to a queue or scheduled. */
  lemma AddRepresents(c: Store, s: State, place: Place, p: Payload, d: Store, t: State)
    requires Represents(c, s) && p.jid !in s.copies
    requires (place.Queue? || place.Scheduled?) && d == Added(c, place, p).(unique := t.unique)
    requires t == s.(copies := s.copies[p.jid := Copy(place, p)], unique := t.unique)
    ensures Represents(d, t)
  {
    forall pl, q
      ensures Holds(d, pl, q) <==> At(t, pl, q)
    {
      assert Holds(c, pl, q) <==> At(s, pl, q);
    }
    if place.Queue? {
      assert forall q :: q in Get(c.queues, place.q) ==> Holds(c, Queue(place.q), q);
      PushKeepsNoRepeat(c.queues, place.q, p);
    }
  }

  /** RPOP from a queue, LPUSH to an in-flight list. */
  function Popped(c: Store, q: QueueName, w: WorkerId, p: Payload): Store
    requires Get(c.queues, q) != []
  {
    c.(queues := c.queues[q := Get(c.queues, q)[..|Get(c.queues, q)| - 1]], inFlight := PushTo(c.inFlight, w, p))
  }

  lemma LastOnce(l: seq<Payload>, x: Payload)
    requires NoRepeat(l) && l != []
    ensures NoRepeat(l[..|l| - 1])
    ensures x in l[..|l| - 1] <==> x in l && x != l[|l| - 1]
  {
    assert l == l[..|l| - 1] + [l[|l| - 1]];
  }

  lemma PoppedHolds(c: Store, s: State, q: QueueName, w: WorkerId, p: Payload, pl: Place, x: Payload)
    requires Represents(c, s) && Get(c.queues, q) != [] && p.jid == Get(c.queues, q)[|Get(c.queues, q)| - 1].jid
    ensures Holds(Popped(c, q, w, p), pl, x) <==>
      (Holds(c, pl, x) && x.jid != p.jid) || (pl == InFlight(w) && x == p)
  {
    var l := Get(c.queues, q);
    var last := l[|l| - 1];
    LastOnce(l, x);
    assert Holds(c, Queue(q), last) && At(s, Queue(q), last);
    assert Holds(c, pl, x) <==> At(s, pl, x);
  }

  lemma PoppedKeepsNoRepeat(c: Store, s: State, q: QueueName, w: WorkerId, p: Payload)
    requires Represents(c, s) && Get(c.queues, q) != [] && p.jid == Get(c.queues, q)[|Get(c.queues, q)| - 1].jid
    ensures forall k :: NoRepeat(Get(Popped(c, q, w, p).queues, k))
    ensures forall k :: NoRepeat(Get(Popped(c, q, w, p).inFlight, k))
  {
    var l := Get(c.queues, q);
    assert Holds(c, Queue(q), l[|l| - 1]);
    forall x | x in Get(c.inFlight, w)
      ensures x.jid != p.jid
    {
      assert Holds(c, InFlight(w), x);
    }
    PushKeepsNoRepeat(c.inFlight, w, p);
    forall k
      ensures NoRepeat(Get(Popped(c, q, w, p).queues, k))
    {
      assert NoRepeat(Get(c.queues, k));
      LastOnce(l, l[0]);
    }
  }

  lemma FetchRepresents(c: Store, s: State, q: QueueName, w: WorkerId)
    requires Represents(c, s) && Inv(s) && Get(c.queues, q) != []
    ensures var p := Get(c.queues, q)[|Get(c.queues, q)| - 1];
      && p.queue == q && At(s, Queue(q), p)
      && Represents(Popped(c, q, w, Delivered(s, p)), Fetch(s, w, p))
  {
    var p := Get(c.queues, q)[|Get(c.queues, q)| - 1];
    var d := Delivered(s, p);
    assert Holds(c, Queue(q), p);
    assert CopyOk(s, p.jid);
    forall pl, x
      ensures Holds(Popped(c, q, w, d), pl, x) <==> At(Fetch(s, w, p), pl, x)
    {
      PoppedHolds(c, s, q, w, d, pl, x);
      assert Holds(c, pl, x) <==> At(s, pl, x);
    }
    PoppedKeepsNoRepeat(c, s, q, w, d);
  }

  function Replaced(c: Store, place: Place, p: Payload, q: Payload): Store
    requires Deliverable(place)
  {
    match place
    case Queue(k) => c.(queues := c.queues[k := ReplaceFirst(Get(c.queues, k), p, q)])
    case InFlight(k) => c.(inFlight := c.inFlight[k := ReplaceFirst(Get(c.inFlight, k), p, q)])
  }

  /** LSET of the marked payload where the unmarked one was. */
  lemma MarkRepresents(c: Store, s: State, place: Place, p: Payload, q: Payload, d: Store, t: State)
    requires Represents(c, s) && Inv(s) && At(s, place, p) && q.jid == p.jid
    requires Deliverable(place) && d == Replaced(c, place, p, q).(trust := t.trust)
    requires t == s.(copies := s.copies[p.jid := Copy(place, q)], trust := t.trust)
    ensures Represents(d, t)
  {
    var l := if place.Queue? then Get(c.queues, place.q) else Get(c.inFlight, place.w);
    assert Holds(c, place, p);
    ReplaceFirstSpec(l, p, q);
    forall pl, x
      ensures Holds(d, pl, x) <==> At(t, pl, x)
    {
      assert Holds(c, pl, x) <==> At(s, pl, x);
    }
    forall k
      ensures NoRepeat(Get(d.queues, k))
    {
      assert NoRepeat(Get(c.queues, k));
    }
    forall k
      ensures NoRepeat(Get(d.inFlight, k))
    {
      assert NoRepeat(Get(c.inFlight, k));
    }
  }

  // ---------------------------------------------------------------------
  // The loops that return many jobs to their queues

  /** Push each job to the queue it names, in order. */
  function Returned(queues: Lists, ps: seq<Payload>): Lists {
    if ps == [] then queues
    else var last := ps[|ps| - 1]; PushTo(Returned(queues, ps[..|ps| - 1]), last.queue, last)
  }

  lemma {:induction false} ReturnedSpec(queues: Lists, ps: seq<Payload>, k: nat)
    requires NoRepeat(ps) && (forall j :: NoRepeat(Get(queues, j)))
    requires forall j, x, p :: x in Get(queues, j) && p in ps ==> x.jid != p.jid
    ensures forall x :: x in Get(Returned(queues, ps), k) <==> x in Get(queues, k) || (x in ps && x.queue == k)
    ensures NoRepeat(Get(Returned(queues, ps), k))
  {
    if ps != [] {
      var front, last := ps[..|ps| - 1], ps[|ps| - 1];
      assert forall x :: x in ps <==> x in front || x == last;
      ReturnedSpec(queues, front, k);
      if last.queue == k {
        var l := Get(Returned(queues, front), k);
        assert Get(Returned(queues, ps), k) == [last] + l;
        forall x | x in l
          ensures x.jid != last.jid
        {
          assert x in front ==> exists i :: 0 <= i < |front| && front[i] == x && ps[i] == x;
        }
      }
    }
  }

  /** Trust keys written while returning jobs: the finalized ones. */
  function Vouched(trust: map<Id, Payload>, ps: seq<Payload>): map<Id, Payload> {
    if ps == [] then trust
    else
      var last := ps[|ps| - 1];
      var t := Vouched(trust, ps[..|ps| - 1]);
      if last.fin.Some? then t[last.jid := last] else t
  }

  /** After the loop a trust key vouches for each finalized job that was returned; the other keys are as before. */
  lemma {:induction false} VouchedSpec(trust: map<Id, Payload>, ps: seq<Payload>, id: Id)
    requires NoRepeat(ps)
    ensures (exists p :: p in ps && p.jid == id && p.fin.Some?) ==>
      id in Vouched(trust, ps) && Vouched(trust, ps)[id] in ps && Vouched(trust, ps)[id].jid == id
      && Vouched(trust, ps)[id].fin.Some?
    ensures (forall p :: p in ps && p.jid == id ==> p.fin.None?) ==>
      (id in Vouched(trust, ps) <==> id in trust) && (id in trust ==> Vouched(trust, ps)[id] == trust[id])
  {
    if ps != [] {
      var front, last := ps[..|ps| - 1], ps[|ps| - 1];
      assert forall x :: x in ps <==> x in front || x == last;
      VouchedSpec(trust, front, id);
    }
  }

  /** In a reachable state the reaper rewrites trust keys with the values they have. */
  lemma {:induction false} VouchedSame(s: State, trust: map<Id, Payload>, ps: seq<Payload>, place: Place)
    requires Inv(s) && trust == s.trust && (forall p :: p in ps ==> At(s, place, p))
    ensures Vouched(trust, ps) == trust
  {
    if ps != [] {
      var last := ps[|ps| - 1];
      assert last in ps;
      assert forall p :: p in ps[..|ps| - 1] ==> p in ps;
      VouchedSame(s, trust, ps[..|ps| - 1], place);
      assert TrustOk(s, last.jid);
    }
  }

  lemma ReapTrust(s: State, w: WorkerId)
    requires Inv(s)
    ensures Reap(s, w).trust == s.trust
  {
    forall id | id in s.copies && s.copies[id].place == InFlight(w) && s.copies[id].payload.fin.Some?
      ensures id in s.trust && s.trust[id] == s.copies[id].payload
    {
      assert TrustOk(s, id);
    }
  }

  ghost function Reaped(c: Store, w: WorkerId): Store {
    c.(queues := Returned(c.queues, Get(c.inFlight, w)),
       trust := Vouched(c.trust, Get(c.inFlight, w)), inFlight := c.inFlight - {w})
  }

  /** The jobs in flight at w can be returned: none of them is in a queue. */
  lemma InFlightApart(c: Store, s: State, w: WorkerId)
    requires Represents(c, s)
    ensures forall k, x, p :: x in Get(c.queues, k) && p in Get(c.inFlight, w) ==> x.jid != p.jid
  {
    forall k, x, p | x in Get(c.queues, k) && p in Get(c.inFlight, w)
      ensures x.jid != p.jid
    {
      assert Holds(c, Queue(k), x) && Holds(c, InFlight(w), p);
      assert At(s, Queue(k), x) && At(s, InFlight(w), p);
    }
  }

  lemma ReapQueuedAbstract(s: State, w: WorkerId, q: QueueName, x: Payload)
    requires Inv(s)
    ensures At(Reap(s, w), Queue(q), x) <==> At(s, Queue(q), x) || (At(s, InFlight(w), x) && x.queue == q)
  {
    assert x.jid in s.copies ==> CopyOk(s, x.jid);
  }

  lemma ReapQueuedConcrete(c: Store, s: State, w: WorkerId, q: QueueName, x: Payload)
    requires Represents(c, s)
    ensures Holds(Reaped(c, w), Queue(q), x) <==> Holds(c, Queue(q), x) || (Holds(c, InFlight(w), x) && x.queue == q)
  {
    InFlightApart(c, s, w);
    ReturnedSpec(c.queues, Get(c.inFlight, w), q);
  }

  lemma ReapHolds(c: Store, s: State, w: WorkerId, pl: Place, x: Payload)
    requires Represents(c, s) && Inv(s)
    ensures Holds(Reaped(c, w), pl, x) <==> At(Reap(s, w), pl, x)
  {
    if pl.Queue? {
      ReapQueuedAbstract(s, w, pl.q, x);
      ReapQueuedConcrete(c, s, w, pl.q, x);
      assert Holds(c, InFlight(w), x) <==> At(s, InFlight(w), x);
    }
    assert Holds(c, pl, x) <==> At(s, pl, x);
  }

  lemma ReapRepresents(c: Store, s: State, w: WorkerId)
    requires Represents(c, s) && Inv(s)
    ensures Represents(Reaped(c, w), Reap(s, w))
  {
    var l, d := Get(c.inFlight, w), Reaped(c, w);
    ReapTrust(s, w);
    assert forall p :: p in l <==> Holds(c, InFlight(w), p);
    VouchedSame(s, c.trust, l, InFlight(w));
    InFlightApart(c, s, w);
    forall k
      ensures NoRepeat(Get(d.queues, k))
    {
      ReturnedSpec(c.queues, l, k);
    }
    forall k
      ensures NoRepeat(Get(d.inFlight, k))
    {
      assert NoRepeat(Get(c.inFlight, k));
    }
    forall pl, x
      ensures Holds(d, pl, x) <==> At(Reap(s, w), pl, x)
    {
      ReapHolds(c, s, w, pl, x);
    }
  }

  // ---------------------------------------------------------------------
  // Promotion of due jobs

  lemma {:induction false} EarliestExists(zset: SortedSet, rest: set<Payload>)
    requires rest != {} && rest <= zset.Keys
    ensures exists p :: p in rest && forall q :: q in rest ==> zset[p] <= zset[q]
    decreases |rest|
  {
    var x :| x in rest;
    if rest == {x} {
      assert forall q :: q in rest ==> zset[x] <= zset[q];
    } else {
      assert |rest - {x}| < |rest|;
      EarliestExists(zset, rest - {x});
      var y :| y in rest - {x} && forall q :: q in rest - {x} ==> zset[y] <= zset[q];
      var m := if zset[x] <= zset[y] then x else y;
      forall q | q in rest
        ensures zset[m] <= zset[q]
      {
        assert q == x || q in rest - {x};
      }
    }
  }

  ghost predicate Distinct(items: seq<Payload>) {
    forall i, j :: 0 <= i < j < |items| ==> items[i] != items[j]
  }

  /** In the order of their scores. */
  ghost predicate InOrder(zset: SortedSet, items: seq<Payload>) {
    forall i, j :: 0 <= i < j < |items| && items[i] in zset && items[j] in zset ==> zset[items[i]] <= zset[items[j]]
  }

  /** ZRANGEBYSCORE -inf now LIMIT 0 limit: the earliest due members in order, at most `limit`, and all of them
      if fewer. */
  ghost predicate DueRange(zset: SortedSet, now: int, limit: nat, items: seq<Payload>) {
    && |items| <= limit && Distinct(items) && InOrder(zset, items)
    && (forall p :: p in items ==> p in zset && zset[p] <= now)
    && (forall p, q :: p in items && q in zset && q !in items ==> zset[p] <= zset[q])
    && (|items| < limit ==> forall q :: q in zset && zset[q] <= now ==> q in items)
  }

  method DueItems(zset: SortedSet, now: int, limit: nat) returns (items: seq<Payload>)
    ensures DueRange(zset, now, limit, items)
  {
    items := [];
    var rest := set p | p in zset && zset[p] <= now;
    while rest != {} && |items| < limit
      invariant |items| <= limit && Distinct(items) && InOrder(zset, items)
      invariant forall p :: p in zset && zset[p] <= now <==> p in rest || p in items
      invariant forall p :: p in items ==> p !in rest && p in zset && zset[p] <= now
      invariant rest <= zset.Keys
      invariant forall p, q :: p in items && q in rest ==> zset[p] <= zset[q]
      decreases |rest|
    {
      EarliestExists(zset, rest);
      var p :| p in rest && forall q :: q in rest ==> zset[p] <= zset[q];
      items := items + [p];
      rest := rest - {p};
    }
  }

  function JobIds(items: seq<Payload>): set<Id> {
    set p | p in items :: p.jid
  }

  function Members(c: Store, fromRetry: bool): SortedSet {
    if fromRetry then c.retry else c.scheduled
  }

  function Promoted(c: Store, fromRetry: bool, items: seq<Payload>): Store {
    var gone := set p | p in items;
    if fromRetry then c.(retry := c.retry - gone, queues := Returned(c.queues, items))
    else c.(scheduled := c.scheduled - gone, queues := Returned(c.queues, items))
  }

  ghost predicate AreDue(c: Store, fromRetry: bool, items: seq<Payload>, now: int) {
    var zset := if fromRetry then c.retry else c.scheduled;
    Distinct(items) && forall p :: p in items ==> p in zset && zset[p] <= now
  }

  function ZPlace(fromRetry: bool, at: int): Place {
    if fromRetry then Retrying(at) else Scheduled(at)
  }

  /** Due members are distinct jobs, and none of them is in a queue. */
  lemma DueApart(c: Store, s: State, fromRetry: bool, items: seq<Payload>, now: int)
    requires Represents(c, s) && AreDue(c, fromRetry, items, now)
    ensures NoRepeat(items)
    ensures forall p :: p in items ==>
      p.jid in s.copies && s.copies[p.jid].payload == p && Due(s.copies[p.jid].place, now)
    ensures forall k, x, p :: x in Get(c.queues, k) && p in items ==> x.jid != p.jid
  {
    var zset := if fromRetry then c.retry else c.scheduled;
    forall p | p in items
      ensures At(s, ZPlace(fromRetry, zset[p]), p)
    {
      assert Holds(c, ZPlace(fromRetry, zset[p]), p);
    }
    forall i, j | 0 <= i < j < |items|
      ensures items[i].jid != items[j].jid
    {
      assert items[i] in items && items[j] in items;
    }
    forall k, x, p | x in Get(c.queues, k) && p in items
      ensures x.jid != p.jid
    {
      assert Holds(c, Queue(k), x);
      assert At(s, Queue(k), x);
    }
  }

  lemma PromoteAbstract(s: State, items: seq<Payload>, now: int, pl: Place, x: Payload)
    requires Inv(s)
    requires forall p :: p in items ==>
      p.jid in s.copies && s.copies[p.jid].payload == p && Due(s.copies[p.jid].place, now)
    ensures At(Promote(s, JobIds(items), now), pl, x) <==>
      if x in items then pl == Queue(x.queue) else At(s, pl, x)
  {
    if x.jid in s.copies && x.jid in JobIds(items) {
      var p :| p in items && p.jid == x.jid;
      assert s.copies[x.jid].payload == p;
    }
  }

  /** A due member is in its sorted set only. */
  lemma DueElsewhere(c: Store, s: State, fromRetry: bool, items: seq<Payload>, now: int, pl: Place, x: Payload)
    requires Represents(c, s) && AreDue(c, fromRetry, items, now) && x in items
    ensures Holds(c, pl, x) <==> pl == ZPlace(fromRetry, if fromRetry then c.retry[x] else c.scheduled[x])
  {
    var place := ZPlace(fromRetry, if fromRetry then c.retry[x] else c.scheduled[x]);
    assert Holds(c, place, x) <==> At(s, place, x);
    assert Holds(c, pl, x) <==> At(s, pl, x);
  }

  lemma PromoteQueued(c: Store, s: State, fromRetry: bool, items: seq<Payload>, now: int, q: QueueName, x: Payload)
    requires Represents(c, s) && AreDue(c, fromRetry, items, now)
    ensures Holds(Promoted(c, fromRetry, items), Queue(q), x) <==>
      if x in items then q == x.queue else Holds(c, Queue(q), x)
  {
    DueApart(c, s, fromRetry, items, now);
    if x in items {
      DueElsewhere(c, s, fromRetry, items, now, Queue(q), x);
    }
    ReturnedSpec(c.queues, items, q);
  }

  lemma PromoteConcrete(c: Store, s: State, fromRetry: bool, items: seq<Payload>, now: int, pl: Place, x: Payload)
    requires Represents(c, s) && AreDue(c, fromRetry, items, now)
    ensures Holds(Promoted(c, fromRetry, items), pl, x) <==>
      if x in items then pl == Queue(x.queue) else Holds(c, pl, x)
  {
    if pl.Queue? {
      PromoteQueued(c, s, fromRetry, items, now, pl.q, x);
    } else if x in items {
      DueElsewhere(c, s, fromRetry, items, now, pl, x);
    }
  }

  lemma PromoteRepresents(c: Store, s: State, fromRetry: bool, items: seq<Payload>, now: int)
    requires Represents(c, s) && Inv(s) && AreDue(c, fromRetry, items, now)
    ensures Represents(Promoted(c, fromRetry, items), Promote(s, JobIds(items), now))
  {
    DueApart(c, s, fromRetry, items, now);
    forall k
      ensures NoRepeat(Get(Promoted(c, fromRetry, items).queues, k))
    {
      ReturnedSpec(c.queues, items, k);
    }
    forall pl, x
      ensures Holds(Promoted(c, fromRetry, items), pl, x) <==> At(Promote(s, JobIds(items), now), pl, x)
    {
      PromoteConcrete(c, s, fromRetry, items, now, pl, x);
      PromoteAbstract(s, items, now, pl, x);
      assert Holds(c, pl, x) <==> At(s, pl, x);
    }
  }

  // ---------------------------------------------------------------------
  // The scripts, as functions on the keys

  predicate HoldsKey(c: Store, p: Payload) {
    p.uniqueKey.Some? && p.uniqueKey.value in c.unique && c.unique[p.uniqueKey.value] == p.jid
  }

  function KeyFreed(c: Store, p: Payload, unlock: bool): map<Key, Id> {
    if unlock && HoldsKey(c, p) then c.unique - {p.uniqueKey.value} else c.unique
  }

  function EnqueueKeys(c: Store, place: Place, p: Payload): Store
    requires place.Queue? || place.Scheduled?
  {
    if p.uniqueKey.Some? && p.uniqueKey.value in c.unique then c
    else Added(c, place, p).(unique := if p.uniqueKey.Some? then c.unique[p.uniqueKey.value := p.jid] else c.unique)
  }

  function FetchKeys(c: Store, q: QueueName, w: WorkerId): (Store, Option<Payload>) {
    var l := Get(c.queues, q);
    if l == [] then (c, None)
    else
      var p := l[|l| - 1];
      var delivered := Sanitized(c.trust, p);
      (Popped(c, q, w, delivered), Some(delivered))
  }

  function MarkKeys(c: Store, w: WorkerId, p: Payload, f: Finalization): (Store, nat) {
    var q := Marked(p, f);
    var trust := c.trust[p.jid := q];
    if p in Get(c.inFlight, w) then (Replaced(c, InFlight(w), p, q).(trust := trust), 1)
    else if q in Get(c.inFlight, w) then (c.(trust := trust), 1)
    else if p in Get(c.queues, p.queue) then (Replaced(c, Queue(p.queue), p, q).(trust := trust), 2)
    else if q in Get(c.queues, p.queue) then (c.(trust := trust), 2)
    else (c, 0)
  }

  function AckKeys(c: Store, w: WorkerId, p: Payload, unlock: bool): Store {
    if p !in Get(c.inFlight, w) then Taken(c, w, p)
    else Taken(c, w, p).(trust := c.trust - {p.jid}, unique := KeyFreed(c, p, unlock))
  }

  function RetryKeys(c: Store, w: WorkerId, p: Payload, at: int, next: Payload): Store {
    if p !in Get(c.inFlight, w) then Taken(c, w, p)
    else Taken(c, w, p).(trust := c.trust - {p.jid}, retry := c.retry[next := at])
  }

  function BuryKeys(c: Store, w: WorkerId, p: Payload, at: int, next: Payload): Store {
    if p !in Get(c.inFlight, w) then Taken(c, w, p)
    else Taken(c, w, p).(trust := c.trust - {p.jid}, unique := KeyFreed(c, p, true), dead := c.dead[next := at])
  }

  function RequeueKeys(c: Store, w: WorkerId, p: Payload, next: Payload): Store {
    if p !in Get(c.inFlight, w) then Taken(c, w, p)
    else Taken(c, w, p).(queues := PushTo(c.queues, p.queue, next))
  }

  // ---------------------------------------------------------------------
  // Every script performs its Delivery step

  lemma EnqueueRefines(c: Store, s: State, place: Place, p: Payload)
    requires Represents(c, s) && Enabled(s, DoEnqueue(place, p))
    ensures Represents(EnqueueKeys(c, place, p), Next(s, DoEnqueue(place, p)))
  {
    if Accepts(s, p) {
      AddRepresents(c, s, place, p, EnqueueKeys(c, place, p), Enqueue(s, place, p));
    }
  }

  lemma FetchRefines(c: Store, s: State, q: QueueName, w: WorkerId)
    requires Represents(c, s) && Inv(s)
    ensures var (d, r) := FetchKeys(c, q, w);
      if r.None? then d == c
      else At(s, Queue(q), r.value) && Represents(d, Next(s, DoFetch(w, r.value)))
  {
    var l := Get(c.queues, q);
    if l != [] {
      var p := l[|l| - 1];
      FetchRepresents(c, s, q, w);
      FetchDeliversAsIs(s, p);
    }
  }

  lemma MarkRefines(c: Store, s: State, w: WorkerId, p: Payload, f: Finalization)
    requires Represents(c, s) && Inv(s)
    ensures MarkKeys(c, w, p, f).1 == MarkCode(s, w, p, f)
    ensures Represents(MarkKeys(c, w, p, f).0, Next(s, DoMark(w, p, f)))
  {
    var q := Marked(p, f);
    assert Holds(c, InFlight(w), p) <==> At(s, InFlight(w), p);
    assert Holds(c, InFlight(w), q) <==> At(s, InFlight(w), q);
    assert Holds(c, Queue(p.queue), p) <==> At(s, Queue(p.queue), p);
    assert Holds(c, Queue(p.queue), q) <==> At(s, Queue(p.queue), q);
    var d, t := MarkKeys(c, w, p, f).0, Mark(s, w, p, f);
    if p in Get(c.inFlight, w) {
      MarkRepresents(c, s, InFlight(w), p, q, d, t);
    } else if q in Get(c.inFlight, w) {
      RemarkRepresents(c, s, InFlight(w), q);
    } else if p in Get(c.queues, p.queue) {
      MarkRepresents(c, s, Queue(p.queue), p, q, d, t);
    } else if q in Get(c.queues, p.queue) {
      RemarkRepresents(c, s, Queue(p.queue), q);
    }
  }

  lemma AckRefines(c: Store, s: State, w: WorkerId, p: Payload, unlock: bool)
    requires Represents(c, s) && Inv(s)
    ensures Represents(AckKeys(c, w, p, unlock), Next(s, DoAck(w, p, unlock)))
  {
    assert Holds(c, InFlight(w), p) <==> At(s, InFlight(w), p);
    if At(s, InFlight(w), p) {
      DropRepresents(c, s, w, p, AckKeys(c, w, p, unlock), Ack(s, w, p, unlock));
    } else {
      UntakenRepresents(c, s, w, p);
    }
  }

  lemma RetryRefines(c: Store, s: State, w: WorkerId, p: Payload, at: int, next: Payload)
    requires Represents(c, s) && Inv(s) && Successor(p, next)
    ensures Represents(RetryKeys(c, w, p, at, next), Next(s, DoRetry(w, p, at, next)))
  {
    assert Holds(c, InFlight(w), p) <==> At(s, InFlight(w), p);
    if At(s, InFlight(w), p) {
      MoveRepresents(c, s, w, p, RetryKeys(c, w, p, at, next), RetryLater(s, w, p, at, next), Retrying(at), next);
    } else {
      UntakenRepresents(c, s, w, p);
    }
  }

  lemma BuryRefines(c: Store, s: State, w: WorkerId, p: Payload, at: int, next: Payload)
    requires Represents(c, s) && Inv(s) && Successor(p, next)
    ensures Represents(BuryKeys(c, w, p, at, next), Next(s, DoBury(w, p, at, next)))
  {
    assert Holds(c, InFlight(w), p) <==> At(s, InFlight(w), p);
    if At(s, InFlight(w), p) {
      MoveRepresents(c, s, w, p, BuryKeys(c, w, p, at, next), Bury(s, w, p, at, next), Dead(at), next);
    } else {
      UntakenRepresents(c, s, w, p);
    }
  }

  lemma RequeueRefines(c: Store, s: State, w: WorkerId, p: Payload, next: Payload)
    requires Represents(c, s) && Inv(s) && Successor(p, next)
    ensures Represents(RequeueKeys(c, w, p, next), Next(s, DoRequeue(w, p, next)))
  {
    assert Holds(c, InFlight(w), p) <==> At(s, InFlight(w), p);
    if At(s, InFlight(w), p) {
      MoveRepresents(c, s, w, p, RequeueKeys(c, w, p, next), Requeue(s, w, p, next), Queue(p.queue), next);
    } else {
      UntakenRepresents(c, s, w, p);
    }
  }

  lemma UntakenRepresents(c: Store, s: State, w: WorkerId, p: Payload)
    requires Represents(c, s) && !At(s, InFlight(w), p)
    ensures Represents(Taken(c, w, p), s)
  {
    TakenFromInFlight(c, s, w, p);
    var d := Taken(c, w, p);
    forall pl, q
      ensures Holds(d, pl, q) <==> At(s, pl, q)
    {
      assert Holds(c, pl, q) <==> At(s, pl, q);
    }
    forall k
      ensures NoRepeat(Get(d.inFlight, k))
    {
      assert NoRepeat(Get(c.inFlight, k));
    }
  }

  /** Marking a second time writes the trust key and leaves the list alone. */
  lemma RemarkRepresents(c: Store, s: State, place: Place, q: Payload)
    requires Represents(c, s) && Inv(s) && At(s, place, q)
    ensures Represents(c.(trust := c.trust[q.jid := q]),
                       s.(copies := s.copies[q.jid := Copy(place, q)], trust := s.trust[q.jid := q]))
  {
    assert s.copies[q.jid := Copy(place, q)] == s.copies;
    var d, t := c.(trust := c.trust[q.jid := q]), s.(trust := s.trust[q.jid := q]);
    forall pl, x
      ensures Holds(d, pl, x) <==> At(t, pl, x)
    {
      assert Holds(c, pl, x) <==> At(s, pl, x);
    }
  }
}
