/**
  The delivery scripts as they run inside Redis, updating lists, sorted sets
  and keys in place, and any sequence of them by any workers and clients.
 */
module DeliveryScripts {
  import opened Ids
  import opened Delivery
  import opened DeliveryStore
  import opened Commands

  class Redis {
    var queues: Lists
    var inFlight: Lists
    var retry: SortedSet
    var scheduled: SortedSet
    var dead: SortedSet
    var trust: map<Id, Payload>
    var unique: map<Key, Id>

    ghost function Contents(): Store
      reads this
    {
      Store(queues, inFlight, retry, scheduled, dead, trust, unique)
    }

    constructor ()
      ensures Contents() == EMPTY_STORE && Represents(Contents(), EMPTY) && Inv(EMPTY)
    {
      queues, inFlight := map[], map[];
      retry, scheduled, dead := map[], map[], map[];
      trust, unique := map[], map[];
      new;
      EmptyRepresents();
    }

    /** enqueue_now, enqueue_unique_now, enqueue_unique_at and a plain ZADD to the scheduled set. */
    method EnqueueScript(place: Place, p: Payload) returns (accepted: bool)
      requires place.Queue? || place.Scheduled?
      modifies `queues, `scheduled, `unique
      ensures Contents() == EnqueueKeys(old(Contents()), place, p)
      ensures accepted <==> p.uniqueKey.None? || p.uniqueKey.value !in old(unique)
    {
      if p.uniqueKey.Some? {
        if p.uniqueKey.value in unique { return false; }
        unique := unique[p.uniqueKey.value := p.jid];
      }
      accepted := true;
      match place {
        case Queue(q) => queues := PushTo(queues, q, p);
        case Scheduled(at) => scheduled := scheduled[p := at];
      }
    }

    method FetchScript(q: QueueName, w: WorkerId) returns (r: Option<Payload>)
      modifies `queues, `inFlight
      ensures (Contents(), r) == FetchKeys(old(Contents()), q, w)
    {
      var l := Get(queues, q);
      if l == [] { return None; }
      var payload := l[|l| - 1];
      queues := queues[q := l[..|l| - 1]];
      var delivered := payload;
      if payload.fin.Some? {
        var trusted := payload.jid in trust && trust[payload.jid] == payload;
        if !trusted { delivered := payload.(fin := None); }
      }
      inFlight := PushTo(inFlight, w, delivered);
      r := Some(delivered);
    }

    method MarkScript(w: WorkerId, p: Payload, f: Finalization) returns (code: nat)
      modifies `queues, `inFlight, `trust
      ensures (Contents(), code) == MarkKeys(old(Contents()), w, p, f)
    {
      var marked := Marked(p, f);
      if p in Get(inFlight, w) {
        inFlight := inFlight[w := ReplaceFirst(Get(inFlight, w), p, marked)];
        code := 1;
      } else if marked in Get(inFlight, w) {
        code := 1;
      } else if p in Get(queues, p.queue) {
        queues := queues[p.queue := ReplaceFirst(Get(queues, p.queue), p, marked)];
        code := 2;
      } else if marked in Get(queues, p.queue) {
        code := 2;
      } else {
        return 0;
      }
      trust := trust[p.jid := marked];
    }

    /** The LREM that gates every terminal script. */
    method Take(w: WorkerId, p: Payload) returns (removed: bool)
      modifies `inFlight
      ensures Contents() == Taken(old(Contents()), w, p)
      ensures removed <==> p in Get(old(inFlight), w)
    {
      removed := p in Get(inFlight, w);
      inFlight := inFlight[w := RemoveFirst(Get(inFlight, w), p)];
    }

    /** Also the zero-delay Nack, which passes no unique key. */
    method AckScript(w: WorkerId, p: Payload, unlock: bool) returns (removed: bool)
      modifies `inFlight, `trust, `unique
      ensures Contents() == AckKeys(old(Contents()), w, p, unlock)
      ensures removed <==> p in Get(old(inFlight), w)
    {
      var deleteUnique := false;
      if unlock && p.uniqueKey.Some? && p.uniqueKey.value in unique && unique[p.uniqueKey.value] == p.jid {
        deleteUnique := true;
      }
      removed := Take(w, p);
      if removed {
        trust := trust - {p.jid};
        if deleteUnique { unique := unique - {p.uniqueKey.value}; }
      }
    }

    method RetryScript(w: WorkerId, p: Payload, at: int, next: Payload) returns (removed: bool)
      modifies `inFlight, `trust, `retry
      ensures Contents() == RetryKeys(old(Contents()), w, p, at, next)
      ensures removed <==> p in Get(old(inFlight), w)
    {
      removed := Take(w, p);
      if removed {
        trust := trust - {p.jid};
        retry := retry[next := at];
      }
    }

    method MoveToDeadScript(w: WorkerId, p: Payload, at: int, next: Payload) returns (removed: bool)
      modifies `inFlight, `trust, `unique, `dead
      ensures Contents() == BuryKeys(old(Contents()), w, p, at, next)
      ensures removed <==> p in Get(old(inFlight), w)
    {
      var deleteUnique := false;
      if p.uniqueKey.Some? && p.uniqueKey.value in unique && unique[p.uniqueKey.value] == p.jid {
        deleteUnique := true;
      }
      removed := Take(w, p);
      if removed {
        trust := trust - {p.jid};
        if deleteUnique { unique := unique - {p.uniqueKey.value}; }
        dead := dead[next := at];
      }
    }

    method RequeueScript(w: WorkerId, p: Payload, next: Payload) returns (removed: bool)
      modifies `inFlight, `queues
      ensures Contents() == RequeueKeys(old(Contents()), w, p, next)
      ensures removed <==> p in Get(old(inFlight), w)
    {
      removed := Take(w, p);
      if removed { queues := PushTo(queues, p.queue, next); }
    }

    method RequeueOrphanedScript(w: WorkerId) returns (requeued: nat)
      modifies `queues, `trust, `inFlight
      ensures Contents() == Reaped(old(Contents()), w)
      ensures requeued == |Get(old(inFlight), w)|
    {
      var jobs := Get(inFlight, w);
      requeued := 0;
      for i := 0 to |jobs|
        invariant requeued == i && inFlight == old(inFlight)
        invariant queues == Returned(old(queues), jobs[..i])
        invariant trust == Vouched(old(trust), jobs[..i])
      {
        queues := PushTo(queues, jobs[i].queue, jobs[i]);
        if jobs[i].fin.Some? { trust := trust[jobs[i].jid := jobs[i]]; }
        requeued := requeued + 1;
        assert jobs[..i + 1][..i] == jobs[..i];
      }
      assert jobs[..|jobs|] == jobs;
      inFlight := inFlight - {w};
    }

    /** The loop of enqueue_scheduled that removes the due members from their sorted set. */
    method RemoveMembers(fromRetry: bool, items: seq<Payload>)
      modifies `retry, `scheduled
      ensures retry == if fromRetry then old(retry) - (set p | p in items) else old(retry)
      ensures scheduled == if fromRetry then old(scheduled) else old(scheduled) - (set p | p in items)
    {
      for i := 0 to |items|
        invariant retry == if fromRetry then old(retry) - (set p | p in items[..i]) else old(retry)
        invariant scheduled == if fromRetry then old(scheduled) else old(scheduled) - (set p | p in items[..i])
      {
        assert items[..i + 1] == items[..i] + [items[i]];
        if fromRetry { retry := retry - {items[i]}; } else { scheduled := scheduled - {items[i]}; }
      }
      assert items[..|items|] == items;
    }

    /** The loop of enqueue_scheduled that pushes them to their queues. */
    method PushMembers(items: seq<Payload>)
      modifies `queues
      ensures queues == Returned(old(queues), items)
    {
      for i := 0 to |items|
        invariant queues == Returned(old(queues), items[..i])
      {
        queues := PushTo(queues, items[i].queue, items[i]);
        assert items[..i + 1][..i] == items[..i];
      }
      assert items[..|items|] == items;
    }

    method EnqueueScheduledScript(fromRetry: bool, now: int, limit: nat) returns (items: seq<Payload>)
      modifies `queues, `retry, `scheduled
      ensures DueRange(Members(old(Contents()), fromRetry), now, limit, items)
      ensures Contents() == Promoted(old(Contents()), fromRetry, items)
    {
      items := DueItems(if fromRetry then retry else scheduled, now, limit);
      RemoveMembers(fromRetry, items);
      PushMembers(items);
    }

    // -------------------------------------------------------------------
    // Any sequence of calls

    /** A call changes the keys exactly as its script says. */
    method Perform(cmd: Command)
      requires WellFormed(cmd)
      modifies this
      ensures Performs(cmd, old(Contents()), Contents())
    {
      match cmd {
        case CallEnqueue(place, p) => var _ := EnqueueScript(place, p);
        case CallFetch(q, w) => var _ := FetchScript(q, w);
        case CallMark(w, p, f) => var _ := MarkScript(w, p, f);
        case CallAck(w, p, unlock) => var _ := AckScript(w, p, unlock);
        case CallRetry(w, p, at, next) => var _ := RetryScript(w, p, at, next);
        case CallBury(w, p, at, next) => var _ := MoveToDeadScript(w, p, at, next);
        case CallRequeue(w, p, next) => var _ := RequeueScript(w, p, next);
        case CallReap(w) => var _ := RequeueOrphanedScript(w);
        case CallPromote(fromRetry, now, limit) => var _ := EnqueueScheduledScript(fromRetry, now, limit);
        case KeyExpires(key) => unique := unique - {key};
      }
    }

    /** Whatever workers and clients call, in whatever order and with however stale payloads, the
        keys go from each call to the next by that call's script; `log` lists what they were. */
    method Execute(cmds: seq<Command>) returns (ghost log: seq<Store>)
      requires forall cmd :: cmd in cmds ==> WellFormed(cmd)
      modifies this
      ensures Logs(cmds, log) && log[0] == old(Contents()) && log[|cmds|] == Contents()
    {
      log := [Contents()];
      for i := 0 to |cmds|
        invariant |log| == i + 1 && log[0] == old(Contents()) && log[i] == Contents()
        invariant forall j :: 0 <= j < i ==> Performs(cmds[j], log[j], log[j + 1])
      {
        Perform(cmds[i]);
        log := log + [Contents()];
      }
    }
  }
}
