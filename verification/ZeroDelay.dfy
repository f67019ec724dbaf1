/**
  A retry without a delay removes the job without putting it anywhere, so a batch
  member that asks for one leaves its batch waiting for ever.  This is the run.
 */
module ZeroDelay {
  import opened Ids
  import opened Machine
  import opened Workers
  import B = Batches
  import D = Delivery

  const CFG := B.Config(0, None, 0, false, false, false)
  const MEMBER := D.Payload(Job(0), 0, 0, None, Some(0), None, None, 0)
  const AT_ONCE := D.Finalization(D.Retry, 0, None)
  const MARKED := MEMBER.(fin := Some(AT_ONCE))

  ghost const STORED := State(D.EMPTY, map[0 := B.NewBatch(CFG, 1)], map[], multiset{}, {})

  ghost const TRACKED := State(
    D.State(map[Job(0) := D.Copy(D.Queue(0), MEMBER)], map[], map[]),
    map[0 := B.EnqueueJobs(B.NewBatch(CFG, 1), [Job(0)])], map[], multiset{}, {0})

  ghost const CLAIMED := TRACKED.(
    d := D.State(map[Job(0) := D.Copy(D.InFlight(0), MEMBER)], map[], map[]),
    procs := map[0 := Proc(0, MEMBER, Running)])

  ghost const ASKED := CLAIMED.(procs := map[0 := Proc(0, MEMBER, Deciding(AT_ONCE))])

  ghost const SETTLED_ON := ASKED.(
    d := D.State(map[Job(0) := D.Copy(D.InFlight(0), MARKED)], map[Job(0) := MARKED], map[]),
    procs := map[0 := Proc(0, MARKED, Finalizing(AT_ONCE, 0))])

  ghost const RECORDED := SETTLED_ON.(
    forest := map[0 := B.Record(B.EnqueueJobs(B.NewBatch(CFG, 1), [Job(0)]), Job(0), B.Failure)],
    procs := map[0 := Proc(0, MARKED, Finalizing(AT_ONCE, 1))])

  ghost const DROPPED := RECORDED.(d := D.EMPTY, procs := map[])

  lemma Stores()
    ensures Enabled(INIT, StoreBatch(CFG, 1)) && Next(INIT, StoreBatch(CFG, 1)) == STORED
  {
  }

  lemma MemberIsNew()
    ensures NewMembers(STORED, 0, [MEMBER]) && MemberIds([MEMBER]) == [Job(0)] && Numbers([MEMBER]) == {0}
    ensures PushMembers(D.EMPTY, [MEMBER]) == TRACKED.d
  {
    assert MemberIds([MEMBER]) == [Job(0)];
    assert MEMBER in [MEMBER];
    assert PushMembers(D.EMPTY, [MEMBER]).copies == TRACKED.d.copies;
  }

  lemma Tracks()
    ensures Enabled(STORED, TrackMembers(0, [MEMBER])) && Next(STORED, TrackMembers(0, [MEMBER])) == TRACKED
  {
    MemberIsNew();
  }

  lemma Claims()
    ensures Enabled(TRACKED, Claim(0, 0, MEMBER)) && Next(TRACKED, Claim(0, 0, MEMBER)) == CLAIMED
  {
    assert D.Fetch(TRACKED.d, 0, MEMBER) == CLAIMED.d;
  }

  lemma Asks()
    ensures Enabled(CLAIMED, Decide(0, AT_ONCE)) && Next(CLAIMED, Decide(0, AT_ONCE)) == ASKED
  {
  }

  lemma Settles()
    ensures Enabled(ASKED, MarkOutcome(0, true)) && Next(ASKED, MarkOutcome(0, true)) == SETTLED_ON
  {
    assert D.Mark(ASKED.d, 0, MEMBER, AT_ONCE) == SETTLED_ON.d;
  }

  lemma RecordsFailure()
    ensures RecordIn(SETTLED_ON, 0, Job(0), B.Failure) == (SETTLED_ON.(forest := RECORDED.forest), multiset{})
    ensures Job(0) in RECORDED.forest[0].jobs
  {
    var b := SETTLED_ON.forest[0];
    assert Job(0) in b.jobs && b.p.pending == 1;
    assert B.FiredKinds(b, B.Failure) == [];
    assert B.CallbackIds(0, 0, 0) == [];
    PushNothing(SETTLED_ON.d, CFG);
    assert RecordIn(SETTLED_ON, 0, Job(0), B.Failure).0.forest == RECORDED.forest;
  }

  lemma Records()
    ensures Enabled(SETTLED_ON, RecordResult(0, true)) && Next(SETTLED_ON, RecordResult(0, true)) == RECORDED
    ensures Job(0) in RECORDED.forest[0].jobs
  {
    RecordsFailure();
  }

  lemma Drops()
    ensures var last := Terminate(0, MEMBER.(retryCount := 1), 0, true);
            Enabled(RECORDED, last) && Next(RECORDED, last) == DROPPED
  {
  }

  lemma ClaimedDrops()
    ensures Reaches(CLAIMED, DROPPED)
  {
    ReachesItself(DROPPED);
    Drops();
    StepReaches(RECORDED, Terminate(0, MEMBER.(retryCount := 1), 0, true), DROPPED, DROPPED);
    Records();
    StepReaches(SETTLED_ON, RecordResult(0, true), RECORDED, DROPPED);
    Settles();
    StepReaches(ASKED, MarkOutcome(0, true), SETTLED_ON, DROPPED);
    Asks();
    StepReaches(CLAIMED, Decide(0, AT_ONCE), ASKED, DROPPED);
  }

  /** From the empty system a run leads to a batch that waits for a job which exists nowhere. */
  lemma ZeroDelayRetryStrands()
    ensures Reaches(INIT, DROPPED)
    ensures 0 in DROPPED.forest && Job(0) in DROPPED.forest[0].jobs && Job(0) !in DROPPED.d.copies
  {
    Records();
    ClaimedDrops();
    Claims();
    StepReaches(TRACKED, Claim(0, 0, MEMBER), CLAIMED, DROPPED);
    Tracks();
    StepReaches(STORED, TrackMembers(0, [MEMBER]), TRACKED, DROPPED);
    Stores();
    StepReaches(INIT, StoreBatch(CFG, 1), STORED, DROPPED);
  }
}
