/**
  A lost reply can leave a parent waiting for a child that is done.  This is the run: the
  reply that asks for the report is lost, the script is repeated, and it does not ask again.
 */
module LostReport {
  import opened Ids
  import opened Machine
  import opened Workers
  import B = Batches
  import D = Delivery

  const PARENT := B.Config(0, None, 0, false, false, false)
  const CHILD := B.Config(1, Some(0), 0, false, false, false)
  const MEMBER := D.Payload(Job(0), 0, 0, None, Some(1), None, None, 0)
  const DONE := D.Finalization(D.Finish, 0, None)
  const MARKED := MEMBER.(fin := Some(DONE))

  ghost const WAITING := B.AddChild(B.NewBatch(PARENT, 0), Child(1))
  ghost const OPEN := B.EnqueueJobs(B.NewBatch(CHILD, 1), [Job(0)])
  ghost const CLOSED := B.Record(OPEN, Job(0), B.Success)

  ghost const PARENT_STORED := INIT.(forest := map[0 := B.NewBatch(PARENT, 0)])
  ghost const STORED := INIT.(forest := map[0 := B.NewBatch(PARENT, 0), 1 := B.NewBatch(CHILD, 1)])
  ghost const LINKED := INIT.(forest := map[0 := WAITING, 1 := B.NewBatch(CHILD, 1)])

  ghost const TRACKED := State(
    D.State(map[Job(0) := D.Copy(D.Queue(0), MEMBER)], map[], map[]),
    map[0 := WAITING, 1 := OPEN], map[], multiset{}, {0})

  ghost const CLAIMED := TRACKED.(
    d := D.State(map[Job(0) := D.Copy(D.InFlight(0), MEMBER)], map[], map[]),
    procs := map[0 := Proc(0, MEMBER, Running)])

  ghost const ASKED := CLAIMED.(procs := map[0 := Proc(0, MEMBER, Deciding(DONE))])

  ghost const SETTLED_ON := ASKED.(
    d := D.State(map[Job(0) := D.Copy(D.InFlight(0), MARKED)], map[Job(0) := MARKED], map[]),
    procs := map[0 := Proc(0, MARKED, Finalizing(DONE, 0))])

  /** The batch script has run, its reply is lost, and the finalizer starts over. */
  ghost const UNHEARD := SETTLED_ON.(forest := map[0 := WAITING, 1 := CLOSED])

  ghost const REPEATED := UNHEARD.(procs := map[0 := Proc(0, MARKED, Finalizing(DONE, 1))])
  ghost const UNCALLED := UNHEARD.(procs := map[0 := Proc(0, MARKED, Finalizing(DONE, 2))])
  ghost const END := UNHEARD.(d := D.EMPTY, procs := map[])

  lemma Stores()
    ensures Enabled(INIT, StoreBatch(PARENT, 0)) && Next(INIT, StoreBatch(PARENT, 0)) == PARENT_STORED
    ensures Enabled(PARENT_STORED, StoreBatch(CHILD, 1)) && Next(PARENT_STORED, StoreBatch(CHILD, 1)) == STORED
  {
  }

  lemma Links()
    ensures Enabled(STORED, LinkChild(1)) && Next(STORED, LinkChild(1)) == LINKED
    ensures Child(1) in WAITING.jobs
  {
  }

  lemma MemberIsNew()
    ensures NewMembers(LINKED, 1, [MEMBER]) && MemberIds([MEMBER]) == [Job(0)] && Numbers([MEMBER]) == {0}
    ensures PushMembers(D.EMPTY, [MEMBER]) == TRACKED.d
  {
    assert MemberIds([MEMBER]) == [Job(0)];
    assert MEMBER in [MEMBER];
    assert PushMembers(D.EMPTY, [MEMBER]).copies == TRACKED.d.copies;
  }

  lemma Tracks()
    ensures Enabled(LINKED, TrackMembers(1, [MEMBER])) && Next(LINKED, TrackMembers(1, [MEMBER])) == TRACKED
  {
    MemberIsNew();
  }

  lemma Claims()
    ensures Enabled(TRACKED, Claim(0, 0, MEMBER)) && Next(TRACKED, Claim(0, 0, MEMBER)) == CLAIMED
  {
    assert D.Fetch(TRACKED.d, 0, MEMBER) == CLAIMED.d;
  }

  lemma Asks()
    ensures Enabled(CLAIMED, Decide(0, DONE)) && Next(CLAIMED, Decide(0, DONE)) == ASKED
  {
  }

  lemma Settles()
    ensures Enabled(ASKED, MarkOutcome(0, true)) && Next(ASKED, MarkOutcome(0, true)) == SETTLED_ON
  {
    assert D.Mark(ASKED.d, 0, MEMBER, DONE) == SETTLED_ON.d;
  }

  lemma Closes()
    ensures OPEN.jobs == {Job(0)} && OPEN.p.pending == 1 && CLOSED.jobs == {} && B.Settled(CLOSED)
  {
    assert B.FiredKinds(OPEN, B.Success) == [];
  }

  lemma RecordsOnce()
    ensures RecordIn(SETTLED_ON, 1, Job(0), B.Success).0 == SETTLED_ON.(forest := UNHEARD.forest)
  {
    Closes();
    assert B.FiredKinds(OPEN, B.Success) == [];
    assert B.CallbackIds(1, 0, 0) == [];
    PushNothing(SETTLED_ON.d, CHILD);
    assert RecordIn(SETTLED_ON, 1, Job(0), B.Success).0.forest == UNHEARD.forest;
  }

  lemma RecordsNoMore()
    ensures RecordIn(UNHEARD, 1, Job(0), B.Success) == (UNHEARD, multiset{})
  {
    Closes();
    assert B.Complete(CLOSED, Job(0), B.Success) == (CLOSED, B.AlreadyProcessed);
    assert UNHEARD.forest[1 := CLOSED] == UNHEARD.forest;
  }

  lemma LosesTheReply()
    ensures Enabled(SETTLED_ON, RecordResult(0, false)) && Next(SETTLED_ON, RecordResult(0, false)) == UNHEARD
  {
    RecordsOnce();
    assert SETTLED_ON.procs[0 := Proc(0, MARKED, Finalizing(DONE, 0))] == SETTLED_ON.procs;
  }

  lemma Repeats()
    ensures Enabled(UNHEARD, RecordResult(0, true)) && Next(UNHEARD, RecordResult(0, true)) == REPEATED
  {
    RecordsNoMore();
  }

  lemma HasNoCallback()
    ensures Enabled(REPEATED, RecordCallback(0, true)) && Next(REPEATED, RecordCallback(0, true)) == UNCALLED
  {
  }

  lemma Finishes()
    ensures Enabled(UNCALLED, Terminate(0, MEMBER, 0, true)) && Next(UNCALLED, Terminate(0, MEMBER, 0, true)) == END
  {
    assert D.Ack(UNCALLED.d, 0, MARKED, true) == D.EMPTY;
  }

  lemma ClaimedEnds()
    ensures Reaches(CLAIMED, END)
  {
    ReachesItself(END);
    Finishes();
    StepReaches(UNCALLED, Terminate(0, MEMBER, 0, true), END, END);
    HasNoCallback();
    StepReaches(REPEATED, RecordCallback(0, true), UNCALLED, END);
    Repeats();
    StepReaches(UNHEARD, RecordResult(0, true), REPEATED, END);
    LosesTheReply();
    StepReaches(SETTLED_ON, RecordResult(0, false), UNHEARD, END);
    Settles();
    StepReaches(ASKED, MarkOutcome(0, true), SETTLED_ON, END);
    Asks();
    StepReaches(CLAIMED, Decide(0, DONE), ASKED, END);
  }

  /** From the empty system a run leads to a parent that waits for a settled child, with every
      job done, no goroutine left and no report on the way. */
  lemma LostReplyStrandsTheParent()
    ensures Reaches(INIT, END)
    ensures 0 in END.forest && 1 in END.forest && B.Settled(END.forest[1]) && Child(1) in END.forest[0].jobs
    ensures END.signals == multiset{} && END.procs == map[] && END.d.copies == map[]
  {
    Closes();
    ClaimedEnds();
    Claims();
    StepReaches(TRACKED, Claim(0, 0, MEMBER), CLAIMED, END);
    Tracks();
    StepReaches(LINKED, TrackMembers(1, [MEMBER]), TRACKED, END);
    Links();
    StepReaches(STORED, LinkChild(1), LINKED, END);
    Stores();
    StepReaches(PARENT_STORED, StoreBatch(CHILD, 1), STORED, END);
    StepReaches(INIT, StoreBatch(PARENT, 0), PARENT_STORED, END);
  }
}
