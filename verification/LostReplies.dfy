/**
  The finalizer repeats its scripts until they all reply.  Repeats leave the delivery
  keys and the batches as one undisturbed pass would have left them, and they leave the
  reports to parent batches so exactly when no reply that asked for one was lost.
 */
module LostReplies {
  import opened Ids
  import opened Machine
  import opened Workers
  import opened Outcomes
  import opened Persistence
  import B = Batches
  import BI = BatchInvariants
  import BT = BatchTheorems
  import D = Delivery
  import F = Forests

  /** The batch script for a member, with the report its reply asks for. */
  function Record(m: State, pr: Proc): (State, multiset<Signal>)
    requires pr.stage.Finalizing?
  {
    if pr.raw.batch.None? then (m, multiset{})
    else RecordIn(m, pr.raw.batch.value, pr.raw.jid, ResultOf(pr.stage.fin.op))
  }

  /** The batch script for a callback, with the report its reply asks for. */
  function Retire(m: State, pr: Proc): (State, multiset<Signal>)
    requires pr.stage.Finalizing?
  {
    if pr.raw.callbackOf.None? || pr.stage.fin.op.Retry? then (m, multiset{})
    else RetireIn(m, pr.raw.callbackOf.value, pr.raw.jid)
  }

  /** A report is sent only when the reply that asks for it is heard. */
  function IfHeard(replied: bool, sigs: multiset<Signal>): multiset<Signal> {
    if replied then sigs else multiset{}
  }

  function Sent(m: State, sigs: multiset<Signal>, replied: bool): State {
    m.(signals := m.signals + IfHeard(replied, sigs))
  }

  /** One pass over the finalizer's three scripts: the first `k` of them took effect, and all of
      these replied but perhaps the last.  The payload and time of the terminal script are the pass's own. */
  datatype Pass = Pass(k: nat, lastReplied: bool, next: D.Payload, now: int)

  /** Whether the pass heard the reply of its i-th script. */
  predicate Replied(pass: Pass, i: nat) {
    i < pass.k || (i == pass.k && pass.lastReplied)
  }

  function Terminated(m: State, pr: Proc, pass: Pass): State
    requires pr.stage.Finalizing?
  {
    m.(d := D.Next(m.d, TerminalStep(pr, pass.next, pass.now)))
  }

  function Recorded(m: State, pr: Proc, replied: bool): State
    requires pr.stage.Finalizing?
  {
    Sent(Record(m, pr).0, Record(m, pr).1, replied)
  }

  function Retired(m: State, pr: Proc, replied: bool): State
    requires pr.stage.Finalizing?
  {
    Sent(Retire(m, pr).0, Retire(m, pr).1, replied)
  }

  function After(m: State, pr: Proc, pass: Pass): State
    requires pr.stage.Finalizing?
  {
    var a := if pass.k >= 1 then Recorded(m, pr, Replied(pass, 1)) else m;
    var b := if pass.k >= 2 then Retired(a, pr, Replied(pass, 2)) else a;
    if pass.k >= 3 then Terminated(b, pr, pass) else b
  }

  /** A pass is made of the machine's own steps: this is what they do to everything but the goroutine. */
  lemma RecordIsStep(m: State, g: nat, replied: bool)
    requires At(m, g, 0)
    ensures Next(m, RecordResult(g, replied)).(procs := m.procs) == Recorded(m, m.procs[g], replied)
  {
    assert m.signals + multiset{} == m.signals;
  }

  lemma RetireIsStep(m: State, g: nat, replied: bool)
    requires At(m, g, 1) && !m.procs[g].stage.fin.op.Retry?
    ensures Next(m, RecordCallback(g, replied)).(procs := m.procs) == Retired(m, m.procs[g], replied)
  {
    assert m.signals + multiset{} == m.signals;
  }

  lemma TerminateIsStep(m: State, g: nat, pass: Pass, replied: bool)
    requires Enabled(m, Terminate(g, pass.next, pass.now, replied))
    ensures Next(m, Terminate(g, pass.next, pass.now, replied)).(procs := m.procs) == Terminated(m, m.procs[g], pass)
  {
  }

  /** The pass as it would be undisturbed. */
  function Whole(pass: Pass): Pass {
    pass.(k := 3, lastReplied := true)
  }

  ghost predicate PassOk(pr: Proc, pass: Pass) {
    D.Successor(pr.raw, pass.next)
  }

  // ---------------------------------------------------------------------
  // When a reply asks for a report, told from the record before the script

  predicate CompletionAsks(b: B.Batch, job: Id, r: B.Result) {
    && b.cfg.parent.Some? && B.Refusal(b, job, r) == None
    && B.PendingAfter(b, r) == 0 && B.FiredKinds(b, r) == [] && b.p.callbacksPending == 0
  }

  predicate RetirementAsks(b: B.Batch, cb: Id) {
    && b.cfg.parent.Some? && cb in b.callbacks
    && b.p.pending == 0 && b.p.callbacksPending == 1 && b.p.completeFired
  }

  predicate RecordAsks(m: State, pr: Proc)
    requires pr.stage.Finalizing?
  {
    pr.raw.batch.Some? && pr.raw.batch.value in m.forest
    && CompletionAsks(m.forest[pr.raw.batch.value], pr.raw.jid, ResultOf(pr.stage.fin.op))
  }

  predicate RetireAsks(m: State, pr: Proc)
    requires pr.stage.Finalizing?
  {
    pr.raw.callbackOf.Some? && !pr.stage.fin.op.Retry? && pr.raw.callbackOf.value in m.forest
    && RetirementAsks(m.forest[pr.raw.callbackOf.value], pr.raw.jid)
  }

  /** A reply asks for a report exactly when the record before the script says so. */
  lemma RecordAsksExactly(m: State, pr: Proc)
    requires pr.stage.Finalizing? && F.AllInv(m.forest)
    ensures Record(m, pr).1 != multiset{} <==> RecordAsks(m, pr)
  {
  }

  lemma RetireAsksExactly(m: State, pr: Proc)
    requires pr.stage.Finalizing? && F.AllInv(m.forest)
    ensures Retire(m, pr).1 != multiset{} <==> RetireAsks(m, pr)
  {
  }

  // ---------------------------------------------------------------------
  // Each script, repeated, does nothing and asks for nothing

  /** The batch has taken note of the job's outcome. */
  ghost predicate Noted(f: F.Forest, pr: Proc)
    requires pr.stage.Finalizing?
  {
    pr.raw.batch.Some? && pr.raw.batch.value in f ==>
      var b := f[pr.raw.batch.value];
      pr.raw.jid !in b.jobs || (pr.stage.fin.op.Retry? && BI.Inv(b) && pr.raw.jid in b.failed)
  }

  lemma NotedStays(m: State, pr: Proc)
    requires pr.stage.Finalizing? && Noted(m.forest, pr)
    ensures Record(m, pr) == (m, multiset{}) && Recorded(m, pr, true) == m == Recorded(m, pr, false)
  {
    assert m.signals + multiset{} == m.signals;
    if pr.raw.batch.Some? && pr.raw.batch.value in m.forest {
      var b := m.forest[pr.raw.batch.value];
      assert m.forest[pr.raw.batch.value := b] == m.forest;
      if pr.raw.jid in b.jobs {
        BT.RepeatedFailure(b, pr.raw.jid);
        assert B.FiredKinds(b, B.Failure) == [];
        assert B.CallbackIds(b.cfg.id, b.p.callbackSeq, 0) == [];
        PushNothing(m.d, b.cfg);
      }
    }
  }

  lemma CompletionNotes(b: B.Batch, job: Id, r: B.Result)
    requires BI.Inv(b) && !r.EmptySuccess?
    ensures var c := B.Complete(b, job, r).0;
      c.cfg == b.cfg && BI.Inv(c) && (job !in c.jobs || (r.Failure? && job in c.failed))
  {
    BI.StepKeepsInv(b, BI.DoComplete(job, r));
  }

  lemma RecordNotes(m: State, pr: Proc)
    requires F.AllInv(m.forest) && pr.stage.Finalizing?
    ensures F.AllInv(Record(m, pr).0.forest) && Noted(Record(m, pr).0.forest, pr)
  {
    if pr.raw.batch.Some? && pr.raw.batch.value in m.forest {
      CompletionNotes(m.forest[pr.raw.batch.value], pr.raw.jid, ResultOf(pr.stage.fin.op));
    }
  }

  /** The batch no longer waits for the callback, where the outcome ends it. */
  ghost predicate Crossed(f: F.Forest, pr: Proc)
    requires pr.stage.Finalizing?
  {
    !pr.stage.fin.op.Retry? && pr.raw.callbackOf.Some? && pr.raw.callbackOf.value in f ==>
      pr.raw.jid !in f[pr.raw.callbackOf.value].callbacks
  }

  lemma CrossedStays(m: State, pr: Proc)
    requires pr.stage.Finalizing? && Crossed(m.forest, pr)
    ensures Retire(m, pr) == (m, multiset{}) && Retired(m, pr, true) == m == Retired(m, pr, false)
  {
    assert m.signals + multiset{} == m.signals;
    if pr.raw.callbackOf.Some? && pr.raw.callbackOf.value in m.forest {
      assert m.forest[pr.raw.callbackOf.value := m.forest[pr.raw.callbackOf.value]] == m.forest;
    }
  }

  /** Retiring a callback leaves what was noted alone. */
  lemma RetireCrosses(m: State, pr: Proc)
    requires F.AllInv(m.forest) && pr.stage.Finalizing? && Noted(m.forest, pr)
    ensures var f := Retire(m, pr).0.forest; F.AllInv(f) && Noted(f, pr) && Crossed(f, pr)
  {
    if pr.raw.callbackOf.Some? && !pr.stage.fin.op.Retry? && pr.raw.callbackOf.value in m.forest {
      BI.StepKeepsInv(m.forest[pr.raw.callbackOf.value], BI.DoCallback(pr.raw.jid));
    }
  }

  predicate Gone(d: D.State, pr: Proc) {
    !D.At(d, D.InFlight(pr.w), pr.raw)
  }

  /** Once the terminal script has run, the payload is no longer in flight, and a repeat finds nothing. */
  lemma TerminatedIsGone(m: State, pr: Proc, pass: Pass)
    requires pr.stage.Finalizing? && PassOk(pr, pass)
    ensures Gone(Terminated(m, pr, pass).d, pr)
    ensures Gone(m.d, pr) ==> Terminated(m, pr, pass) == m
  {
  }

  lemma GoneStays(m: State, pr: Proc, pass: Pass)
    requires pr.stage.Finalizing? && Gone(m.d, pr)
    ensures Terminated(m, pr, pass) == m
  {
  }

  // ---------------------------------------------------------------------
  // Any number of passes

  function AfterAll(m: State, pr: Proc, passes: seq<Pass>): State
    requires pr.stage.Finalizing?
    decreases |passes|
  {
    if passes == [] then m else AfterAll(After(m, pr, passes[0]), pr, passes[1..])
  }

  /** Whether the first pass that reached the i-th script heard its reply. */
  predicate Heard(passes: seq<Pass>, i: nat)
    decreases |passes|
  {
    passes != [] && if passes[0].k >= i then Replied(passes[0], i) else Heard(passes[1..], i)
  }

  /** The first pass that ran all three scripts is the n-th. */
  predicate FirstComplete(passes: seq<Pass>, n: nat) {
    n < |passes| && passes[n].k >= 3 && forall j :: 0 <= j < n ==> passes[j].k < 3
  }

  lemma {:induction false} NothingLeft(m: State, pr: Proc, passes: seq<Pass>)
    requires pr.stage.Finalizing? && Noted(m.forest, pr) && Crossed(m.forest, pr) && Gone(m.d, pr)
    ensures AfterAll(m, pr, passes) == m
    decreases |passes|
  {
    if passes != [] {
      NotedStays(m, pr);
      CrossedStays(m, pr);
      GoneStays(m, pr, passes[0]);
      NothingLeft(m, pr, passes[1..]);
    }
  }

  lemma {:induction false} OnlyTerminalLeft(m: State, pr: Proc, passes: seq<Pass>, n: nat)
    requires pr.stage.Finalizing? && Noted(m.forest, pr) && Crossed(m.forest, pr)
    requires FirstComplete(passes, n) && PassOk(pr, passes[n])
    ensures AfterAll(m, pr, passes) == Terminated(m, pr, passes[n])
    decreases |passes|
  {
    NotedStays(m, pr);
    CrossedStays(m, pr);
    if n == 0 {
      TerminatedIsGone(m, pr, passes[0]);
      NothingLeft(Terminated(m, pr, passes[0]), pr, passes[1..]);
    } else {
      OnlyTerminalLeft(m, pr, passes[1..], n - 1);
    }
  }

  lemma {:induction false} RetirementLeft(m: State, pr: Proc, passes: seq<Pass>, n: nat)
    requires pr.stage.Finalizing? && F.AllInv(m.forest) && Noted(m.forest, pr)
    requires FirstComplete(passes, n) && PassOk(pr, passes[n])
    ensures AfterAll(m, pr, passes) == Terminated(Retired(m, pr, Heard(passes, 2)), pr, passes[n])
    decreases |passes|
  {
    NotedStays(m, pr);
    if passes[0].k < 2 {
      RetirementLeft(m, pr, passes[1..], n - 1);
    } else {
      var b := Retired(m, pr, Heard(passes, 2));
      RetireCrosses(m, pr);
      if n == 0 {
        TerminatedIsGone(b, pr, passes[0]);
        NothingLeft(Terminated(b, pr, passes[0]), pr, passes[1..]);
      } else {
        OnlyTerminalLeft(b, pr, passes[1..], n - 1);
      }
    }
  }

  /** All passes together do what each script's first pass, and the first complete one, did. */
  ghost function Combined(m: State, pr: Proc, passes: seq<Pass>, pass: Pass): State
    requires pr.stage.Finalizing?
  {
    Terminated(Retired(Recorded(m, pr, Heard(passes, 1)), pr, Heard(passes, 2)), pr, pass)
  }

  lemma RecordingPass(m: State, pr: Proc, passes: seq<Pass>, n: nat)
    requires pr.stage.Finalizing? && F.AllInv(m.forest) && FirstComplete(passes, n) && PassOk(pr, passes[n])
    requires passes[0].k >= 1
    ensures AfterAll(m, pr, passes) == Combined(m, pr, passes, passes[n])
  {
    var a := Recorded(m, pr, Heard(passes, 1));
    RecordNotes(m, pr);
    if passes[0].k == 1 {
      RetirementLeft(a, pr, passes[1..], n - 1);
    } else {
      var b := Retired(a, pr, Heard(passes, 2));
      RetireCrosses(a, pr);
      if n == 0 {
        TerminatedIsGone(b, pr, passes[0]);
        NothingLeft(Terminated(b, pr, passes[0]), pr, passes[1..]);
      } else {
        OnlyTerminalLeft(b, pr, passes[1..], n - 1);
      }
    }
  }

  lemma {:induction false} PassesCombine(m: State, pr: Proc, passes: seq<Pass>, n: nat)
    requires pr.stage.Finalizing? && F.AllInv(m.forest) && FirstComplete(passes, n) && PassOk(pr, passes[n])
    ensures AfterAll(m, pr, passes) == Combined(m, pr, passes, passes[n])
    decreases |passes|
  {
    if passes[0].k >= 1 {
      RecordingPass(m, pr, passes, n);
    } else {
      PassesCombine(m, pr, passes[1..], n - 1);
    }
  }

  // ---------------------------------------------------------------------
  // What is lost

  /** The scripts do not look at the reports in transit. */
  lemma RecordFrames(m: State, pr: Proc, signals: multiset<Signal>)
    requires pr.stage.Finalizing?
    ensures Record(m.(signals := signals), pr) == (Record(m, pr).0.(signals := signals), Record(m, pr).1)
    ensures Record(m, pr).0.signals == m.signals
  {
  }

  lemma RetireFrames(m: State, pr: Proc, signals: multiset<Signal>)
    requires pr.stage.Finalizing?
    ensures Retire(m.(signals := signals), pr) == (Retire(m, pr).0.(signals := signals), Retire(m, pr).1)
    ensures Retire(m, pr).0.signals == m.signals
  {
  }

  /** The state after all passes, up to reports, and the reports sent. */
  lemma CombinedParts(m: State, pr: Proc, heard1: bool, heard2: bool, pass: Pass)
    requires pr.stage.Finalizing?
    ensures var end := Terminated(Retired(Recorded(m, pr, heard1), pr, heard2), pr, pass);
            var sent1, sent2 := Record(m, pr).1, Retire(Record(m, pr).0, pr).1;
            && end == Terminated(Retire(Record(m, pr).0, pr).0, pr, pass).(signals := end.signals)
            && end.signals == m.signals + IfHeard(heard1, sent1) + IfHeard(heard2, sent2)
  {
    RecordFrames(m, pr, m.signals);
    RetireFrames(Record(m, pr).0, pr, Recorded(m, pr, heard1).signals);
  }

  /** However many passes are cut short, and however many follow, delivery keys and batches
      are those of one undisturbed pass: one retry or dead entry, one count in the batch. */
  lemma LostRepliesLeaveNoTrace(m: State, pr: Proc, passes: seq<Pass>, n: nat)
    requires Inv(m) && pr.stage.Finalizing? && FirstComplete(passes, n) && PassOk(pr, passes[n])
    ensures AfterAll(m, pr, passes) == After(m, pr, Whole(passes[n])).(signals := AfterAll(m, pr, passes).signals)
  {
    PassesCombine(m, pr, passes, n);
    CombinedParts(m, pr, Heard(passes, 1), Heard(passes, 2), passes[n]);
    CombinedParts(m, pr, true, true, passes[n]);
  }

  /** The passes are as good as one undisturbed pass, reports included, exactly when the first
      pass to reach each batch script heard its reply or the script had no report to ask for. */
  lemma LostRepliesHarmless(m: State, pr: Proc, passes: seq<Pass>, n: nat)
    requires Inv(m) && pr.stage.Finalizing? && FirstComplete(passes, n) && PassOk(pr, passes[n])
    ensures AfterAll(m, pr, passes) == After(m, pr, Whole(passes[n])) <==>
      && (Heard(passes, 1) || !RecordAsks(m, pr))
      && (Heard(passes, 2) || !RetireAsks(Record(m, pr).0, pr))
  {
    PassesCombine(m, pr, passes, n);
    CombinedParts(m, pr, Heard(passes, 1), Heard(passes, 2), passes[n]);
    CombinedParts(m, pr, true, true, passes[n]);
    RecordNotes(m, pr);
    RecordAsksExactly(m, pr);
    RetireAsksExactly(Record(m, pr).0, pr);
    var sent1, sent2 := Record(m, pr).1, Retire(Record(m, pr).0, pr).1;
    LossShows(m.signals, sent1, sent2, Heard(passes, 1), Heard(passes, 2));
  }

  /** A pass after a complete one changes nothing and reports nothing. */
  lemma CompletePassIsFinal(m: State, pr: Proc, pass: Pass, pass': Pass)
    requires Inv(m) && pr.stage.Finalizing? && pass.k >= 3 && PassOk(pr, pass)
    ensures After(After(m, pr, pass), pr, pass') == After(m, pr, pass)
  {
    var a := Recorded(m, pr, Replied(pass, 1));
    var b := Retired(a, pr, Replied(pass, 2));
    RecordNotes(m, pr);
    RetireCrosses(a, pr);
    TerminatedIsGone(b, pr, pass);
    var n := Terminated(b, pr, pass);
    NotedStays(n, pr);
    CrossedStays(n, pr);
    GoneStays(n, pr, pass');
  }

  /** A pass that was cut short leaves no trace but in the reports, once a later pass completes. */
  lemma CutPassLeavesNoTrace(m: State, pr: Proc, pass: Pass, pass': Pass)
    requires Inv(m) && pr.stage.Finalizing? && pass.k < 3 && pass'.k >= 3 && PassOk(pr, pass')
    ensures var n := After(After(m, pr, pass), pr, pass'); n == After(m, pr, Whole(pass')).(signals := n.signals)
  {
    var passes := [pass, pass'];
    assert passes[1..] == [pass'] && [pass'][1..] == [];
    LostRepliesLeaveNoTrace(m, pr, passes, 1);
    assert AfterAll(m, pr, passes) == AfterAll(After(m, pr, pass), pr, [pass']);
    assert AfterAll(After(m, pr, pass), pr, [pass']) == After(After(m, pr, pass), pr, pass');
  }

  lemma LossShows(base: multiset<Signal>, sent1: multiset<Signal>, sent2: multiset<Signal>, heard1: bool, heard2: bool)
    ensures base + IfHeard(heard1, sent1) + IfHeard(heard2, sent2) == base + sent1 + sent2
      <==> (heard1 || sent1 == multiset{}) && (heard2 || sent2 == multiset{})
  {
    assert |base + IfHeard(heard1, sent1) + IfHeard(heard2, sent2)|
      == |base| + (if heard1 then |sent1| else 0) + (if heard2 then |sent2| else 0);
    assert |base + sent1 + sent2| == |base| + |sent1| + |sent2|;
    if (heard1 || sent1 == multiset{}) && (heard2 || sent2 == multiset{}) {
      assert IfHeard(heard1, sent1) == sent1 && IfHeard(heard2, sent2) == sent2;
    }
  }

  /** A repeated batch script never asks for a report, be it a member's or a callback's. */
  lemma RepeatNeverSignals(m: State, pr: Proc)
    requires F.AllInv(m.forest) && pr.stage.Finalizing?
    ensures Record(Record(m, pr).0, pr).1 == multiset{}
    ensures Retire(Retire(Record(m, pr).0, pr).0, pr).1 == multiset{}
  {
    RecordNotes(m, pr);
    NotedStays(Record(m, pr).0, pr);
    RetireCrosses(Record(m, pr).0, pr);
    CrossedStays(Retire(Record(m, pr).0, pr).0, pr);
  }

  /** Marking again after the reply was lost, or after the job moved on, finds the same answer. */
  lemma MarkAgain(m: State, pr: Proc)
    requires Inv(m) && pr.stage.Deciding? && pr.raw.fin.None?
    ensures var d := D.Mark(m.d, pr.w, pr.raw, pr.stage.fin);
      && D.Mark(d, pr.w, pr.raw, pr.stage.fin) == d
      && D.MarkCode(d, pr.w, pr.raw, pr.stage.fin) == D.MarkCode(m.d, pr.w, pr.raw, pr.stage.fin)
  {
    if D.MarkCode(m.d, pr.w, pr.raw, pr.stage.fin) != 0 {
      D.MarkWins(m.d, pr.w, pr.raw, pr.stage.fin);
    }
  }

  // ---------------------------------------------------------------------
  // Repeats at any later time, whatever others do in between

  /** The goroutine's job is known, and so is everything its scripts have done so far. */
  ghost predicate Lasts(m: State, n: State, pr: Proc)
    requires pr.stage.Finalizing?
  {
    && (Noted(m.forest, pr) ==> Noted(n.forest, pr))
    && (Crossed(m.forest, pr) ==> Crossed(n.forest, pr))
    && (Ended(m.d, pr.raw) ==> Ended(n.d, pr.raw))
  }

  lemma EffectsLast(m: State, step: Step, pr: Proc)
    requires Inv(m) && Enabled(m, step) && pr.stage.Finalizing? && Born(m, pr.raw.jid)
    ensures Lasts(m, Next(m, step), pr) && Born(Next(m, step), pr.raw.jid)
  {
    StepLasts(m, step, pr.raw.jid);
    StepKeepsInv(m, step);
    ForestEffectsLast(m.forest, Next(m, step).forest, pr);
    if Ended(m.d, pr.raw) {
      EndedStays(m, step, pr.raw);
    }
  }

  lemma ForestEffectsLast(f: F.Forest, g: F.Forest, pr: Proc)
    requires pr.stage.Finalizing? && F.AllInv(f) && F.AllInv(g) && Lasting(f, g, pr.raw.jid)
    ensures Noted(f, pr) ==> Noted(g, pr)
    ensures Crossed(f, pr) ==> Crossed(g, pr)
  {
  }

  lemma {:induction false} EffectsLastRun(m: State, steps: seq<Step>, pr: Proc)
    requires Inv(m) && Possible(m, steps) && pr.stage.Finalizing? && Born(m, pr.raw.jid)
    ensures Lasts(m, Run(m, steps), pr)
    decreases |steps|
  {
    if steps != [] {
      EffectsLast(m, steps[0], pr);
      StepKeepsInv(m, steps[0]);
      EffectsLastRun(Next(m, steps[0]), steps[1..], pr);
    }
  }

  /** Once the batch script for a member has run, its repeat changes nothing in any later state. */
  lemma RecordOnceForAll(m: State, g: nat, replied: bool, steps: seq<Step>)
    requires Inv(m) && At(m, g, 0) && Possible(Next(m, RecordResult(g, replied)), steps)
    ensures var n := Run(Next(m, RecordResult(g, replied)), steps); Record(n, m.procs[g]) == (n, multiset{})
  {
    var pr, n := m.procs[g], Next(m, RecordResult(g, replied));
    assert ProcOk(m, pr);
    RecordIsStep(m, g, replied);
    RecordNotes(m, pr);
    StepKeepsInv(m, RecordResult(g, replied));
    StepLasts(m, RecordResult(g, replied), pr.raw.jid);
    assert n.forest == Record(m, pr).0.forest;
    EffectsLastRun(n, steps, pr);
    NotedStays(Run(n, steps), pr);
  }

  lemma RetireAloneCrosses(m: State, pr: Proc)
    requires pr.stage.Finalizing?
    ensures Crossed(Retire(m, pr).0.forest, pr)
  {
  }

  /** Once the batch script for a callback has run, its repeat changes nothing in any later state. */
  lemma RetireOnceForAll(m: State, g: nat, replied: bool, steps: seq<Step>)
    requires Inv(m) && Enabled(m, RecordCallback(g, replied)) && Possible(Next(m, RecordCallback(g, replied)), steps)
    ensures var n := Run(Next(m, RecordCallback(g, replied)), steps); Retire(n, m.procs[g]) == (n, multiset{})
  {
    var pr, n := m.procs[g], Next(m, RecordCallback(g, replied));
    assert ProcOk(m, pr);
    RetireIsStep(m, g, replied);
    RetireAloneCrosses(m, pr);
    StepKeepsInv(m, RecordCallback(g, replied));
    StepLasts(m, RecordCallback(g, replied), pr.raw.jid);
    assert n.forest == Retire(m, pr).0.forest;
    EffectsLastRun(n, steps, pr);
    CrossedStays(Run(n, steps), pr);
  }

  lemma TerminalEnds(m: State, g: nat, pass: Pass, replied: bool)
    requires Enabled(m, Terminate(g, pass.next, pass.now, replied))
    requires D.At(m.d, D.InFlight(m.procs[g].w), m.procs[g].raw)
    ensures Ended(Next(m, Terminate(g, pass.next, pass.now, replied)).d, m.procs[g].raw)
  {
  }

  /** Once a terminal script has found its job, its repeat changes nothing in any later state. */
  lemma TerminateOnceForAll(m: State, g: nat, pass: Pass, replied: bool, steps: seq<Step>, pass': Pass)
    requires Inv(m) && Enabled(m, Terminate(g, pass.next, pass.now, replied))
    requires D.At(m.d, D.InFlight(m.procs[g].w), m.procs[g].raw)
    requires Possible(Next(m, Terminate(g, pass.next, pass.now, replied)), steps)
    ensures var n := Run(Next(m, Terminate(g, pass.next, pass.now, replied)), steps);
      Terminated(n, m.procs[g], pass') == n
  {
    var pr, step := m.procs[g], Terminate(g, pass.next, pass.now, replied);
    assert ProcOk(m, pr);
    TerminalEnds(m, g, pass, replied);
    StepKeepsInv(m, step);
    StepLasts(m, step, pr.raw.jid);
    EffectsLastRun(Next(m, step), steps, pr);
    GoneStays(Run(Next(m, step), steps), pr, pass');
  }

  /** The outcome is the job's decided one, or this delivery has ended. */
  ghost predicate Spoken(m: State, raw: D.Payload, f: D.Finalization) {
    Decided(m, D.Marked(raw, f)) || Ended(m.d, raw)
  }

  lemma SpokenStep(m: State, step: Step, raw: D.Payload, f: D.Finalization)
    requires Inv(m) && Enabled(m, step) && Born(m, raw.jid) && Spoken(m, raw, f)
    ensures Spoken(Next(m, step), raw, f)
  {
    if Ended(m.d, raw) {
      EndedStays(m, step, raw);
    } else {
      DecidedStep(m, step, D.Marked(raw, f));
    }
  }

  lemma {:induction false} SpokenRun(m: State, steps: seq<Step>, raw: D.Payload, f: D.Finalization)
    requires Inv(m) && Possible(m, steps) && Born(m, raw.jid) && Spoken(m, raw, f)
    ensures Spoken(Run(m, steps), raw, f)
    decreases |steps|
  {
    if steps != [] {
      SpokenStep(m, steps[0], raw, f);
      StepLasts(m, steps[0], raw.jid);
      StepKeepsInv(m, steps[0]);
      SpokenRun(Next(m, steps[0]), steps[1..], raw, f);
    }
  }

  lemma SpokenMarksNothing(m: State, w: WorkerId, raw: D.Payload, f: D.Finalization)
    requires raw.fin.None? && Spoken(m, raw, f)
    ensures D.Mark(m.d, w, raw, f) == m.d
  {
    if D.MarkCode(m.d, w, raw, f) != 0 {
      assert m.d.copies[raw.jid := m.d.copies[raw.jid]] == m.d.copies;
      assert m.d.trust[raw.jid := m.d.trust[raw.jid]] == m.d.trust;
    }
  }

  /** Once a mark has been set, its repeat changes nothing in any later state. */
  lemma MarkOnceForAll(m: State, g: nat, replied: bool, steps: seq<Step>)
    requires Inv(m) && Enabled(m, MarkOutcome(g, replied)) && Possible(Next(m, MarkOutcome(g, replied)), steps)
    requires var pr := m.procs[g]; D.MarkCode(m.d, pr.w, pr.raw, pr.stage.fin) != 0
    ensures var pr, n := m.procs[g], Run(Next(m, MarkOutcome(g, replied)), steps);
      D.Mark(n.d, pr.w, pr.raw, pr.stage.fin) == n.d
  {
    var pr, step := m.procs[g], MarkOutcome(g, replied);
    assert ProcOk(m, pr);
    MarkDecides(m, step);
    StepKeepsInv(m, step);
    StepLasts(m, step, pr.raw.jid);
    SpokenRun(Next(m, step), steps, pr.raw, pr.stage.fin);
    SpokenMarksNothing(Run(Next(m, step), steps), pr.w, pr.raw, pr.stage.fin);
  }
}
