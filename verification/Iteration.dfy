/** The built-in iterators and their cursors. */
module Iterators {

  /** An iterator over a slice; the cursor is the offset of the next item. */
  class SliceIterator<T> {
    const items: seq<T>
    var index: int

    ghost predicate Valid()
      reads this
    {
      -1 <= index
    }

    /** What is still to come. */
    ghost function Remaining(): seq<T>
      requires Valid()
      reads this
    {
      if index + 1 <= |items| then items[index + 1..] else []
    }

    constructor (items: seq<T>, offset: int)
      ensures Valid() && this.items == items && Cursor() == if offset < 0 then 0 else offset
      ensures Remaining() == if offset <= 0 then items else if offset <= |items| then items[offset..] else []
    {
      this.items := items;
      index := (if offset < 0 then 0 else offset) - 1;
    }

    method Next() returns (more: bool)
      requires Valid()
      modifies this
      ensures Valid() && index == old(index) + 1
      ensures more <==> old(Remaining()) != []
      ensures more ==> index < |items| && old(Remaining()) == [Item()] + Remaining()
    {
      index := index + 1;
      more := index < |items|;
    }

    function Item(): T
      requires 0 <= index < |items|
      reads this
    {
      items[index]
    }

    /** A new iterator at this offset has the same items to come. */
    function Cursor(): (offset: int)
      requires Valid()
      reads this
      ensures offset <= |items| ==> 0 <= offset && Remaining() == items[offset..]
    {
      index + 1
    }
  }

  predicate Short(value: int, end: int, step: int) {
    if step > 0 then value < end else value > end
  }

  /** The numbers from `from` towards `end`, which is not included, in steps of `step`. */
  ghost function RangeItems(from: int, end: int, step: int): seq<int>
    requires step != 0
    decreases if step > 0 then end - from else from - end
  {
    if Short(from, end, step) then [from] + RangeItems(from + step, end, step) else []
  }

  /** After i items of a range, the rest is the range from the i-th value on. */
  lemma {:induction false} RangeFrom(from: int, end: int, step: int, i: nat)
    requires step != 0 && i <= |RangeItems(from, end, step)|
    ensures RangeItems(from + i * step, end, step) == RangeItems(from, end, step)[i..]
    ensures i < |RangeItems(from, end, step)| ==> RangeItems(from, end, step)[i] == from + i * step
    decreases i
  {
    if i > 0 {
      RangeFrom(from + step, end, step, i - 1);
      assert from + step + (i - 1) * step == from + i * step;
    }
  }

  /** A number is in the range exactly when whole steps lead to it without reaching the end. */
  lemma {:induction false} RangeHolds(from: int, end: int, step: int, i: nat)
    requires step != 0
    ensures i < |RangeItems(from, end, step)| <==> Short(from + i * step, end, step)
    decreases i
  {
    if RangeItems(from, end, step) == [] {
      assert step > 0 ==> i * step >= 0;
      assert step < 0 ==> i * step <= 0;
    } else if i > 0 {
      RangeHolds(from + step, end, step, i - 1);
      assert from + step + (i - 1) * step == from + i * step;
    }
  }

  /** A step of zero counts as one. */
  function Stride(step: int): int {
    if step == 0 then 1 else step
  }

  /** An iterator over a range; the cursor is the next value. */
  class RangeIterator {
    const end: int
    const step: int
    var current: int

    ghost predicate Valid()
      reads this
    {
      step != 0
    }

    ghost function Remaining(): seq<int>
      requires Valid()
      reads this
    {
      RangeItems(current + step, end, step)
    }

    constructor (start: int, end: int, step: int)
      ensures Valid() && this.end == end && this.step == Stride(step)
      ensures Remaining() == RangeItems(start, end, Stride(step)) && Cursor() == start
    {
      this.end := end;
      this.step := Stride(step);
      current := start - Stride(step);
    }

    method Next() returns (more: bool)
      requires Valid()
      modifies this
      ensures Valid() && current == old(current) + step
      ensures more <==> old(Remaining()) != []
      ensures more ==> old(Remaining()) == [Item()] + Remaining()
    {
      current := current + step;
      if step > 0 {
        return current < end;
      }
      return current > end;
    }

    function Item(): int
      reads this
    {
      current
    }

    /** A new iterator that starts at this value has the same items to come. */
    function Cursor(): (next: int)
      requires Valid()
      reads this
      ensures Remaining() == RangeItems(next, end, step)
    {
      current + step
    }
  }
}

/** The loop that works through an iterable job, over any number of runs. */
module Iteration {
  import opened Ids
  import opened Iterators

  /** What the handler says of an item. */
  datatype Outcome = Handled | Skipped | Stop | Failed

  /** A write of the state: done, done but answered with an error, or not done. */
  datatype Save = Ok | ReplyLost | NotDone

  /** What one pass of the loop meets. */
  datatype Pass = Pass(
    cancelled: bool, shutdown: bool, outcome: Outcome, deadline: bool,
    tick: bool, stopping: bool, save: Save, stoppedMeanwhile: bool, resave: Save)

  datatype Ending = Ending(cancelled: bool, save: Save, deleted: bool)

  /** What a run meets; it dies when its passes run out, or at the end when `ending` is None. */
  datatype Run = Run(passes: seq<Pass>, ending: Option<Ending>)

  datatype End = Completed | CompletedEarly | Interrupted | Cancelled | ItemError | SaveError | Died

  /** Items passed by the end of the run, the stored cursor, and how the run ended. */
  datatype Result = Result(reached: nat, stored: Option<nat>, end: End)

  function Stored(stored: Option<nat>, pos: nat, save: Save): Option<nat> {
    if save == NotDone then stored else Some(pos)
  }

  function SaveAnd(pos: nat, stored: Option<nat>, save: Save, end: End): Result {
    Result(pos, Stored(stored, pos, save), if save == Ok then end else SaveError)
  }

  function Finish(pos: nat, stored: Option<nat>, ending: Option<Ending>, end: End): Result {
    match ending
    case None => Result(pos, stored, Died)
    case Some(e) =>
      if e.cancelled then SaveAnd(pos, stored, e.save, Cancelled)
      else if e.save != Ok then SaveAnd(pos, stored, e.save, SaveError)
      else Result(pos, if e.deleted then None else Some(pos), end)
  }

  /** After an item has been passed: why the run stops here, if it does, or the cursor stored by then. */
  function AfterItem(pos: nat, count: nat, stored: Option<nat>, budget: int, p: Pass): (Option<Result>, Option<nat>) {
    if budget > 0 && count >= budget then (Some(SaveAnd(pos, stored, p.save, Interrupted)), stored)
    else if p.deadline then (Some(SaveAnd(pos, stored, p.save, Interrupted)), stored)
    else if !p.tick then (None, stored)
    else if p.stopping then (Some(SaveAnd(pos, stored, p.save, Interrupted)), stored)
    else if p.save == Ok then (None, Some(pos))
    else if p.stoppedMeanwhile then
      (Some(SaveAnd(pos, Stored(stored, pos, p.save), p.resave, Interrupted)), stored)
    else (Some(Result(pos, Stored(stored, pos, p.save), SaveError)), stored)
  }

  /** One pass at the item at `pos`: how the run ends there, if it does, or the cursor stored by then. */
  function OnePass(pos: nat, count: nat, stored: Option<nat>, budget: int, p: Pass, ending: Option<Ending>)
    : (Option<Result>, Option<nat>)
  {
    if p.cancelled then (Some(SaveAnd(pos, stored, p.save, Cancelled)), stored)
    else if p.shutdown then (Some(SaveAnd(pos, stored, p.save, Interrupted)), stored)
    else if p.outcome == Stop then (Some(Finish(pos, stored, ending, CompletedEarly)), stored)
    else if p.outcome == Failed then (Some(SaveAnd(pos, stored, p.save, ItemError)), stored)
    else AfterItem(pos + 1, count + 1, stored, budget, p)
  }

  /** The loop, from the item at `pos` of `n` on, `count` items into the run. */
  function Loop(
    n: nat, budget: int, pos: nat, count: nat, stored: Option<nat>, passes: seq<Pass>, ending: Option<Ending>)
    : Result
    decreases |passes|
  {
    if pos >= n then Finish(pos, stored, ending, Completed)
    else if passes == [] then Result(pos, stored, Died)
    else
      var (stop, stored') := OnePass(pos, count, stored, budget, passes[0], ending);
      if stop.Some? then stop.value
      else Loop(n, budget, pos + 1, count + 1, stored', passes[1..], ending)
  }

  function Start(stored: Option<nat>): nat {
    if stored.None? then 0 else stored.value
  }

  function Execute(n: nat, budget: int, stored: Option<nat>, run: Run): Result {
    Loop(n, budget, Start(stored), 0, stored, run.passes, run.ending)
  }

  /** The items from one position up to another. */
  function Between<T>(items: seq<T>, from: nat, to: nat): seq<T> {
    if from <= to <= |items| then items[from..to] else []
  }

  lemma BetweenGrows<T>(items: seq<T>, from: nat, pos: nat)
    requires from <= pos < |items|
    ensures Between(items, from, pos + 1) == Between(items, from, pos) + [items[pos]]
  {
  }

  lemma BetweenJoins<T>(items: seq<T>, from: nat, mid: nat, to: nat)
    requires from <= mid <= to <= |items|
    ensures Between(items, from, mid) + Between(items, mid, to) == Between(items, from, to)
  {
  }

  /** What the loop needs to know of advancing a slice iterator. */
  method Advance<T>(iter: SliceIterator<T>) returns (more: bool, cursor: int)
    requires iter.Valid()
    modifies iter
    ensures iter.Valid() && iter.index == old(iter.index) + 1 && (more <==> iter.index < |iter.items|)
    ensures cursor == iter.index + 1
  {
    more := iter.Next();
    cursor := iter.Cursor();
  }

  method Open<T>(items: seq<T>, offset: nat) returns (iter: SliceIterator<T>)
    ensures fresh(iter) && iter.Valid() && iter.items == items && iter.index == offset - 1
  {
    iter := new SliceIterator(items, offset);
  }

  /** What the loop needs to know of advancing a range iterator. */
  method AdvanceRange(iter: RangeIterator) returns (more: bool, cursor: int)
    requires iter.Valid()
    modifies iter
    ensures iter.Valid() && iter.current == old(iter.current) + iter.step && cursor == iter.current + iter.step
    ensures more <==> Short(iter.current, iter.end, iter.step)
  {
    more := iter.Next();
    cursor := iter.Cursor();
  }

  /**
    Where the state of a job lies in Redis: a cursor as the job's iterator gave it, the offset of
    an item or the next value of a range.  `position` counts the items before the cursor, and
    `cursorAt` says which cursor comes after how many items.
   */
  class Checkpoint {
    ghost const cursorAt: nat -> int
    var cursor: Option<int>
    ghost var position: Option<nat>

    constructor (ghost cursorAt: nat -> int)
      ensures Valid() && this.cursorAt == cursorAt && cursor == None
    {
      this.cursorAt := cursorAt;
      cursor, position := None, None;
    }

    ghost predicate Valid()
      reads this
    {
      (cursor.Some? <==> position.Some?) && (cursor.Some? ==> cursor.value == cursorAt(position.value))
    }

    method Save(at: int, ghost pos: nat, save: Save) returns (ok: bool)
      requires Valid() && at == cursorAt(pos)
      modifies this
      ensures Valid() && position == Stored(old(position), pos, save) && ok == (save == Ok)
    {
      if save != NotDone {
        cursor, position := Some(at), Some(pos);
      }
      ok := save == Ok;
    }

    /** Stores the state and reports why the run ended. */
    method SaveAndEnd(at: int, ghost pos: nat, save: Save, end: End) returns (e: End)
      requires Valid() && at == cursorAt(pos)
      modifies this
      ensures Valid() && Result(pos, position, e) == SaveAnd(pos, old(position), save, end)
    {
      var ok := Save(at, pos, save);
      e := if ok then end else SaveError;
    }

    method FinishRun(at: int, ghost pos: nat, ending: Option<Ending>, end: End) returns (e: End)
      requires Valid() && at == cursorAt(pos)
      modifies this
      ensures Valid() && Result(pos, position, e) == Finish(pos, old(position), ending, end)
    {
      if ending.None? {
        return Died;
      }
      if ending.value.cancelled {
        e := SaveAndEnd(at, pos, ending.value.save, Cancelled);
        return;
      }
      var ok := Save(at, pos, ending.value.save);
      if !ok {
        return SaveError;
      }
      if ending.value.deleted {
        cursor, position := None, None;
      }
      e := end;
    }

    method CheckBudgets(at: int, ghost pos: nat, count: nat, budget: int, p: Pass) returns (stop: Option<End>)
      requires Valid() && at == cursorAt(pos)
      modifies this
      ensures Valid()
      ensures var (r, stored) := AfterItem(pos, count, old(position), budget, p);
              && (stop.Some? <==> r.Some?)
              && (stop.Some? ==> r.value == Result(pos, position, stop.value))
              && (stop.None? ==> position == stored)
    {
      if (budget > 0 && count >= budget) || p.deadline {
        var e := SaveAndEnd(at, pos, p.save, Interrupted);
        return Some(e);
      }
      if p.tick {
        if p.stopping {
          var e := SaveAndEnd(at, pos, p.save, Interrupted);
          return Some(e);
        }
        var ok := Save(at, pos, p.save);
        if !ok {
          if p.stoppedMeanwhile {
            var e := SaveAndEnd(at, pos, p.resave, Interrupted);
            return Some(e);
          }
          return Some(SaveError);
        }
      }
      return None;
    }

    /** One pass of the loop over an item, with the cursors before and after it; `passed` tells
        whether the pass got past the item. */
    method WorkOn(at: int, after: int, ghost pos: nat, count: nat, budget: int, p: Pass, ending: Option<Ending>)
      returns (stop: Option<End>, passed: bool)
      requires Valid() && at == cursorAt(pos) && after == cursorAt(pos + 1)
      modifies this
      ensures Valid()
      ensures var (r, stored) := OnePass(pos, count, old(position), budget, p, ending);
              && (stop.Some? <==> r.Some?)
              && (stop.Some? ==> r.value == Result(if passed then pos + 1 else pos, position, stop.value))
              && (stop.None? ==> passed && position == stored)
    {
      passed := false;
      var e: End;
      if p.cancelled {
        e := SaveAndEnd(at, pos, p.save, Cancelled);
        return Some(e), false;
      }
      if p.shutdown {
        e := SaveAndEnd(at, pos, p.save, Interrupted);
        return Some(e), false;
      }
      if p.outcome == Stop {
        e := FinishRun(at, pos, ending, CompletedEarly);
        return Some(e), false;
      }
      if p.outcome == Failed {
        e := SaveAndEnd(at, pos, p.save, ItemError);
        return Some(e), false;
      }
      stop := CheckBudgets(after, pos + 1, count + 1, budget, p);
      passed := true;
    }

    /** A pass over `item`, added to the items handled since `from` if the pass gets past it. */
    method Visit<T>(item: T, handled: seq<T>, ghost items: seq<T>, ghost from: nat,
                    at: int, after: int, ghost pos: nat, count: nat, budget: int, p: Pass, ending: Option<Ending>)
      returns (stop: Option<End>, list: seq<T>)
      requires Valid() && at == cursorAt(pos) && after == cursorAt(pos + 1)
      requires from <= pos < |items| && items[pos] == item && handled == Between(items, from, pos)
      modifies this
      ensures Valid()
      ensures var (r, stored) := OnePass(pos, count, old(position), budget, p, ending);
              && (stop.Some? <==> r.Some?)
              && (stop.Some? ==> r.value.stored == position && r.value.end == stop.value)
              && (stop.None? ==> position == stored)
              && list == Between(items, from, if r.Some? then r.value.reached else pos + 1)
    {
      var passed;
      stop, passed := WorkOn(at, after, pos, count, budget, p, ending);
      BetweenGrows(items, from, pos);
      list := if passed then handled + [item] else handled;
    }

    /** One run of a job over a slice; `handled` lists the items that it passed, in order. */
    method Process<T>(items: seq<T>, budget: int, run: Run) returns (end: End, handled: seq<T>)
      requires Valid() && forall i: nat :: cursorAt(i) == i
      modifies this
      ensures Valid()
      ensures var r := Execute(|items|, budget, old(position), run);
              && end == r.end && position == r.stored
              && handled == Between(items, Start(old(position)), r.reached)
    {
      ghost var r := Execute(|items|, budget, position, run);
      var from := if cursor.None? then 0 else cursor.value;
      assert from == Start(position);
      var iter := Open(items, from);
      handled := [];
      var passes, at, count := run.passes, from, 0;
      var more, after := Advance(iter);
      while more
        invariant Valid() && iter.Valid() && iter.items == items && iter.index == at && after == at + 1 && fresh(iter)
        invariant from <= at && (more <==> at < |items|) && handled == Between(items, from, at)
        invariant Loop(|items|, budget, at, count, position, passes, run.ending) == r
        decreases |passes|
      {
        if passes == [] {
          return Died, handled;
        }
        var stop;
        stop, handled := Visit(
          iter.Item(), handled, items, from, at, after, at, count, budget, passes[0], run.ending);
        if stop.Some? {
          return stop.value, handled;
        }
        at := after;
        count := count + 1;
        passes := passes[1..];
        more, after := Advance(iter);
      }
      end := FinishRun(at, at, run.ending, Completed);
    }

    /** One run of a job over a range, whose cursor is the next value. */
    method ProcessRange(start: int, stop: int, step: int, budget: int, run: Run) returns (end: End, handled: seq<int>)
      requires Valid() && forall i: nat :: cursorAt(i) == start + i * Stride(step)
      modifies this
      ensures Valid()
      ensures var items := RangeItems(start, stop, Stride(step));
              var r := Execute(|items|, budget, old(position), run);
              && end == r.end && position == r.stored
              && handled == Between(items, Start(old(position)), r.reached)
    {
      ghost var items := RangeItems(start, stop, Stride(step));
      ghost var r := Execute(|items|, budget, position, run);
      ghost var from: nat, pos: nat := Start(position), Start(position);
      var at := if cursor.None? then start else cursor.value;
      assert at == cursorAt(pos);
      var iter := new RangeIterator(at, stop, step);
      handled := [];
      var passes, count := run.passes, 0;
      RangeHolds(start, stop, Stride(step), pos);
      var more, after := AdvanceRange(iter);
      while more
        invariant Valid() && iter.Valid() && iter.end == stop && iter.step == Stride(step) && fresh(iter)
        invariant iter.current == at == cursorAt(pos) && after == at + Stride(step)
        invariant from <= pos && (more <==> pos < |items|) && handled == Between(items, from, pos)
        invariant Loop(|items|, budget, pos, count, position, passes, run.ending) == r
        decreases |passes|
      {
        if passes == [] {
          return Died, handled;
        }
        NextInRange(start, stop, Stride(step), pos, at);
        var ended;
        ended, handled := Visit(at, handled, items, from, at, after, pos, count, budget, passes[0], run.ending);
        if ended.Some? {
          return ended.value, handled;
        }
        at := after;
        pos := pos + 1;
        count := count + 1;
        passes := passes[1..];
        more, after := AdvanceRange(iter);
      }
      end := FinishRun(at, pos, run.ending, Completed);
    }
  }

  /** Where a run over a range stands after i values, and after the next. */
  lemma NextInRange(start: int, end: int, step: int, i: nat, at: int)
    requires step != 0 && at == start + i * step && i < |RangeItems(start, end, step)|
    ensures at + step == start + (i + 1) * step && RangeItems(start, end, step)[i] == at
    ensures Short(at + step, end, step) <==> i + 1 < |RangeItems(start, end, step)|
  {
    RangeFrom(start, end, step, i);
    RangeHolds(start, end, step, i + 1);
  }

  // What series of runs achieve

  /** A run only moves forward, stores no cursor beyond what it passed, and completes at the end only. */
  lemma {:induction false} LoopMoves(
    n: nat, budget: int, pos: nat, count: nat, stored: Option<nat>, passes: seq<Pass>, ending: Option<Ending>)
    requires pos <= n && Start(stored) <= pos
    ensures var r := Loop(n, budget, pos, count, stored, passes, ending);
            pos <= r.reached <= n && Start(r.stored) <= r.reached && (r.end == Completed ==> r.reached == n)
    decreases |passes|
  {
    if pos < n && passes != [] {
      var (stop, stored') := OnePass(pos, count, stored, budget, passes[0], ending);
      if stop.None? {
        LoopMoves(n, budget, pos + 1, count + 1, stored', passes[1..], ending);
      }
    }
  }

  /** Ends after which the job is delivered again and its stored cursor is up to date. */
  predicate Resumes(end: End) {
    end == Interrupted || end == ItemError
  }

  lemma {:induction false} ResumesWhereItStopped(
    n: nat, budget: int, pos: nat, count: nat, stored: Option<nat>, passes: seq<Pass>, ending: Option<Ending>)
    requires pos <= n && Resumes(Loop(n, budget, pos, count, stored, passes, ending).end)
    ensures var r := Loop(n, budget, pos, count, stored, passes, ending); r.stored == Some(r.reached)
    decreases |passes|
  {
    if pos < n && passes != [] {
      var (stop, stored') := OnePass(pos, count, stored, budget, passes[0], ending);
      if stop.None? {
        ResumesWhereItStopped(n, budget, pos + 1, count + 1, stored', passes[1..], ending);
      }
    }
  }

  // What ends a run

  /** A run with an item budget passes no more items than that. */
  lemma {:induction false} BudgetIsKept(
    n: nat, budget: int, pos: nat, count: nat, stored: Option<nat>, passes: seq<Pass>, ending: Option<Ending>)
    requires pos <= n && count < budget
    ensures Loop(n, budget, pos, count, stored, passes, ending).reached - pos <= budget - count
    decreases |passes|
  {
    if pos < n && passes != [] {
      var (stop, stored') := OnePass(pos, count, stored, budget, passes[0], ending);
      if stop.None? {
        BudgetIsKept(n, budget, pos + 1, count + 1, stored', passes[1..], ending);
      }
    }
  }

  /** A run passes nothing from the pass on that finds it cancelled or shut down, or whose item fails or stops it. */
  lemma {:induction false} StopsInTime(
    n: nat, budget: int, pos: nat, count: nat, stored: Option<nat>, passes: seq<Pass>, ending: Option<Ending>, i: nat)
    requires pos <= n && i < |passes|
    requires passes[i].cancelled || passes[i].shutdown || passes[i].outcome == Stop || passes[i].outcome == Failed
    ensures Loop(n, budget, pos, count, stored, passes, ending).reached <= pos + i
    decreases |passes|
  {
    if pos < n {
      var (stop, stored') := OnePass(pos, count, stored, budget, passes[0], ending);
      if stop.None? {
        StopsInTime(n, budget, pos + 1, count + 1, stored', passes[1..], ending, i - 1);
      }
    }
  }

  /** Nothing happens in this pass but that its item is handled or skipped, and perhaps the cursor saved. */
  predicate Quiet(p: Pass) {
    !p.cancelled && !p.shutdown && (p.outcome == Handled || p.outcome == Skipped) && !p.deadline
    && (p.tick ==> !p.stopping && p.save == Ok)
  }

  /** The cursor stored after passes of which the last to tick, if any does, has saved its own. */
  function LastSaved(pos: nat, stored: Option<nat>, passes: seq<Pass>): Option<nat>
    decreases |passes|
  {
    if passes == [] then stored
    else if passes[|passes| - 1].tick then Some(pos + |passes|)
    else LastSaved(pos, stored, passes[..|passes| - 1])
  }

  lemma {:induction false} LastSavedFirst(pos: nat, stored: Option<nat>, passes: seq<Pass>)
    requires passes != []
    ensures LastSaved(pos, stored, passes)
      == LastSaved(pos + 1, if passes[0].tick then Some(pos + 1) else stored, passes[1..])
    decreases |passes|
  {
    if |passes| > 1 {
      assert passes[1..][..|passes| - 2] == passes[..|passes| - 1][1..];
      LastSavedFirst(pos, stored, passes[..|passes| - 1]);
    } else {
      assert passes[..|passes| - 1] == [] && passes[1..] == [];
    }
  }

  /** After i quiet passes within the budget a run stands i items further on. */
  lemma {:induction false} QuietPasses(
    n: nat, budget: int, pos: nat, count: nat, stored: Option<nat>, passes: seq<Pass>, ending: Option<Ending>, i: nat)
    requires i <= |passes| && pos + i <= n && (forall j :: 0 <= j < i ==> Quiet(passes[j]))
    requires budget > 0 ==> count + i < budget
    ensures Loop(n, budget, pos, count, stored, passes, ending)
      == Loop(n, budget, pos + i, count + i, LastSaved(pos, stored, passes[..i]), passes[i..], ending)
    decreases i
  {
    if i > 0 {
      var p, rest := passes[0], passes[1..];
      var stored' := if p.tick then Some(pos + 1) else stored;
      assert OnePass(pos, count, stored, budget, p, ending) == (None, stored');
      QuietPasses(n, budget, pos + 1, count + 1, stored', rest, ending, i - 1);
      assert rest[i - 1..] == passes[i..] && rest[..i - 1] == passes[..i][1..];
      LastSavedFirst(pos, stored, passes[..i]);
    } else {
      assert passes[..0] == [] && passes[0..] == passes;
    }
  }

  /** The run passed `at` items, saved its cursor there if the save got through, and reports `end`, or the save's
      error if the save was answered with one. */
  predicate SavesAndEnds(r: Result, at: nat, kept: Option<nat>, save: Save, end: End) {
    && r.reached == at && r.stored == (if save == NotDone then kept else Some(at))
    && r.end == (if save == Ok then end else SaveError)
  }

  /** The run is through at `at` items: it reports `end` and its state is gone, unless it was cancelled meanwhile,
      the last save failed, the state could not be deleted, or the run died first. */
  predicate IsThrough(r: Result, at: nat, kept: Option<nat>, ending: Option<Ending>, end: End) {
    match ending
    case None => r == Result(at, kept, Died)
    case Some(Ending(true, save, _)) => SavesAndEnds(r, at, kept, save, Cancelled)
    case Some(Ending(false, Ok, deleted)) => r == Result(at, if deleted then None else Some(at), end)
    case Some(Ending(false, save, _)) => SavesAndEnds(r, at, kept, save, SaveError)
  }

  predicate GoesOn(p: Pass) {
    !p.cancelled && !p.shutdown && (p.outcome == Handled || p.outcome == Skipped)
  }

  /** The first thing to happen decides how a run ends: what it passed, what it stored, and what it reports. */
  lemma FirstEventDecides(n: nat, budget: int, stored: Option<nat>, run: Run, i: nat)
    requires i < |run.passes| && Start(stored) + i < n && (forall j :: 0 <= j < i ==> Quiet(run.passes[j]))
    requires budget > 0 ==> i < budget
    ensures var at, p := Start(stored) + i, run.passes[i];
      var kept := LastSaved(Start(stored), stored, run.passes[..i]);
      var r := Execute(n, budget, stored, run);
      && (p.cancelled ==> SavesAndEnds(r, at, kept, p.save, Cancelled))
      && (!p.cancelled && p.shutdown ==> SavesAndEnds(r, at, kept, p.save, Interrupted))
      && (!p.cancelled && !p.shutdown && p.outcome == Stop ==> IsThrough(r, at, kept, run.ending, CompletedEarly))
      && (!p.cancelled && !p.shutdown && p.outcome == Failed ==> SavesAndEnds(r, at, kept, p.save, ItemError))
      && (GoesOn(p) && (p.deadline || i + 1 == budget) ==> SavesAndEnds(r, at + 1, kept, p.save, Interrupted))
      && (GoesOn(p) && !p.deadline && i + 1 != budget && p.tick && p.stopping ==>
            SavesAndEnds(r, at + 1, kept, p.save, Interrupted))
      && (GoesOn(p) && !p.deadline && i + 1 != budget && p.tick && !p.stopping && p.save != Ok ==>
            if p.stoppedMeanwhile
            then SavesAndEnds(r, at + 1, if p.save == NotDone then kept else Some(at + 1), p.resave, Interrupted)
            else SavesAndEnds(r, at + 1, kept, p.save, SaveError))
  {
    QuietPasses(n, budget, Start(stored), 0, stored, run.passes, run.ending, i);
    assert run.passes[i..][0] == run.passes[i];
  }

  /** Without any event a run gets through all its items. */
  lemma LastItemDecides(n: nat, budget: int, stored: Option<nat>, run: Run)
    requires Start(stored) <= n <= Start(stored) + |run.passes|
    requires forall j :: 0 <= j < n - Start(stored) ==> Quiet(run.passes[j])
    requires budget > 0 ==> n - Start(stored) < budget
    ensures IsThrough(Execute(n, budget, stored, run), n,
                      LastSaved(Start(stored), stored, run.passes[..n - Start(stored)]), run.ending, Completed)
  {
    QuietPasses(n, budget, Start(stored), 0, stored, run.passes, run.ending, n - Start(stored));
  }

  /** A run that dies after i quiet passes has stored the cursor of the last one that saved it. */
  lemma DeathKeepsLastSave(n: nat, budget: int, stored: Option<nat>, run: Run)
    requires Start(stored) + |run.passes| < n && (forall p :: p in run.passes ==> Quiet(p))
    requires budget > 0 ==> |run.passes| < budget
    ensures Execute(n, budget, stored, run)
      == Result(Start(stored) + |run.passes|, LastSaved(Start(stored), stored, run.passes), Died)
  {
    QuietPasses(n, budget, Start(stored), 0, stored, run.passes, run.ending, |run.passes|);
    assert run.passes[..|run.passes|] == run.passes && run.passes[|run.passes|..] == [];
  }

  /** An undisturbed run gets through its budget, and through all the items if the budget allows. */
  lemma QuietRunIsExact(n: nat, budget: int, stored: Option<nat>, run: Run)
    requires Start(stored) <= n <= Start(stored) + |run.passes|
    requires forall p :: p in run.passes ==> Quiet(p) && p.save == Ok
    requires run.ending == Some(Ending(false, Ok, true))
    ensures Execute(n, budget, stored, run) ==
      if 0 < budget <= n - Start(stored)
      then Result(Start(stored) + budget, Some(Start(stored) + budget), Interrupted)
      else Result(n, None, Completed)
  {
    if 0 < budget <= n - Start(stored) {
      FirstEventDecides(n, budget, stored, run, budget - 1);
    } else {
      LastItemDecides(n, budget, stored, run);
    }
  }

  /** The items that a series of runs passes, in order. */
  ghost function AllHandled<T>(items: seq<T>, budget: int, stored: Option<nat>, runs: seq<Run>): seq<T>
    decreases |runs|
  {
    if runs == [] then []
    else
      var r := Execute(|items|, budget, stored, runs[0]);
      Between(items, Start(stored), r.reached) + AllHandled(items, budget, r.stored, runs[1..])
  }

  /** How the last of a series of runs left things. */
  ghost function Last(n: nat, budget: int, stored: Option<nat>, runs: seq<Run>): Result
    requires runs != []
    decreases |runs|
  {
    var r := Execute(n, budget, stored, runs[0]);
    if |runs| == 1 then r else Last(n, budget, r.stored, runs[1..])
  }

  ghost predicate AllResume(n: nat, budget: int, stored: Option<nat>, runs: seq<Run>)
    decreases |runs|
  {
    |runs| <= 1 ||
    var r := Execute(n, budget, stored, runs[0]);
    Resumes(r.end) && AllResume(n, budget, r.stored, runs[1..])
  }

  /**
    Runs stopped by item budget, runtime budget, shutdown or an item's error, their state
    stored each time, together pass exactly the items from the first cursor on: each item
    once, in order, and all of them when the last run completes.
   */
  lemma {:induction false} InterruptedRunsAreExact<T>(items: seq<T>, budget: int, stored: Option<nat>, runs: seq<Run>)
    requires Start(stored) <= |items| && runs != [] && AllResume(|items|, budget, stored, runs)
    ensures Start(stored) <= Last(|items|, budget, stored, runs).reached <= |items|
    ensures AllHandled(items, budget, stored, runs)
      == Between(items, Start(stored), Last(|items|, budget, stored, runs).reached)
    ensures Last(|items|, budget, stored, runs).end == Completed ==>
      Last(|items|, budget, stored, runs).reached == |items|
    ensures Last(|items|, budget, stored, runs).end == Completed ==>
      AllHandled(items, budget, stored, runs) == items[Start(stored)..]
    decreases |runs|
  {
    var r := Execute(|items|, budget, stored, runs[0]);
    LoopMoves(|items|, budget, Start(stored), 0, stored, runs[0].passes, runs[0].ending);
    if |runs| == 1 {
      assert AllHandled(items, budget, r.stored, runs[1..]) == [];
    } else {
      ResumesWhereItStopped(|items|, budget, Start(stored), 0, stored, runs[0].passes, runs[0].ending);
      InterruptedRunsAreExact(items, budget, r.stored, runs[1..]);
      BetweenJoins(items, Start(stored), r.reached, Last(|items|, budget, stored, runs).reached);
    }
    assert Between(items, Start(stored), |items|) == items[Start(stored)..];
  }

  /** Some run of the series passes position i. */
  ghost predicate Passes(n: nat, budget: int, stored: Option<nat>, runs: seq<Run>, i: nat)
    decreases |runs|
  {
    runs != [] &&
    var r := Execute(n, budget, stored, runs[0]);
    Start(stored) <= i < r.reached || Passes(n, budget, r.stored, runs[1..], i)
  }

  ghost predicate SomeCompletes(n: nat, budget: int, stored: Option<nat>, runs: seq<Run>)
    decreases |runs|
  {
    runs != [] &&
    var r := Execute(n, budget, stored, runs[0]);
    r.end == Completed || SomeCompletes(n, budget, r.stored, runs[1..])
  }

  /** `high` positions were passed before: what comes next leaves no gap above them. */
  lemma {:induction false} NoGap(n: nat, budget: int, stored: Option<nat>, runs: seq<Run>, high: nat, i: nat, j: nat)
    requires Start(stored) <= high <= n && j < i
    ensures Passes(n, budget, stored, runs, i) ==> j < high || Passes(n, budget, stored, runs, j)
    ensures SomeCompletes(n, budget, stored, runs) && j < n ==> j < high || Passes(n, budget, stored, runs, j)
    decreases |runs|
  {
    if runs != [] {
      var r := Execute(n, budget, stored, runs[0]);
      LoopMoves(n, budget, Start(stored), 0, stored, runs[0].passes, runs[0].ending);
      NoGap(n, budget, r.stored, runs[1..], if high < r.reached then r.reached else high, i, j);
    }
  }

  /**
    Whatever happens, runs that die between saves and saves that fail among it, no item is
    skipped: the items before a passed one were passed too, and all are once a run completes.
   */
  lemma NoneSkipped(n: nat, budget: int, runs: seq<Run>, i: nat, j: nat)
    requires j < i
    ensures Passes(n, budget, None, runs, i) ==> Passes(n, budget, None, runs, j)
    ensures SomeCompletes(n, budget, None, runs) && j < n ==> Passes(n, budget, None, runs, j)
  {
    NoGap(n, budget, None, runs, 0, i, j);
  }
}
