/**
 From wherever workers or threads have got to, they can still finish.
 */
module CrewFinish {
  import opened Links
  import opened Script
  import opened Machine
  import opened Net
  import opened Confluence
  import opened Heap
  import opened Race
  import opened Plans
  import opened Parallel
  import opened ParallelOk
  import opened ParallelRuns
  import opened Crew
  import Scheduler

  // ----- Workers on the net -----

  lemma RunOne(sys: System, first: Shared, moves: seq<Move>, s: Shared, m: Move)
    requires Runs(sys, first, moves, s) && Possible(s, m)
    ensures Runs(sys, first, moves + [m], Do(sys, s, m))
  {
    hide Do, Possible, Runs;
    OneMove(sys, s, m);
    RunsConcat(sys, first, moves, s, [m], Do(sys, s, m));
  }

  // If one sequential run finishes, then every interleaving, however it began, can be continued to the end.
  lemma {:induction false} CanFinish(
    sys: System, script: seq<Action>, count: nat, moves: seq<Move>, s: Shared, tasks: seq<Task>, last: Net)
    returns (more: seq<Move>, end: Shared)
    requires GoodSystem(sys) && Runnable(script) && count > 0 && Runs(sys, Begun(script, count), moves, s)
    requires Handles(sys, NetOf(script), tasks, last) && Finished(sys, last)
    ensures Runs(sys, Begun(script, count), moves + more, end) && AtEnd(end)
    decreases 1 + ScriptSize(script) + TotalWeight(sys, NetOf(script), tasks) - |moves|
  {
    hide *;
    RunnableAllowed(script);
    if AtEnd(s) {
      more, end := [], s;
      assert moves + [] == moves;
    } else {
      var m := Progress(sys, script, count, moves, s);
      RunOne(sys, Begun(script, count), moves, s, m);
      RunsEnd(sys, script, count, moves + [m], Do(sys, s, m), tasks, last);
      var rest: seq<Move>;
      rest, end := CanFinish(sys, script, count, moves + [m], Do(sys, s, m), tasks, last);
      more := [m] + rest;
      assert moves + [m] + rest == moves + more;
    }
  }

  // ----- Threads -----

  lemma {:induction false} CrewOne(sys: System, c: Crew, steps: seq<Step>, mid: Crew, step: Step)
    requires CrewRuns(sys, c, steps, mid) && CanStep(mid, step)
    ensures CrewRuns(sys, c, steps + [step], Next(sys, mid, step))
    ensures UsefulSteps(sys, c, steps + [step]) == UsefulSteps(sys, c, steps) + if Useful(mid, step) then 1 else 0
    decreases |steps|
  {
    hide CanStep, Next, Useful;
    if steps == [] {
      assert steps + [step] == [step] && [step][1..] == [];
    } else {
      assert (steps + [step])[1..] == steps[1..] + [step];
      CrewOne(sys, Next(sys, c, steps[0]), steps[1..], mid, step);
    }
  }

  // How far a thread without a task is from taking one, or from leaving.
  function Rank(phase: Scheduler.Phase, own: seq<nat>): nat {
    match phase
    case Checking => if own != [] then 2 else 1
    case Popping => if own != [] then 1 else 2
    case Stealing => 1
    case Robbing => 2
    case _ => 0
  }

  function Ranks(phases: seq<Scheduler.Phase>, deques: seq<seq<nat>>): nat
    requires |phases| == |deques|
  {
    if phases == [] then 0 else Rank(phases[0], deques[0]) + Ranks(phases[1..], deques[1..])
  }

  lemma {:induction false} RanksUpdate(phases: seq<Scheduler.Phase>, deques: seq<seq<nat>>, w: nat,
                                       phase: Scheduler.Phase)
    requires |phases| == |deques| && w < |phases|
    ensures Ranks(phases[w := phase], deques) + Rank(phases[w], deques[w])
         == Ranks(phases, deques) + Rank(phase, deques[w])
    decreases |phases|
  {
    if w == 0 {
      assert phases[w := phase][1..] == phases[1..];
    } else {
      hide Rank;
      assert phases[w := phase][1..] == phases[1..][w - 1 := phase];
      RanksUpdate(phases[1..], deques[1..], w - 1, phase);
    }
  }

  ghost function RankOf(c: Crew): nat {
    if |c.pool.phases| == |c.pool.deques| then Ranks(c.pool.phases, c.pool.deques) else 0
  }

  lemma SameSizes(c: Crew)
    requires Fits(c)
    ensures |c.pool.phases| == |c.pool.deques| == |c.shared.workers| && Scheduler.Ok(c.pool)
  {
    hide Lists, Scheduler.Queued, Scheduler.Running, Scheduler.Uncounted;
  }

  // Whoever has a task does something useful.
  lemma HandlingStep(sys: System, held: set<End>, c: Crew, v: View, w: nat) returns (step: Step)
    requires Fits(c) && Ok(sys, held, c.shared, v) && w < |c.pool.phases| && c.pool.phases[w].Handling?
    ensures CanStep(c, step) && Useful(c, step)
  {
    hide Ok, Fits, Enabled, Publishing, CanTakeFrom;
    step := CanGoOn(sys, held, c, v, w);
    HandlingUseful(c, step);
  }

  lemma HandlingUseful(c: Crew, step: Step)
    requires CanStep(c, step) && HasTask(c, step.worker)
    ensures Useful(c, step)
  {
    hide Enabled, Publishing, CanTakeFrom;
  }

  predicate NobodyHandles(c: Crew) {
    forall w :: 0 <= w < |c.pool.phases| ==> !c.pool.phases[w].Handling?
  }

  // A thread with a task in its own deque goes to take it.
  lemma OwnerStep(sys: System, c: Crew, d: nat) returns (step: Step)
    requires Fits(c) && d < |c.pool.phases| == |c.pool.deques| && c.pool.deques[d] != [] && NobodyHandles(c)
    ensures CanStep(c, step)
    ensures Useful(c, step) || RankOf(Next(sys, c, step)) < RankOf(c)
  {
    hide Lists, Scheduler.Queued, Scheduler.Running, Scheduler.Uncounted, Ranks;
    SameSizes(c);
    assert c.pool.phases[d].Checking? || c.pool.phases[d].Popping?;
    if c.pool.phases[d].Popping? {
      step := Fetch(d);
      MayTake(c, d, d);
    } else {
      step := Look(d);
      if c.pool.counter <= 0 {
        Scheduler.CounterCoversQueue(c.pool);
      }
      RanksUpdate(c.pool.phases, c.pool.deques, d, Scheduler.Popping);
    }
  }

  // With nothing left a thread goes to leave.
  lemma LeavingStep(sys: System, c: Crew, w: nat) returns (step: Step)
    requires Fits(c) && w < |c.pool.phases| == |c.pool.deques| && !c.pool.phases[w].Gone? && NobodyHandles(c)
    requires forall d :: 0 <= d < |c.pool.deques| ==> c.pool.deques[d] == []
    ensures CanStep(c, step)
    ensures RankOf(Next(sys, c, step)) < RankOf(c)
  {
    hide Lists, Scheduler.Queued, Scheduler.Running, Scheduler.Uncounted, Ranks;
    SameSizes(c);
    Scheduler.CounterReadsZero(c.pool);
    match c.pool.phases[w]
    case Popping =>
      step := Fetch(w);
      MayTake(c, w, w);
      RanksUpdate(c.pool.phases, c.pool.deques, w, Scheduler.Stealing);
    case Robbing =>
      step := Steal(w, w);
      MayTake(c, w, w);
      RanksUpdate(c.pool.phases, c.pool.deques, w, Scheduler.Stealing);
    case _ =>
      step := Look(w);
      RanksUpdate(c.pool.phases, c.pool.deques, w, Scheduler.Gone);
  }

  predicate AllLeft(c: Crew) {
    forall w :: 0 <= w < |c.pool.phases| ==> c.pool.phases[w].Gone?
  }

  lemma GoodStep(sys: System, held: set<End>, c: Crew, v: View) returns (step: Step)
    requires Fits(c) && Ok(sys, held, c.shared, v) && !AllLeft(c) && |c.pool.phases| == |c.pool.deques|
    ensures CanStep(c, step)
    ensures Useful(c, step) || RankOf(Next(sys, c, step)) < RankOf(c)
  {
    hide Ok, Fits, CanStep, Next, Useful, Ranks, RankOf;
    if w :| 0 <= w < |c.pool.phases| && c.pool.phases[w].Handling? {
      step := HandlingStep(sys, held, c, v, w);
    } else if d :| 0 <= d < |c.pool.deques| && c.pool.deques[d] != [] {
      step := OwnerStep(sys, c, d);
    } else {
      var w :| 0 <= w < |c.pool.phases| && !c.pool.phases[w].Gone?;
      step := LeavingStep(sys, c, w);
    }
  }

  // If one sequential run finishes, then from wherever the threads have got to they can go on until all have left.
  lemma {:induction false} CrewCanFinish(
    sys: System, script: seq<Action>, count: nat, before: seq<Move>, c: Crew, steps: seq<Step>, mid: Crew,
    tasks: seq<Task>, end: Net)
    returns (more: seq<Step>, last: Crew)
    requires GoodSystem(sys) && Runnable(script) && count > 0 && Runs(sys, Begun(script, count), before, c.shared)
    requires Prepared(c) && CrewRuns(sys, c, steps, mid)
    requires Handles(sys, NetOf(script), tasks, end) && Finished(sys, end)
    ensures CrewRuns(sys, c, steps + more, last) && AllLeft(last)
    decreases 2 * (1 + ScriptSize(script) + TotalWeight(sys, NetOf(script), tasks)) - UsefulSteps(sys, c, steps),
      RankOf(mid)
  {
    hide *;
    RunnableAllowed(script);
    if AllLeft(mid) {
      more, last := [], mid;
      assert steps + [] == steps;
    } else {
      PreparedFits(c);
      var held, v0, ts := ParallelRuns.Reached(sys, script, count, before, c.shared);
      var v, moves := CrewKeeps(sys, held, c, v0, steps, mid);
      SameSizes(mid);
      var step := GoodStep(sys, held, mid, v);
      var next := Next(sys, mid, step);
      CrewOne(sys, c, steps, mid, step);
      var v', moves' := CrewKeeps(sys, held, c, v0, steps + [step], next);
      SameSizes(next);
      CrewWorkEnds(sys, script, count, before, c, steps + [step], next, tasks, end);
      var rest: seq<Step>;
      rest, last := CrewCanFinish(sys, script, count, before, c, steps + [step], next, tasks, end);
      more := [step] + rest;
      assert steps + [step] + rest == steps + more;
    }
  }
}
