/**
 The worker threads: each has its deque and its place in the loops over the shared counter, and handles the tasks it
 takes on the shared net.
 */
module Crew {
  import opened Links
  import opened Script
  import opened Machine
  import opened Net
  import opened Confluence
  import opened Heap
  import opened Race
  import opened Plans
  import opened Parallel
  import opened ParallelOk
  import opened ParallelRuns
  import Scheduler

  // `pool` says where each thread is and what is in the deques, by number; `names` is which task a number stands for.
  datatype Crew = Crew(shared: Shared, pool: Scheduler.Pool, names: seq<Found>)

  datatype Step =
    | Look(worker: nat)                     // reads the counter
    | Fetch(worker: nat)                    // pops its own deque
    | Steal(worker: nat, victim: nat)
    | Work(worker: nat)                     // one memory access in `worker_handle_task`
    | Add(worker: nat)                      // `worker_add_task`: pushes the task it found
    | Count(worker: nat)                    // and counts it
    | Subtract(worker: nat)                  // subtracts the task it has handled

  predicate Publishing(w: Worker) {
    w.Building? && w.pending.Quiet? && w.found != {} && w.open.None?
  }

  function PoolMove(c: Crew, step: Step): Scheduler.Move {
    match step
    case Look(w) => Scheduler.Read(w)
    case Fetch(w) => Scheduler.Pop(w)
    case Steal(w, victim) => Scheduler.Rob(w, victim)
    case Work(w) => Scheduler.Read(w)
    case Add(w) => Scheduler.Push(w, |c.names|)
    case Count(w) => Scheduler.Count(w)
    case Subtract(w) => Scheduler.Finish(w)
  }

  // What thread `w` finds in deque `d`, if anything, it can begin to handle.
  predicate CanTakeFrom(c: Crew, w: nat, d: nat)
    requires d < |c.pool.deques|
  {
    c.pool.deques[d] == []
    || (c.pool.deques[d][0] < |c.names| && CanTake(c.shared, w, c.names[c.pool.deques[d][0]]))
  }

  predicate CanStep(c: Crew, step: Step) {
    var w := step.worker;
    && w < |c.pool.phases| == |c.shared.workers| && |c.pool.deques| == |c.pool.phases|
    && (!step.Work? ==> Scheduler.Possible(c.pool, PoolMove(c, step)))
    && match step
       case Look(_) => true
       case Fetch(_) => CanTakeFrom(c, w, w)
       case Steal(_, victim) => victim < |c.pool.deques| && CanTakeFrom(c, w, victim)
       case Work(_) =>
         && c.pool.phases[w].Handling? && !c.pool.phases[w].pushed
         && Enabled(c.shared, w) && !Publishing(c.shared.workers[w])
       case Add(_) => Publishing(c.shared.workers[w]) && |c.shared.workers[w].found| == 1
       case Count(_) => true
       case Subtract(_) => c.shared.workers[w].Idle?
  }

  function Taken(c: Crew, w: nat, d: nat): Shared
    requires d < |c.pool.deques| && CanTakeFrom(c, w, d)
  {
    if c.pool.deques[d] == [] then c.shared else Take(c.shared, w, c.names[c.pool.deques[d][0]])
  }

  ghost function Next(sys: System, c: Crew, step: Step): Crew
    requires CanStep(c, step)
  {
    var w := step.worker;
    match step
    case Look(_) => c.(pool := Scheduler.Next(c.pool, PoolMove(c, step)))
    case Fetch(_) => c.(pool := Scheduler.Next(c.pool, PoolMove(c, step)), shared := Taken(c, w, w))
    case Steal(_, victim) => c.(pool := Scheduler.Next(c.pool, PoolMove(c, step)), shared := Taken(c, w, victim))
    case Work(_) => c.(shared := Go(sys, c.shared, w))
    case Add(_) =>
      var f :| f in c.shared.workers[w].found;
      Crew(Publish(c.shared, w), Scheduler.Next(c.pool, PoolMove(c, step)), c.names + [f])
    case Count(_) => c.(pool := Scheduler.Next(c.pool, PoolMove(c, step)))
    case Subtract(_) => c.(pool := Scheduler.Next(c.pool, PoolMove(c, step)))
  }

  ghost predicate CrewRuns(sys: System, c: Crew, steps: seq<Step>, last: Crew)
    decreases |steps|
  {
    if steps == [] then c == last
    else CanStep(c, steps[0]) && CrewRuns(sys, Next(sys, c, steps[0]), steps[1..], last)
  }

  // ----- How the deques and the queue agree -----

  // The numbers in the deques stand for the queued tasks, each once.
  ghost predicate Lists(q: multiset<nat>, names: seq<Found>, queue: set<Found>) {
    && (forall i :: i in q ==> i < |names| && q[i] == 1 && names[i] in queue)
    && (forall i, j :: i in q && j in q && i < |names| && j < |names| && names[i] == names[j] ==> i == j)
    && (forall f :: f in queue ==> exists i :: i in q && i < |names| && names[i] == f)
  }

  lemma ListsTake(q: multiset<nat>, q': multiset<nat>, i: nat, names: seq<Found>, queue: set<Found>)
    requires Lists(q, names, queue) && q' + multiset{i} == q
    ensures i < |names| && names[i] in queue && Lists(q', names, queue - {names[i]})
  {
    assert i in q' + multiset{i};
    forall j
      ensures q'[j] == if j == i then 0 else q[j]
    {
      assert (q' + multiset{i})[j] == q[j];
    }
    forall f | f in queue - {names[i]}
      ensures exists j :: j in q' && j < |names| && names[j] == f
    {
      var j :| j in q && j < |names| && names[j] == f;
      assert j in q';
    }
  }

  lemma ListsAdd(q: multiset<nat>, names: seq<Found>, queue: set<Found>, f: Found)
    requires Lists(q, names, queue) && f !in queue
    ensures Lists(q + multiset{|names|}, names + [f], queue + {f})
  {
    var q', names' := q + multiset{|names|}, names + [f];
    assert |names| !in q;
    forall j | j in q'
      ensures j < |names'| && q'[j] == 1 && names'[j] in queue + {f}
    {
      if j != |names| {
        assert j in q && names'[j] == names[j];
      }
    }
    forall g | g in queue + {f}
      ensures exists j :: j in q' && j < |names'| && names'[j] == g
    {
      if g == f {
        assert |names| in q' && names'[|names|] == f;
      } else {
        var j :| j in q && j < |names| && names[j] == g;
        assert j in q' && names'[j] == g;
      }
    }
  }

  // A thread without a task is idle, and a worker has found at most one task.
  ghost predicate WorkersFit(workers: seq<Worker>, phases: seq<Scheduler.Phase>) {
    && |phases| == |workers|
    && (forall w :: 0 <= w < |phases| && !phases[w].Handling? ==> workers[w].Idle?)
    && (forall w :: 0 <= w < |workers| && workers[w].Building? ==> |workers[w].found| <= 1)
  }

  ghost predicate Fits(c: Crew) {
    && Scheduler.Ok(c.pool) && WorkersFit(c.shared.workers, c.pool.phases)
    && Lists(Scheduler.Queued(c.pool.deques), c.names, c.shared.queue)
  }

  // ----- Each step -----

  lemma PoolSame(p: Scheduler.Pool, m: Scheduler.Move)
    requires Scheduler.Possible(p, m) && (m.Read? || m.Count? || m.Finish?)
    ensures Scheduler.Next(p, m).deques == p.deques
  {
  }

  // Taking the front of a deque takes one number out.
  lemma OneLess(deques: seq<seq<nat>>, d: nat)
    requires d < |deques| && deques[d] != []
    ensures Scheduler.Queued(deques[d := deques[d][1..]]) + multiset{deques[d][0]} == Scheduler.Queued(deques)
  {
    hide Scheduler.Queued;
    var t, rest := deques[d][0], deques[d][1..];
    assert deques[d] == [t] + rest;
    Scheduler.QueuedUpdate(deques, d, rest);
    var q, q' := Scheduler.Queued(deques), Scheduler.Queued(deques[d := rest]);
    forall x
      ensures (q' + multiset{t})[x] == q[x]
    {
      assert (q' + multiset(deques[d]))[x] == (q + multiset(rest))[x];
    }
  }

  lemma OneMore(deques: seq<seq<nat>>, d: nat, t: nat)
    requires d < |deques|
    ensures Scheduler.Queued(deques[d := deques[d] + [t]]) == Scheduler.Queued(deques) + multiset{t}
  {
    hide Scheduler.Queued;
    Scheduler.QueuedUpdate(deques, d, deques[d] + [t]);
    var q, q' := Scheduler.Queued(deques), Scheduler.Queued(deques[d := deques[d] + [t]]);
    forall x
      ensures q'[x] == (q + multiset{t})[x]
    {
      assert (q' + multiset(deques[d]))[x] == (q + multiset(deques[d] + [t]))[x];
    }
  }

  lemma TakeFits(c: Crew, w: nat, d: nat, move: Scheduler.Move)
    requires Fits(c) && w < |c.pool.phases| && d < |c.pool.deques| && Scheduler.Possible(c.pool, move)
    requires (move == Scheduler.Pop(w) && d == w) || move == Scheduler.Rob(w, d)
    requires CanTakeFrom(c, w, d)
    ensures Fits(c.(pool := Scheduler.Next(c.pool, move), shared := Taken(c, w, d)))
  {
    hide Scheduler.Ok, Lists, Scheduler.Queued;
    Scheduler.MoveKeeps(c.pool, move);
    if c.pool.deques[d] != [] {
      OneLess(c.pool.deques, d);
      ListsTake(Scheduler.Queued(c.pool.deques), Scheduler.Queued(c.pool.deques[d := c.pool.deques[d][1..]]),
                c.pool.deques[d][0], c.names, c.shared.queue);
    }
  }

  lemma QuietFits(sys: System, c: Crew, step: Step)
    requires Fits(c) && CanStep(c, step) && (step.Look? || step.Count? || step.Subtract?)
    ensures Fits(Next(sys, c, step))
  {
    hide Scheduler.Ok, Lists, Scheduler.Queued;
    Scheduler.MoveKeeps(c.pool, PoolMove(c, step));
    PoolSame(c.pool, PoolMove(c, step));
  }

  // The task a worker has found is not queued yet.
  lemma NotQueued(sys: System, held: set<End>, s: Shared, v: View, t: nat, f: Found)
    requires Ok(sys, held, s, v) && t < |s.workers| && s.workers[t].Building? && f in s.workers[t].found
    ensures f !in s.queue
  {
    hide NetOk, Sound, NodesOk, LocksOk, NamesOk, WiresOk, SlotsLive, Alive, AllWorkersOk, ClaimsOk;
    assert f in FoundOf(s.workers[t]);
  }

  lemma AddFits(sys: System, held: set<End>, c: Crew, v: View, t: nat)
    requires Fits(c) && CanStep(c, Add(t)) && Ok(sys, held, c.shared, v)
    ensures Fits(Next(sys, c, Add(t)))
  {
    hide Scheduler.Ok, Lists, Scheduler.Queued, Ok;
    var c', found := Next(sys, c, Add(t)), c.shared.workers[t].found;
    var f := c'.names[|c.names|];
    assert c'.names == c.names + [f] && f in found;
    OnlyOne(found, f);
    NotQueued(sys, held, c.shared, v, t, f);
    Scheduler.MoveKeeps(c.pool, Scheduler.Push(t, |c.names|));
    OneMore(c.pool.deques, t, |c.names|);
    ListsAdd(Scheduler.Queued(c.pool.deques), c.names, c.shared.queue, f);
  }

  lemma OnlyOne(found: set<Found>, f: Found)
    requires |found| == 1 && f in found
    ensures found == {f}
  {
    assert |found - {f}| == 0;
    assert found - {f} == {};
  }

  // While a worker connects it has found nothing yet, unless it is building a node.
  lemma NothingFoundYet(sys: System, held: set<End>, s: Shared, v: View, t: nat)
    requires Ok(sys, held, s, v) && t < |s.workers| && s.workers[t].Building?
    ensures s.workers[t].open.None? && !s.workers[t].pending.Quiet? ==> s.workers[t].found == {}
  {
    hide NetOk, Sound, NodesOk, LocksOk, NamesOk, WiresOk, SlotsLive, Alive, HoldersOk, ClaimsOk, Carried;
    assert WorkerOk(held, s.cells, v, t, s.workers[t]);
  }

  lemma GoFits(sys: System, held: set<End>, c: Crew, v: View, t: nat)
    requires Fits(c) && CanStep(c, Work(t)) && Ok(sys, held, c.shared, v) && !Go(sys, c.shared, t).fault
    ensures Fits(Next(sys, c, Work(t)))
  {
    hide Scheduler.Ok, Lists, Scheduler.Queued, Ok, Go;
    NothingFoundYetIf(sys, held, c.shared, v, t);
    GoWorker(sys, c.shared, t);
    NoFault(sys, held, c.shared, v);
  }

  lemma NothingFoundYetIf(sys: System, held: set<End>, s: Shared, v: View, t: nat)
    requires Ok(sys, held, s, v) && t < |s.workers|
    ensures s.workers[t].Building? && s.workers[t].open.None? && !s.workers[t].pending.Quiet? ==>
              s.workers[t].found == {}
  {
    hide Ok;
    if s.workers[t].Building? {
      NothingFoundYet(sys, held, s, v, t);
    }
  }

  // Only worker `t` has changed, and it has still found at most one task.
  ghost predicate Kept(s: Shared, s': Shared, t: nat) {
    && s'.queue == s.queue && t < |s.workers| && |s'.workers| == |s.workers|
    && s'.workers == s.workers[t := s'.workers[t]] && (s'.workers[t].Building? ==> |s'.workers[t].found| <= 1)
  }

  // What one memory access does to the worker: it does not touch the queue or the others.
  lemma GoWorker(sys: System, s: Shared, t: nat)
    requires Enabled(s, t) && !Publishing(s.workers[t]) && !Go(sys, s, t).fault
    requires s.workers[t].Building? ==> |s.workers[t].found| <= 1
    requires s.workers[t].Building? && s.workers[t].open.None? && !s.workers[t].pending.Quiet? ==>
               s.workers[t].found == {}
    ensures Kept(s, Go(sys, s, t), t)
  {
    hide Continue, Read, LockNode;
    var w := s.workers[t];
    if w.Building? {
      ContinueWorker(sys, s, t);
    } else if w.locked {
      ReadWorker(sys, s, t);
    } else {
      LockWorker(s, t);
    }
  }

  lemma LockWorker(s: Shared, t: nat)
    requires t < |s.workers| && s.workers[t].Reading? && !s.workers[t].locked
    ensures Kept(s, LockNode(s, t), t)
  {
  }

  lemma ReadWorker(sys: System, s: Shared, t: nat)
    requires t < |s.workers| && s.workers[t].Reading?
    ensures Kept(s, Read(sys, s, t), t)
  {
    hide BodyScript;
  }

  lemma ContinueWorker(sys: System, s: Shared, t: nat)
    requires t < |s.workers| && s.workers[t].Building? && !Publishing(s.workers[t]) && |s.workers[t].found| <= 1
    requires s.workers[t].open.None? && !s.workers[t].pending.Quiet? ==> s.workers[t].found == {}
    requires !Continue(sys, s, t).fault
    ensures Kept(s, Continue(sys, s, t), t)
  {
    hide Act, Meet, Exchange;
    var w := s.workers[t];
    if w.pending.Connecting? {
      if w.pending.left.Principal? && w.pending.right.Principal? {
        MeetWorker(sys, s, t, w.pending.left, w.pending.right);
      } else {
        ExchangeWorker(s, t, w.pending.left, w.pending.right);
        ExchangeWorker(s, t, w.pending.right, w.pending.left);
      }
    } else if w.pending.Quiet? && w.script != [] {
      ActWorker(s, t);
    }
  }

  lemma MeetWorker(sys: System, s: Shared, t: nat, l: End, r: End)
    requires t < |s.workers| && s.workers[t].Building? && l.Principal? && r.Principal?
    requires s.workers[t].open.None? ==> s.workers[t].found == {}
    requires |s.workers[t].found| <= 1 && !Meet(sys, s, t, l, r).fault
    ensures Kept(s, Meet(sys, s, t, l, r), t)
  {
    hide TaskFor, Ctors;
    var w := s.workers[t];
    if w.found == {} {
      assert forall f :: w.found + {f} == {f};
    }
  }

  lemma ExchangeWorker(s: Shared, t: nat, e: End, value: End)
    requires t < |s.workers| && s.workers[t].Building? && |s.workers[t].found| <= 1
    ensures e.WireEnd? ==> Kept(s, Exchange(s, t, e, value), t)
  {
  }

  lemma ActWorker(s: Shared, t: nat)
    requires t < |s.workers| && s.workers[t].Building? && s.workers[t].script != [] && |s.workers[t].found| <= 1
    ensures Kept(s, Act(s, t), t)
  {
  }

  // ----- How much there is to do -----

  // All a thread does but looking at the counter and finding a deque empty.
  predicate Useful(c: Crew, step: Step) {
    match step
    case Look(_) => false
    case Fetch(w) => w < |c.pool.deques| && c.pool.deques[w] != []
    case Steal(_, victim) => victim < |c.pool.deques| && c.pool.deques[victim] != []
    case _ => true
  }

  predicate Moves(c: Crew, step: Step) {
    Useful(c, step) && !step.Count? && !step.Subtract?
  }

  ghost function UsefulSteps(sys: System, c: Crew, steps: seq<Step>): nat
    decreases |steps|
  {
    if steps == [] || !CanStep(c, steps[0]) then 0
    else (if Useful(c, steps[0]) then 1 else 0) + UsefulSteps(sys, Next(sys, c, steps[0]), steps[1..])
  }

  // What a thread is still going to add to the counter and to subtract from it.
  function Debt(phase: Scheduler.Phase): nat {
    if phase.Handling? then (if phase.pushed then 2 else 1) else 0
  }

  function Debts(phases: seq<Scheduler.Phase>): nat {
    if phases == [] then 0 else Debt(phases[0]) + Debts(phases[1..])
  }

  lemma {:induction false} DebtsUpdate(phases: seq<Scheduler.Phase>, w: nat, phase: Scheduler.Phase)
    requires w < |phases|
    ensures Debts(phases[w := phase]) + Debt(phases[w]) == Debts(phases) + Debt(phase)
    decreases |phases|
  {
    if w == 0 {
      assert phases[w := phase][1..] == phases[1..];
    } else {
      hide Debt;
      assert phases[w := phase][1..] == phases[1..][w - 1 := phase];
      DebtsUpdate(phases[1..], w - 1, phase);
    }
  }

  lemma {:induction false} NoDebts(phases: seq<Scheduler.Phase>)
    requires forall w :: 0 <= w < |phases| ==> phases[w].Checking?
    ensures Debts(phases) == 0
    decreases |phases|
  {
    if phases != [] {
      assert phases[0].Checking?;
      NoDebts(phases[1..]);
    }
  }

  lemma PoolDebts(p: Scheduler.Pool, m: Scheduler.Move)
    requires Scheduler.Possible(p, m)
    ensures var more := if m.Push? then 1
                        else if (m.Pop? && p.deques[m.worker] != []) || (m.Rob? && p.deques[m.victim] != []) then 1
                        else if m.Count? || m.Finish? then -1
                        else 0;
            Debts(Scheduler.Next(p, m).phases) == Debts(p.phases) + more
  {
    DebtsUpdate(p.phases, m.worker, Scheduler.Next(p, m).phases[m.worker]);
    hide Debts;
    OnePhase(p, m);
  }

  lemma OnePhase(p: Scheduler.Pool, m: Scheduler.Move)
    requires Scheduler.Possible(p, m)
    ensures Scheduler.Next(p, m).phases == p.phases[m.worker := Scheduler.Next(p, m).phases[m.worker]]
  {
  }

  // Twice the moves on the net pay for all the useful steps.
  lemma StepDebts(sys: System, c: Crew, step: Step)
    requires CanStep(c, step)
    ensures (if Useful(c, step) then 1 else 0) + Debts(Next(sys, c, step).pool.phases)
         <= (if Moves(c, step) then 2 else 0) + Debts(c.pool.phases)
  {
    hide Debts, Scheduler.Next, Go, Take, Publish;
    if !step.Work? {
      PoolDebts(c.pool, PoolMove(c, step));
    }
  }

  // Every step of the crew is a move of the workers on the net, or none at all.
  lemma StepKeeps(sys: System, held: set<End>, c: Crew, v: View, step: Step) returns (v': View, moves: seq<Move>)
    requires Fits(c) && Ok(sys, held, c.shared, v) && CanStep(c, step)
    ensures Fits(Next(sys, c, step)) && Ok(sys, held, Next(sys, c, step).shared, v')
    ensures Runs(sys, c.shared, moves, Next(sys, c, step).shared)
    ensures |moves| == if Moves(c, step) then 1 else 0
  {
    hide Ok, Fits, Scheduler.Next, Scheduler.Possible, Scheduler.Ok, Take, Go, Runs, Publish;
    var w := step.worker;
    var move := GoMove(w);
    match step
    case Fetch(_) =>
      TakeFits(c, w, w, Scheduler.Pop(w));
      v', moves := TakeStep(sys, held, c, v, w, w);
    case Steal(_, victim) =>
      TakeFits(c, w, victim, Scheduler.Rob(w, victim));
      v', moves := TakeStep(sys, held, c, v, w, victim);
    case Work(_) =>
      var ts: seq<Task>;
      v', ts := MoveKeeps(sys, held, c.shared, v, move);
      NoFault(sys, held, Go(sys, c.shared, w), v');
      GoFits(sys, held, c, v, w);
      moves := [move];
      OneMove(sys, c.shared, move);
    case Add(_) =>
      AddFits(sys, held, c, v, w);
      PublishIsGo(sys, c.shared, w);
      var ts: seq<Task>;
      v', ts := MoveKeeps(sys, held, c.shared, v, move);
      moves := [move];
      OneMove(sys, c.shared, move);
    case _ =>
      QuietFits(sys, c, step);
      v', moves := v, [];
      NoMove(sys, c.shared);
  }

  lemma PublishIsGo(sys: System, s: Shared, t: nat)
    requires t < |s.workers| && Publishing(s.workers[t])
    ensures Enabled(s, t) && Go(sys, s, t) == Publish(s, t)
  {
  }

  lemma NoMove(sys: System, s: Shared)
    ensures Runs(sys, s, [], s)
  {
  }

  lemma OneMove(sys: System, s: Shared, m: Move)
    requires Possible(s, m)
    ensures Runs(sys, s, [m], Do(sys, s, m))
  {
    hide Do, Possible;
    assert [m][1..] == [];
    NoMove(sys, Do(sys, s, m));
  }

  lemma TakeStep(sys: System, held: set<End>, c: Crew, v: View, w: nat, d: nat) returns (v': View, moves: seq<Move>)
    requires Ok(sys, held, c.shared, v) && d < |c.pool.deques| && CanTakeFrom(c, w, d)
    ensures Ok(sys, held, Taken(c, w, d), v') && Runs(sys, c.shared, moves, Taken(c, w, d))
    ensures |moves| == if c.pool.deques[d] == [] then 0 else 1
  {
    hide Ok, Take, Runs;
    if c.pool.deques[d] == [] {
      v', moves := v, [];
      NoMove(sys, c.shared);
    } else {
      var move := TakeMove(w, c.names[c.pool.deques[d][0]]);
      var ts: seq<Task>;
      v', ts := MoveKeeps(sys, held, c.shared, v, move);
      moves := [move];
      OneMove(sys, c.shared, move);
    }
  }

  lemma {:induction false} RunsConcat(sys: System, s: Shared, a: seq<Move>, mid: Shared, b: seq<Move>, last: Shared)
    requires Runs(sys, s, a, mid) && Runs(sys, mid, b, last)
    ensures Runs(sys, s, a + b, last)
    decreases |a|
  {
    hide Do, Possible;
    if a == [] {
      assert a + b == b;
    } else {
      assert (a + b)[1..] == a[1..] + b;
      RunsConcat(sys, Do(sys, s, a[0]), a[1..], mid, b, last);
    }
  }

  lemma {:induction false} CrewKeeps(sys: System, held: set<End>, c: Crew, v: View, steps: seq<Step>, last: Crew)
    returns (v': View, moves: seq<Move>)
    requires Fits(c) && Ok(sys, held, c.shared, v) && CrewRuns(sys, c, steps, last)
    ensures Fits(last) && Ok(sys, held, last.shared, v') && Runs(sys, c.shared, moves, last.shared)
    ensures UsefulSteps(sys, c, steps) + Debts(last.pool.phases) <= 2 * |moves| + Debts(c.pool.phases)
    decreases |steps|
  {
    hide Fits, Ok, Next, CanStep, Runs, Debts, Useful, Moves;
    if steps == [] {
      v', moves := v, [];
      NoMove(sys, c.shared);
    } else {
      var c1 := Next(sys, c, steps[0]);
      var v1, first := StepKeeps(sys, held, c, v, steps[0]);
      StepDebts(sys, c, steps[0]);
      var rest: seq<Move>;
      v', rest := CrewKeeps(sys, held, c1, v1, steps[1..], last);
      RunsConcat(sys, c.shared, first, c1.shared, rest, last.shared);
      moves := first + rest;
    }
  }

  // ----- The beginning and the end -----

  // `scheduler_prepare` has dealt the tasks, numbered in order, while all workers were idle.
  ghost predicate Prepared(c: Crew) {
    && Scheduler.Ok(c.pool) && c.pool.handled == multiset{}
    && c.pool.created == multiset(seq(|c.names|, i => i))
    && |c.pool.phases| == |c.shared.workers|
    && (forall w :: 0 <= w < |c.pool.phases| ==> c.pool.phases[w].Checking? && c.shared.workers[w].Idle?)
    && (forall i, j :: 0 <= i < j < |c.names| ==> c.names[i] != c.names[j])
    && (forall f :: f in c.shared.queue <==> f in c.names)
  }

  // `scheduler_prepare`, for the tasks the program has left in its queue
  method Prepare(s: Shared, names: seq<Found>) returns (c: Crew)
    requires |s.workers| > 0 && forall w :: w in s.workers ==> w.Idle?
    requires forall i, j :: 0 <= i < j < |names| ==> names[i] != names[j]
    requires forall f :: f in s.queue <==> f in names
    ensures Prepared(c) && c.shared == s && c.names == names
  {
    hide Scheduler.Queued, Scheduler.Running, Scheduler.Uncounted;
    var pool := Scheduler.Prepare(seq(|names|, i => i), |s.workers|);
    c := Crew(s, pool, names);
    forall w | 0 <= w < |s.workers|
      ensures s.workers[w].Idle?
    {
      assert s.workers[w] in s.workers;
    }
  }

  lemma {:induction false} NumbersOnce(k: nat, i: nat)
    ensures multiset(seq(k, j => j))[i] == if i < k then 1 else 0
    decreases k
  {
    if k > 0 {
      assert seq(k, j => j) == seq(k - 1, j => j) + [k - 1];
      NumbersOnce(k - 1, i);
    }
  }

  lemma PreparedFits(c: Crew)
    requires Prepared(c)
    ensures Fits(c)
  {
    hide Scheduler.Queued, Scheduler.Running, Scheduler.Uncounted;
    Scheduler.NobodyRuns(c.pool.phases);
    var q, numbers := Scheduler.Queued(c.pool.deques), multiset(seq(|c.names|, i => i));
    assert q + multiset{} + multiset{} == q;
    assert q == numbers;
    forall i: nat
      ensures q[i] == if i < |c.names| then 1 else 0
    {
      NumbersOnce(|c.names|, i);
    }
    forall f | f in c.shared.queue
      ensures exists i :: i in q && i < |c.names| && c.names[i] == f
    {
      var i: nat :| i < |c.names| && c.names[i] == f;
      assert i in q;
    }
  }

  // When all threads have left, nobody has anything left to do.
  lemma AllGone(c: Crew)
    requires Fits(c) && forall w :: 0 <= w < |c.pool.phases| ==> c.pool.phases[w].Gone?
    ensures AtEnd(c.shared)
  {
    assert forall w :: 0 <= w < |c.pool.deques| ==> c.pool.deques[w] == [];
    Scheduler.NothingQueued(c.pool.deques);
    assert Scheduler.Queued(c.pool.deques) == multiset{};
  }

  // What the threads have done until all of them left is a run to the end.
  lemma CrewEnds(sys: System, script: seq<Action>, count: nat, before: seq<Move>, c: Crew, steps: seq<Step>, last: Crew)
    returns (moves: seq<Move>)
    requires GoodSystem(sys) && Runnable(script) && count > 0 && Runs(sys, Begun(script, count), before, c.shared)
    requires Prepared(c) && CrewRuns(sys, c, steps, last)
    requires forall w :: 0 <= w < |last.pool.phases| ==> last.pool.phases[w].Gone?
    ensures Runs(sys, Begun(script, count), moves, last.shared) && AtEnd(last.shared)
  {
    hide *;
    PreparedFits(c);
    var held, v, ts := ParallelRuns.Reached(sys, script, count, before, c.shared);
    var v', more := CrewKeeps(sys, held, c, v, steps, last);
    AllGone(last);
    RunsConcat(sys, Begun(script, count), before, c.shared, more, last.shared);
    moves := before + more;
  }

  // The whole program: a worker runs the script, `scheduler_prepare` deals the tasks it has found, the threads work
  // until each has read 0 and left.  Then the nodes are those of a complete sequential run.
  lemma CrewResult(
    sys: System, script: seq<Action>, count: nat, before: seq<Move>, c: Crew, steps: seq<Step>, last: Crew)
    returns (handled: seq<Task>, end: Net, fused: Links)
    requires GoodSystem(sys) && Runnable(script) && count > 0 && Runs(sys, Begun(script, count), before, c.shared)
    requires Prepared(c) && CrewRuns(sys, c, steps, last)
    requires forall w :: 0 <= w < |last.pool.phases| ==> last.pool.phases[w].Gone?
    ensures Handles(sys, NetOf(script), handled, end) && Finished(sys, end)
    ensures !last.shared.fault && last.shared.nodes == end.nodes && last.shared.locks == map[]
    ensures SamePairing(end.links, fused)
    ensures StoredOnce(last.shared.cells, fused) && NothingElse(last.shared.cells, fused)
  {
    hide *;
    RunnableAllowed(script);
    var moves := CrewEnds(sys, script, count, before, c, steps, last);
    handled, end, fused := ParallelResult(sys, script, count, moves, last.shared);
  }

  // So they are those of any complete sequential run, and as many interactions have happened.
  lemma CrewIsSequential(
    sys: System, script: seq<Action>, count: nat, before: seq<Move>, c: Crew, steps: seq<Step>, last: Crew,
    tasks: seq<Task>, end: Net)
    returns (handled: seq<Task>, fused: Links)
    requires GoodSystem(sys) && Runnable(script) && count > 0 && Runs(sys, Begun(script, count), before, c.shared)
    requires Prepared(c) && CrewRuns(sys, c, steps, last)
    requires forall w :: 0 <= w < |last.pool.phases| ==> last.pool.phases[w].Gone?
    requires Handles(sys, NetOf(script), tasks, end) && Finished(sys, end)
    ensures !last.shared.fault && last.shared.nodes == end.nodes && last.shared.locks == map[]
    ensures Handles(sys, NetOf(script), handled, end) && |handled| == |tasks|
    ensures SamePairing(end.links, fused)
    ensures StoredOnce(last.shared.cells, fused) && NothingElse(last.shared.cells, fused)
  {
    hide *;
    RunnableAllowed(script);
    var moves := CrewEnds(sys, script, count, before, c, steps, last);
    handled, fused := ParallelIsSequential(sys, script, count, moves, last.shared, tasks, end);
  }

  // If one sequential run finishes, there is only so much to do: all but finitely many steps are looks at the counter
  // and at empty deques.
  lemma CrewWorkEnds(
    sys: System, script: seq<Action>, count: nat, before: seq<Move>, c: Crew, steps: seq<Step>, last: Crew,
    tasks: seq<Task>, end: Net)
    requires GoodSystem(sys) && Runnable(script) && count > 0 && Runs(sys, Begun(script, count), before, c.shared)
    requires Prepared(c) && CrewRuns(sys, c, steps, last)
    requires Handles(sys, NetOf(script), tasks, end) && Finished(sys, end)
    ensures UsefulSteps(sys, c, steps) <= 2 * (1 + ScriptSize(script) + TotalWeight(sys, NetOf(script), tasks))
  {
    hide *;
    RunnableAllowed(script);
    PreparedFits(c);
    PreparedChecking(c);
    NoDebts(c.pool.phases);
    var held, v, ts := ParallelRuns.Reached(sys, script, count, before, c.shared);
    var v', moves := CrewKeeps(sys, held, c, v, steps, last);
    RunsConcat(sys, Begun(script, count), before, c.shared, moves, last.shared);
    RunsEnd(sys, script, count, before + moves, last.shared, tasks, end);
  }

  lemma PreparedChecking(c: Crew)
    requires Prepared(c)
    ensures forall w :: 0 <= w < |c.pool.phases| ==> c.pool.phases[w].Checking?
  {
  }

  // As long as a thread has not left, some thread can go on; as long as a thread has a task, one that has a task can.
  lemma CrewProgress(sys: System, script: seq<Action>, count: nat, before: seq<Move>, c: Crew, steps: seq<Step>,
                     last: Crew, w: nat)
    returns (step: Step)
    requires GoodSystem(sys) && Runnable(script) && count > 0 && Runs(sys, Begun(script, count), before, c.shared)
    requires Prepared(c) && CrewRuns(sys, c, steps, last)
    requires w < |last.pool.phases| && !last.pool.phases[w].Gone?
    ensures CanStep(last, step)
    ensures (exists u :: 0 <= u < |last.pool.phases| && last.pool.phases[u].Handling?) ==> HasTask(last, step.worker)
  {
    hide *;
    PreparedFits(c);
    var held, v, ts := ParallelRuns.Reached(sys, script, count, before, c.shared);
    var v', moves := CrewKeeps(sys, held, c, v, steps, last);
    if u :| 0 <= u < |last.pool.phases| && last.pool.phases[u].Handling? {
      step := CanGoOn(sys, held, last, v', u);
    } else {
      step := CanGoOn(sys, held, last, v', w);
    }
  }

  predicate HasTask(c: Crew, w: nat) {
    w < |c.pool.phases| && c.pool.phases[w].Handling?
  }

  lemma CanGoOn(sys: System, held: set<End>, c: Crew, v: View, w: nat) returns (step: Step)
    requires Fits(c) && Ok(sys, held, c.shared, v) && w < |c.pool.phases| && !c.pool.phases[w].Gone?
    ensures CanStep(c, step) && (c.pool.phases[w].Handling? ==> HasTask(c, step.worker))
  {
    hide Ok, Lists, Scheduler.Queued;
    match c.pool.phases[w]
    case Checking => step := Look(w);
    case Stealing => step := Look(w);
    case Popping =>
      step := Fetch(w);
      MayTake(c, w, w);
    case Robbing =>
      step := Steal(w, w);
      MayTake(c, w, w);
    case Handling(_, pushed) =>
      if pushed {
        step := Count(w);
      } else if c.shared.workers[w].Idle? {
        step := Subtract(w);
      } else if Enabled(c.shared, w) {
        step := GoOn(c, w);
      } else {
        var n := Current(c.shared.workers[w]);
        LockOwner(sys, held, c.shared, v, n);
        var u := c.shared.locks[n];
        step := if c.pool.phases[u].pushed then Count(u) else Work(u);
      }
  }

  lemma GoOn(c: Crew, w: nat) returns (step: Step)
    requires Fits(c) && w < |c.pool.phases| && c.pool.phases[w].Handling? && !c.pool.phases[w].pushed
    requires Enabled(c.shared, w)
    ensures CanStep(c, step) && step.worker == w
  {
    hide Lists, Scheduler.Queued, Enabled;
    step := if Publishing(c.shared.workers[w]) then Add(w) else Work(w);
    assert c.shared.workers[w].Building? && c.shared.workers[w].found != {} ==> |c.shared.workers[w].found| > 0;
  }

  lemma MayTake(c: Crew, w: nat, d: nat)
    requires Fits(c) && w < |c.pool.phases| && d < |c.pool.deques| && !c.pool.phases[w].Handling?
    ensures CanTakeFrom(c, w, d)
  {
    hide Scheduler.Queued;
    if c.pool.deques[d] != [] {
      OneLess(c.pool.deques, d);
      var q' := Scheduler.Queued(c.pool.deques[d := c.pool.deques[d][1..]]);
      assert c.pool.deques[d][0] in q' + multiset{c.pool.deques[d][0]};
    }
  }
}
