/**
 Work stealing and the counter that tells the workers when to stop.

 A task is pushed onto the worker's deque before it is counted, and it is uncounted only after it has been
 handled, so the counter may be behind; what matters is that no worker leaves with work in its deque, and that
 nothing is left once all have gone.
 */
module Scheduler {

  // Tasks are told apart by a number.
  type Task = nat

  datatype Phase =
    | Checking                            // about to read the counter in `worker_thread_fn`
    | Popping                             // about to pop its own deque
    | Stealing                            // about to read the counter in `worker_steal_task`
    | Robbing                             // about to pop a victim's deque
    | Handling(task: Task, pushed: bool)     // `pushed`: between pushing a task and counting it
    | Gone

  datatype Pool = Pool(
    counter: int, deques: seq<seq<Task>>, phases: seq<Phase>, created: multiset<Task>, handled: multiset<Task>)

  datatype Move =
    | Read(worker: nat)
    | Pop(worker: nat)
    | Rob(worker: nat, victim: nat)
    | Push(worker: nat, task: Task)
    | Count(worker: nat)
    | Finish(worker: nat)

  // ----- The protocol -----

  predicate Possible(p: Pool, m: Move) {
    && m.worker < |p.phases| && |p.phases| == |p.deques|
    && match m
       case Read(w) => p.phases[w].Checking? || p.phases[w].Stealing?
       case Pop(w) => p.phases[w].Popping?
       case Rob(w, victim) => p.phases[w].Robbing? && victim < |p.deques|
       case Push(w, _) => p.phases[w].Handling? && !p.phases[w].pushed
       case Count(w) => p.phases[w].Handling? && p.phases[w].pushed
       case Finish(w) => p.phases[w].Handling? && !p.phases[w].pushed
  }

  // Popping the front of deque `d`; with nothing there the worker goes on to `otherwise`.
  function TakeFrom(p: Pool, w: nat, d: nat, otherwise: Phase): (p': Pool)
    requires w < |p.phases| && d < |p.deques|
    ensures |p'.phases| == |p.phases| && |p'.deques| == |p.deques|
  {
    if p.deques[d] == [] then p.(phases := p.phases[w := otherwise])
    else p.(deques := p.deques[d := p.deques[d][1..]], phases := p.phases[w := Handling(p.deques[d][0], false)])
  }

  function Next(p: Pool, m: Move): (p': Pool)
    requires Possible(p, m)
    ensures |p'.phases| == |p.phases| && |p'.deques| == |p.deques|
  {
    match m
    case Read(w) =>
      if p.counter <= 0 then p.(phases := p.phases[w := Gone])
      else p.(phases := p.phases[w := if p.phases[w].Checking? then Popping else Robbing])
    case Pop(w) => TakeFrom(p, w, w, Stealing)
    case Rob(w, victim) => TakeFrom(p, w, victim, Stealing)
    case Push(w, t) =>
      p.(deques := p.deques[w := p.deques[w] + [t]], phases := p.phases[w := p.phases[w].(pushed := true)],
         created := p.created + multiset{t})
    case Count(w) => p.(counter := p.counter + 1, phases := p.phases[w := p.phases[w].(pushed := false)])
    case Finish(w) =>
      p.(counter := p.counter - 1, phases := p.phases[w := Checking], handled := p.handled + multiset{p.phases[w].task})
  }

  ghost predicate Runs(p: Pool, moves: seq<Move>, last: Pool)
    decreases |moves|
  {
    if moves == [] then p == last
    else Possible(p, moves[0]) && Runs(Next(p, moves[0]), moves[1..], last)
  }

  // ----- Where the tasks are -----

  ghost function Queued(deques: seq<seq<Task>>): multiset<Task> {
    if deques == [] then multiset{} else multiset(deques[0]) + Queued(deques[1..])
  }

  function One(phase: Phase): multiset<Task> {
    if phase.Handling? then multiset{phase.task} else multiset{}
  }

  ghost function Running(phases: seq<Phase>): multiset<Task> {
    if phases == [] then multiset{} else One(phases[0]) + Running(phases[1..])
  }

  function Late(phase: Phase): nat {
    if phase.Handling? && phase.pushed then 1 else 0
  }

  // How many workers are between the push and the count.
  function Uncounted(phases: seq<Phase>): nat {
    if phases == [] then 0 else Late(phases[0]) + Uncounted(phases[1..])
  }

  lemma {:induction false} QueuedUpdate(deques: seq<seq<Task>>, i: nat, d: seq<Task>)
    requires i < |deques|
    ensures Queued(deques[i := d]) + multiset(deques[i]) == Queued(deques) + multiset(d)
    decreases |deques|
  {
    if i == 0 {
      assert deques[i := d][1..] == deques[1..];
    } else {
      assert deques[i := d][1..] == deques[1..][i - 1 := d];
      QueuedUpdate(deques[1..], i - 1, d);
      Prefixed(multiset(deques[0]), Queued(deques[1..][i - 1 := d]), multiset(deques[i]), Queued(deques[1..]),
               multiset(d));
    }
  }

  lemma Prefixed(h: multiset<Task>, x: multiset<Task>, b: multiset<Task>, y: multiset<Task>, d: multiset<Task>)
    requires x + b == y + d
    ensures h + x + b == h + y + d
  {
    forall t
      ensures (h + x + b)[t] == (h + y + d)[t]
    {
      assert (x + b)[t] == (y + d)[t];
    }
  }

  lemma {:induction false} RunningUpdate(phases: seq<Phase>, i: nat, phase: Phase)
    requires i < |phases|
    ensures Running(phases[i := phase]) + One(phases[i]) == Running(phases) + One(phase)
    decreases |phases|
  {
    if i == 0 {
      assert phases[i := phase][1..] == phases[1..];
    } else {
      hide One;
      assert phases[i := phase][1..] == phases[1..][i - 1 := phase];
      RunningUpdate(phases[1..], i - 1, phase);
      Prefixed(One(phases[0]), Running(phases[1..][i - 1 := phase]), One(phases[i]), Running(phases[1..]), One(phase));
    }
  }

  lemma {:induction false} UncountedUpdate(phases: seq<Phase>, i: nat, phase: Phase)
    requires i < |phases|
    ensures Uncounted(phases[i := phase]) + Late(phases[i]) == Uncounted(phases) + Late(phase)
    decreases |phases|
  {
    if i == 0 {
      assert phases[i := phase][1..] == phases[1..];
    } else {
      assert phases[i := phase][1..] == phases[1..][i - 1 := phase];
      UncountedUpdate(phases[1..], i - 1, phase);
    }
  }

  lemma PhaseUpdate(phases: seq<Phase>, i: nat, phase: Phase)
    requires i < |phases|
    ensures Running(phases[i := phase]) + One(phases[i]) == Running(phases) + One(phase)
    ensures Uncounted(phases[i := phase]) + Late(phases[i]) == Uncounted(phases) + Late(phase)
    ensures |Running(phases[i := phase])| + |One(phases[i])| == |Running(phases)| + |One(phase)|
  {
    RunningUpdate(phases, i, phase);
    UncountedUpdate(phases, i, phase);
    hide Running, Uncounted, One;
    SameSize(Running(phases[i := phase]), One(phases[i]), Running(phases), One(phase));
  }

  lemma DequeUpdate(deques: seq<seq<Task>>, i: nat, d: seq<Task>)
    requires i < |deques|
    ensures Queued(deques[i := d]) + multiset(deques[i]) == Queued(deques) + multiset(d)
    ensures |Queued(deques[i := d])| + |deques[i]| == |Queued(deques)| + |d|
  {
    QueuedUpdate(deques, i, d);
    hide Queued;
    SameSize(Queued(deques[i := d]), multiset(deques[i]), Queued(deques), multiset(d));
  }

  lemma SameSize(a: multiset<Task>, b: multiset<Task>, c: multiset<Task>, d: multiset<Task>)
    requires a + b == c + d
    ensures |a| + |b| == |c| + |d|
  {
    assert |a + b| == |a| + |b| && |c + d| == |c| + |d|;
  }

  // Everybody between push and count is handling a task.
  lemma {:induction false} UncountedRuns(phases: seq<Phase>)
    ensures Uncounted(phases) <= |Running(phases)|
    decreases |phases|
  {
    if phases != [] {
      UncountedRuns(phases[1..]);
    }
  }

  // ----- The invariant -----

  ghost predicate Ok(p: Pool) {
    && |p.phases| == |p.deques|
    && p.counter == |Queued(p.deques)| + |Running(p.phases)| - Uncounted(p.phases)
    && Queued(p.deques) + Running(p.phases) + p.handled == p.created
    && (forall w :: 0 <= w < |p.phases| && (p.phases[w].Stealing? || p.phases[w].Robbing? || p.phases[w].Gone?) ==>
          p.deques[w] == [])
  }

  lemma InOneDeque(deques: seq<seq<Task>>, w: nat)
    requires w < |deques|
    ensures |deques[w]| <= |Queued(deques)|
  {
    DequeUpdate(deques, w, []);
  }

  // The counter never falls below the number of queued tasks.
  lemma CounterCoversQueue(p: Pool)
    requires Ok(p)
    ensures p.counter >= |Queued(p.deques)|
    ensures p.counter == 0 ==> forall w :: 0 <= w < |p.deques| ==> p.deques[w] == []
  {
    UncountedRuns(p.phases);
    forall w | 0 <= w < |p.deques|
      ensures |p.deques[w]| <= |Queued(p.deques)|
    {
      InOneDeque(p.deques, w);
    }
  }

  // A worker that takes a task hands it from a deque to itself.
  lemma TakeKeeps(p: Pool, w: nat, d: nat)
    requires Ok(p) && w < |p.phases| && d < |p.deques| && !p.phases[w].Handling? && (p.deques[w] == [] || d == w)
    ensures Ok(TakeFrom(p, w, d, Stealing))
  {
    hide Queued, Running, Uncounted;
    if p.deques[d] == [] {
      PhaseUpdate(p.phases, w, Stealing);
      Cancelled(Running(p.phases[w := Stealing]), Running(p.phases), multiset{});
    } else {
      TakeOne(p, w, d);
    }
  }

  lemma TakeOne(p: Pool, w: nat, d: nat)
    requires w < |p.phases| && d < |p.deques| && p.deques[d] != [] && !p.phases[w].Handling?
    requires Ok(p) && (p.deques[w] == [] || d == w)
    ensures Ok(TakeFrom(p, w, d, Stealing))
  {
    hide Queued, Running, Uncounted;
    var t, rest := p.deques[d][0], p.deques[d][1..];
    var q, q' := Queued(p.deques), Queued(p.deques[d := rest]);
    var r, r' := Running(p.phases), Running(p.phases[w := Handling(t, false)]);
    assert q' + r' == q + r && |q'| + |r'| == |q| + |r| by {
      hide Ok;
      assert p.deques[d] == [t] + rest;
      PhaseUpdate(p.phases, w, Handling(t, false));
      DequeUpdate(p.deques, d, rest);
      Moved(q', q, r, r', multiset(rest), t);
    }
    assert Uncounted(p.phases[w := Handling(t, false)]) == Uncounted(p.phases) by {
      hide Ok;
      UncountedUpdate(p.phases, w, Handling(t, false));
    }
  }

  lemma Moved(q': multiset<Task>, q: multiset<Task>, r: multiset<Task>, r': multiset<Task>, rest: multiset<Task>,
              t: Task)
    requires q' + (multiset{t} + rest) == q + rest && r' == r + multiset{t}
    ensures q' + r' == q + r
  {
    forall x
      ensures (q' + r')[x] == (q + r)[x]
    {
      assert (q' + (multiset{t} + rest))[x] == (q + rest)[x];
    }
  }

  lemma ReadKeeps(p: Pool, w: nat)
    requires Ok(p) && Possible(p, Read(w))
    ensures Ok(Next(p, Read(w)))
    ensures Next(p, Read(w)).phases[w].Gone? ==> p.deques[w] == []
  {
    hide Queued, Running, Uncounted;
    CounterCoversQueue(p);
    var phase := Next(p, Read(w)).phases[w];
    PhaseUpdate(p.phases, w, phase);
    Cancelled(Running(p.phases[w := phase]), Running(p.phases), multiset{});
  }

  lemma PushKeeps(p: Pool, w: nat, t: Task)
    requires Ok(p) && Possible(p, Push(w, t))
    ensures Ok(Next(p, Push(w, t)))
  {
    hide Queued, Running, Uncounted, One;
    var phase := p.phases[w].(pushed := true);
    var d := p.deques[w];
    var q, q' := Queued(p.deques), Queued(p.deques[w := d + [t]]);
    assert Running(p.phases[w := phase]) == Running(p.phases)
           && Uncounted(p.phases[w := phase]) == Uncounted(p.phases) + 1 by {
      hide Ok;
      PhaseUpdate(p.phases, w, phase);
      SameTask(p.phases[w], phase);
      Cancelled(Running(p.phases[w := phase]), Running(p.phases), One(phase));
    }
    assert q' == q + multiset{t} && |q'| == |q| + 1 by {
      hide Ok;
      assert multiset(d + [t]) == multiset(d) + multiset{t};
      DequeUpdate(p.deques, w, d + [t]);
      Added(q', q, multiset(d), t);
    }
    Regrouped(q, Running(p.phases), p.handled, multiset{t});
  }

  lemma SameTask(a: Phase, b: Phase)
    requires a.Handling? && b.Handling? && a.task == b.task
    ensures One(a) == One(b)
  {
  }

  lemma Regrouped(q: multiset<Task>, r: multiset<Task>, h: multiset<Task>, t: multiset<Task>)
    ensures q + t + r + h == q + r + h + t
  {
  }

  lemma Added(q': multiset<Task>, q: multiset<Task>, d: multiset<Task>, t: Task)
    requires q' + d == q + (d + multiset{t})
    ensures q' == q + multiset{t}
  {
    forall x
      ensures q'[x] == (q + multiset{t})[x]
    {
      assert (q' + d)[x] == (q + (d + multiset{t}))[x];
    }
  }

  lemma CountKeeps(p: Pool, w: nat)
    requires Ok(p) && Possible(p, Count(w))
    ensures Ok(Next(p, Count(w)))
  {
    hide Queued, Running, Uncounted;
    var phase := p.phases[w].(pushed := false);
    PhaseUpdate(p.phases, w, phase);
    Cancelled(Running(p.phases[w := phase]), Running(p.phases), One(phase));
  }

  lemma Cancelled(a: multiset<Task>, b: multiset<Task>, c: multiset<Task>)
    requires a + c == b + c
    ensures a == b
  {
    forall x
      ensures a[x] == b[x]
    {
      assert (a + c)[x] == (b + c)[x];
    }
  }

  // When a task is finished the counter is positive: it never wraps below zero.
  lemma FinishKeeps(p: Pool, w: nat)
    requires Ok(p) && Possible(p, Finish(w))
    ensures Ok(Next(p, Finish(w))) && p.counter > 0
  {
    hide Queued, Running, Uncounted;
    var t := p.phases[w].task;
    PhaseUpdate(p.phases, w, Checking);
    UncountedRuns(p.phases[w := Checking]);
    var r, r' := Running(p.phases), Running(p.phases[w := Checking]);
    assert r' + multiset{t} == r + multiset{};
    assert Queued(p.deques) + r' + (p.handled + multiset{t}) == Queued(p.deques) + (r' + multiset{t}) + p.handled;
  }

  lemma MoveKeeps(p: Pool, m: Move)
    requires Ok(p) && Possible(p, m)
    ensures Ok(Next(p, m))
    ensures m.Finish? ==> p.counter > 0
    ensures m.Read? && Next(p, m).phases[m.worker].Gone? ==> p.deques[m.worker] == []
  {
    hide Ok;
    match m
    case Read(w) => ReadKeeps(p, w);
    case Pop(w) => PopKeeps(p, w, w);
    case Rob(w, victim) => PopKeeps(p, w, victim);
    case Push(w, t) => PushKeeps(p, w, t);
    case Count(w) => CountKeeps(p, w);
    case Finish(w) => FinishKeeps(p, w);
  }

  lemma PopKeeps(p: Pool, w: nat, d: nat)
    requires Ok(p) && w < |p.phases| && |p.phases| == |p.deques| && d < |p.deques|
    requires (p.phases[w].Popping? && d == w) || p.phases[w].Robbing?
    ensures Ok(TakeFrom(p, w, d, Stealing))
  {
    TakeKeeps(p, w, d);
  }

  // A worker that has gone stays gone, and nobody puts anything into its deque.
  lemma GoneStays(p: Pool, m: Move, w: nat)
    requires Possible(p, m) && w < |p.phases| && p.phases[w].Gone? && Ok(p)
    ensures var p' := Next(p, m); p'.phases[w].Gone? && p'.deques[w] == []
  {
    hide Queued, Running, Uncounted;
  }

  lemma {:induction false} RunKeeps(p: Pool, moves: seq<Move>, last: Pool)
    requires Ok(p) && Runs(p, moves, last)
    ensures Ok(last)
    decreases |moves|
  {
    if moves != [] {
      MoveKeeps(p, moves[0]);
      RunKeeps(Next(p, moves[0]), moves[1..], last);
    }
  }

  // ----- The beginning -----

  // What `scheduler_prepare` makes of the tasks: worker `w` gets every `count`-th one, beginning with the w-th.
  function Dealt(tasks: seq<Task>, count: nat, w: nat): seq<Task>
    requires w < count
    decreases |tasks|
  {
    if tasks == [] then []
    else if (|tasks| - 1) % count == w then Dealt(tasks[..|tasks| - 1], count, w) + [tasks[|tasks| - 1]]
    else Dealt(tasks[..|tasks| - 1], count, w)
  }

  // The k-th task of worker `w` is the one at place `w + count * k`, and no other is missing.
  lemma {:induction false} DealtInTurn(tasks: seq<Task>, count: nat, w: nat)
    requires w < count
    ensures var mine := Dealt(tasks, count, w);
            && (forall k :: 0 <= k < |mine| ==> w + count * k < |tasks| && mine[k] == tasks[w + count * k])
            && w + count * |mine| >= |tasks|
    decreases |tasks|
  {
    if tasks != [] {
      var front, n := tasks[..|tasks| - 1], |tasks| - 1;
      DealtInTurn(front, count, w);
      var mine := Dealt(front, count, w);
      if n % count == w {
        LastInTurn(n, count, w, |mine|);
      } else if n == w + count * |mine| {
        ModuloIs(n, count, |mine|, w);
      }
    }
  }

  lemma LastInTurn(n: nat, count: nat, w: nat, m: nat)
    requires w < count && n % count == w && w + count * m >= n
    requires m > 0 ==> w + count * (m - 1) < n
    ensures n == w + count * m && w + count * (m + 1) > n
  {
    var q := n / count;
    assert n == count * q + w;
    Ordered(count, q, m);
    Ordered(count, m - 1, q);
    Ordered(count, m, q);
    assert count * (m + 1) == count * m + count;
  }

  lemma Ordered(count: nat, a: int, b: int)
    requires count > 0
    ensures a < b ==> count * a + count <= count * b
    ensures a == b ==> count * a == count * b
  {
    if a < b {
      NoLess(count, b - a);
      assert count * b == count * a + count * (b - a);
    }
  }

  method Prepare(tasks: seq<Task>, count: nat) returns (p: Pool)
    requires count > 0
    ensures Ok(p) && |p.deques| == count && p.counter == |tasks|
    ensures p.created == multiset(tasks) && p.handled == multiset{}
    ensures forall w :: 0 <= w < count ==> p.deques[w] == Dealt(tasks, count, w) && p.phases[w] == Checking
  {
    hide Queued, Running, Uncounted;
    var deques: seq<seq<Task>> := seq(count, i => []);
    var counter, cursor := 0, 0;
    EmptyQueue(deques);
    while cursor < |tasks|
      invariant cursor <= |tasks| && counter == cursor && |deques| == count
      invariant forall w :: 0 <= w < count ==> deques[w] == Dealt(tasks[..cursor], count, w)
      invariant Queued(deques) == multiset(tasks[..cursor])
    {
      var index, task := cursor % count, tasks[cursor];
      assert tasks[..cursor + 1][..cursor] == tasks[..cursor] && tasks[..cursor + 1] == tasks[..cursor] + [task];
      Dealing(deques, index, task);
      deques := deques[index := deques[index] + [task]];
      counter := counter + 1;
      cursor := cursor + 1;
    }
    assert tasks[..cursor] == tasks;
    var phases := seq(count, i => Checking);
    NobodyRuns(phases);
    p := Pool(counter, deques, phases, multiset(tasks), multiset{});
  }

  lemma Dealing(deques: seq<seq<Task>>, i: nat, t: Task)
    requires i < |deques|
    ensures Queued(deques[i := deques[i] + [t]]) == Queued(deques) + multiset{t}
  {
    hide Queued;
    var d := deques[i];
    assert multiset(d + [t]) == multiset(d) + multiset{t};
    DequeUpdate(deques, i, d + [t]);
    Added(Queued(deques[i := d + [t]]), Queued(deques), multiset(d), t);
  }

  lemma {:induction false} EmptyQueue(deques: seq<seq<Task>>)
    requires forall i :: 0 <= i < |deques| ==> deques[i] == []
    ensures Queued(deques) == multiset{}
    decreases |deques|
  {
    if deques != [] {
      EmptyQueue(deques[1..]);
    }
  }

  lemma {:induction false} NobodyRuns(phases: seq<Phase>)
    requires forall i :: 0 <= i < |phases| ==> !phases[i].Handling?
    ensures Running(phases) == multiset{} && Uncounted(phases) == 0
    decreases |phases|
  {
    if phases != [] {
      NobodyRuns(phases[1..]);
    }
  }

  // ----- The end -----

  // Once all workers have gone, every task ever created has been handled, as often as it was created.
  lemma NothingLost(p: Pool, moves: seq<Move>, last: Pool)
    requires Ok(p) && Runs(p, moves, last) && forall w :: 0 <= w < |last.phases| ==> last.phases[w].Gone?
    ensures last.handled == last.created && last.counter == 0
    ensures forall w :: 0 <= w < |last.deques| ==> last.deques[w] == []
  {
    RunKeeps(p, moves, last);
    EmptyQueue(last.deques);
    NobodyRuns(last.phases);
  }

  // In any state no task is lost or doubled: it is in one deque, or with one worker, or handled.
  lemma EachOnce(p: Pool, moves: seq<Move>, last: Pool)
    requires Ok(p) && Runs(p, moves, last)
    ensures Queued(last.deques) + Running(last.phases) + last.handled == last.created
    ensures last.counter >= |Queued(last.deques)|
  {
    RunKeeps(p, moves, last);
    CounterCoversQueue(last);
  }

  // As long as somebody has not gone, somebody can move.
  lemma Progress(p: Pool, w: nat) returns (m: Move)
    requires Ok(p) && w < |p.phases| && !p.phases[w].Gone?
    ensures Possible(p, m) && m.worker == w
  {
    m := match p.phases[w]
         case Checking => Read(w)
         case Popping => Pop(w)
         case Stealing => Read(w)
         case Robbing => Rob(w, w)
         case Handling(_, pushed) => if pushed then Count(w) else Finish(w);
  }

  lemma {:induction false} NothingQueued(deques: seq<seq<Task>>)
    ensures |Queued(deques)| == 0 <==> forall w :: 0 <= w < |deques| ==> deques[w] == []
    decreases |deques|
  {
    if deques != [] {
      NothingQueued(deques[1..]);
      assert forall w :: 1 <= w < |deques| ==> deques[w] == deques[1..][w - 1];
      assert |Queued(deques)| == |deques[0]| + |Queued(deques[1..])|;
    }
  }

  lemma {:induction false} AllLate(phases: seq<Phase>)
    ensures |Running(phases)| == Uncounted(phases) <==>
              forall w :: 0 <= w < |phases| && phases[w].Handling? ==> phases[w].pushed
    decreases |phases|
  {
    if phases != [] {
      AllLate(phases[1..]);
      UncountedRuns(phases[1..]);
      assert forall w :: 1 <= w < |phases| ==> phases[w] == phases[1..][w - 1];
      assert |Running(phases)| == |One(phases[0])| + |Running(phases[1..])|;
    }
  }

  // The counter reads 0 exactly when nothing is queued and every worker with a task has pushed another one that it
  // has not counted yet.
  lemma CounterReadsZero(p: Pool)
    requires Ok(p)
    ensures p.counter == 0 <==>
              && (forall w :: 0 <= w < |p.deques| ==> p.deques[w] == [])
              && (forall w :: 0 <= w < |p.phases| && p.phases[w].Handling? ==> p.phases[w].pushed)
  {
    hide Queued, Running, Uncounted;
    UncountedRuns(p.phases);
    NothingQueued(p.deques);
    AllLate(p.phases);
  }

  // Two workers, one task: the first worker takes it and pushes another one, which the second steals and handles
  // before the first has counted it.
  function Scene(k: nat): Pool {
    if k == 0 then Pool(1, [[0], []], [Checking, Checking], multiset{0}, multiset{})
    else if k == 1 then Pool(1, [[0], []], [Popping, Checking], multiset{0}, multiset{})
    else if k == 2 then Pool(1, [[], []], [Handling(0, false), Checking], multiset{0}, multiset{})
    else if k == 3 then Pool(1, [[1], []], [Handling(0, true), Checking], multiset{0, 1}, multiset{})
    else if k == 4 then Pool(1, [[1], []], [Handling(0, true), Popping], multiset{0, 1}, multiset{})
    else if k == 5 then Pool(1, [[1], []], [Handling(0, true), Stealing], multiset{0, 1}, multiset{})
    else if k == 6 then Pool(1, [[1], []], [Handling(0, true), Robbing], multiset{0, 1}, multiset{})
    else if k == 7 then Pool(1, [[], []], [Handling(0, true), Handling(1, false)], multiset{0, 1}, multiset{})
    else Pool(0, [[], []], [Handling(0, true), Checking], multiset{0, 1}, multiset{1})
  }

  function SceneMove(k: nat): Move {
    if k == 0 then Read(0) else if k == 1 then Pop(0) else if k == 2 then Push(0, 1)
    else if k == 3 then Read(1) else if k == 4 then Pop(1) else if k == 5 then Read(1)
    else if k == 6 then Rob(1, 0) else Finish(1)
  }

  lemma SceneStep(k: nat)
    requires k < 8
    ensures Possible(Scene(k), SceneMove(k)) && Next(Scene(k), SceneMove(k)) == Scene(k + 1)
  {
    if k < 4 {
      SceneEarly(k);
    } else {
      SceneLate(k);
    }
  }

  lemma SceneEarly(k: nat)
    requires k < 4
    ensures Possible(Scene(k), SceneMove(k)) && Next(Scene(k), SceneMove(k)) == Scene(k + 1)
  {
    var p, q := Next(Scene(k), SceneMove(k)), Scene(k + 1);
    assert [0 as Task][1..] == [] && [] + [1 as Task] == [1];
    assert p.phases == q.phases && p.deques == q.deques;
  }

  lemma SceneLate(k: nat)
    requires 4 <= k < 8
    ensures Possible(Scene(k), SceneMove(k)) && Next(Scene(k), SceneMove(k)) == Scene(k + 1)
  {
    var p, q := Next(Scene(k), SceneMove(k)), Scene(k + 1);
    assert [1 as Task][1..] == [];
    assert p.phases == q.phases && p.deques == q.deques;
  }

  lemma {:induction false} SceneRuns(k: nat) returns (moves: seq<Move>)
    requires k <= 8
    ensures Runs(Scene(k), moves, Scene(8))
    decreases 8 - k
  {
    hide Scene, SceneMove, Next, Possible;
    if k == 8 {
      moves := [];
    } else {
      SceneStep(k);
      var rest := SceneRuns(k + 1);
      moves := [SceneMove(k)] + rest;
      RunsCons(Scene(k), SceneMove(k), rest, Scene(8));
    }
  }

  // The counter does read 0 while a task is being handled.
  lemma CounterMayReadZero() returns (first: Pool, moves: seq<Move>, last: Pool)
    ensures Ok(first) && (forall w :: 0 <= w < |first.phases| ==> first.phases[w].Checking?) && Runs(first, moves, last)
    ensures last.counter == 0 && exists w :: 0 <= w < |last.phases| && last.phases[w].Handling?
  {
    hide Scene, Runs, Ok;
    moves := SceneRuns(0);
    first, last := Scene(0), Scene(8);
    SceneFirst();
    SceneLast();
  }

  lemma SceneFirst()
    ensures Ok(Scene(0)) && forall w :: 0 <= w < |Scene(0).phases| ==> Scene(0).phases[w].Checking?
  {
    var p := Scene(0);
    assert p.deques[1..] == [[]] && p.deques[1..][1..] == [] && p.deques[0] == [0];
    assert Queued(p.deques) == multiset([0 as Task]) == multiset{0 as Task};
    NobodyRuns(p.phases);
  }

  lemma SceneLast()
    ensures Scene(8).counter == 0 && exists w :: 0 <= w < |Scene(8).phases| && Scene(8).phases[w].Handling?
  {
    hide Ok, Runs;
    var p := Scene(8);
    assert p.phases[0].Handling?;
  }

  lemma RunsCons(p: Pool, m: Move, moves: seq<Move>, last: Pool)
    requires Possible(p, m) && Runs(Next(p, m), moves, last)
    ensures Runs(p, [m] + moves, last)
  {
    assert ([m] + moves)[1..] == moves;
  }

  // ----- Choosing a victim -----

  const SIZE_MAX: nat := 0xFFFF_FFFF_FFFF_FFFF

  function Bump(cursor: nat): nat {
    if cursor >= SIZE_MAX then 0 else cursor + 1
  }

  // The cursor of the thief after it has chosen; the victim is the cursor modulo the number of workers.
  function Choose(cursor: nat, self: nat, count: nat): nat
    requires self < count
  {
    if Bump(cursor) % count == self then Bump(Bump(cursor)) else Bump(cursor)
  }

  function After(v: nat, count: nat): nat {
    if v + 1 == count then 0 else v + 1
  }

  // A thief goes through the others in order: the next victim is the one after, or the one after itself.  It robs
  // itself only when it is alone, or when the cursor wraps round between the two increments.
  lemma VictimsInOrder(cursor: nat, self: nat, count: nat)
    requires self < count && cursor <= SIZE_MAX
    ensures var victim, next := Choose(cursor, self, count) % count, After(cursor % count, count);
            cursor + 2 <= SIZE_MAX ==> victim == if next == self then After(next, count) else next
    ensures Choose(cursor, self, count) % count == self
       <==> count == 1 || (cursor == SIZE_MAX - 1 && self == 0 && SIZE_MAX % count == 0)
  {
    ModuloNext(cursor, count);
    ModuloNext(cursor + 1, count);
    ModuloIs(0, count, 0, 0);
    if count > 1 {
      ModuloIs(1, count, 0, 1);
    }
  }

  lemma ModuloNext(a: nat, n: nat)
    requires n > 0
    ensures (a + 1) % n == After(a % n, n)
  {
    var q, r := a / n, a % n;
    assert a == n * q + r;
    if r + 1 == n {
      assert a + 1 == n * (q + 1) + 0;
      ModuloIs(a + 1, n, q + 1, 0);
    } else {
      assert a + 1 == n * q + (r + 1);
      ModuloIs(a + 1, n, q, r + 1);
    }
  }

  lemma ModuloIs(a: nat, n: nat, q: nat, r: nat)
    requires n > 0 && r < n && a == n * q + r
    ensures a % n == r
  {
    var d: int := a / n - q;
    assert n * d == r - a % n;
    if d > 0 {
      NoLess(n, d);
    } else if d < 0 {
      NoLess(n, -d);
    }
  }

  lemma NoLess(n: nat, d: nat)
    requires d > 0
    ensures n * d >= n
  {
  }
}
