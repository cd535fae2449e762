/**
 What any number of workers make of a program, whatever the interleaving.
 */
module ParallelRuns {
  import opened Links
  import opened Script
  import opened Machine
  import opened Net
  import opened Confluence
  import opened Heap
  import opened Race
  import opened Plans
  import opened Parallel
  import opened ParallelOk
  import opened ParallelTake
  import opened ParallelBuild
  import opened ParallelNodes
  import opened ParallelConnect
  import opened ParallelFuze
  import opened ParallelMeet
  import opened ParallelStart
  import opened ParallelWork
  import opened ParallelTraced

  // ----- One move -----

  lemma ActKeeps(sys: System, held: set<End>, s: Shared, v: View, t: nat) returns (v': View)
    requires Ok(sys, held, s, v) && CanAct(s, v, t)
    ensures Ok(sys, held, Act(s, t), v') && v'.net == v.net
    ensures Traced(s.cells, v.net, v.links) ==> Traced(Act(s, t).cells, v'.net, v'.links)
  {
    hide Ok, Act, BuildOk, Carried, Doing, Traced;
    ActFacts(sys, held, s, v, t);
    ActTraced(sys, held, s, v, t);
    match s.workers[t].script[0]
    case NewWire(x) =>
      NewWireKeeps(sys, held, s, v, t, x);
      v' := v.(builds := v.builds[t := Perform(v.builds[t], NewWire(x))], created := v.created + {x});
    case Begin(n, ctor) =>
      BeginKeeps(sys, held, s, v, t, n, ctor);
      v' := v.(builds := v.builds[t := Perform(v.builds[t], Begin(n, ctor))]);
    case Fill(n, i, e) =>
      FillKeeps(sys, held, s, v, t, n, i, e);
      v' := v.(builds := v.builds[t := Perform(v.builds[t], Fill(n, i, e))]);
    case Finish(n) =>
      FinishKeeps(sys, held, s, v, t, n);
      v' := v.(builds := v.builds[t := Perform(v.builds[t], Finish(n))]);
    case Join(l, r) =>
      JoinKeeps(sys, held, s, v, t, l, r);
      v' := v.(builds := v.builds[t := Perform(v.builds[t], Join(l, r))], at := Moved(v.at, l, r, Flying(t)));
  }

  lemma ActTraced(sys: System, held: set<End>, s: Shared, v: View, t: nat)
    requires Ok(sys, held, s, v) && CanAct(s, v, t)
    ensures Traced(s.cells, v.net, v.links) ==> Traced(Act(s, t).cells, v.net, v.links)
  {
    hide Ok, Act, Traced;
    ActCells(s, t);
    if Traced(s.cells, v.net, v.links) && s.workers[t].script[0].NewWire? {
      var x := s.workers[t].script[0].wire;
      TracedNewWire(sys, held, s, v, t, x);
      TracedFewer(s.cells[x := None], Act(s, t).cells, v.net, v.links);
    }
  }

  lemma ExchangeKeeps(sys: System, held: set<End>, s: Shared, v: View, t: nat, e: End, value: End) returns (v': View)
    requires Ok(sys, held, s, v) && Exchanging(s, v, t, e, value)
    ensures Ok(sys, held, Exchange(s, t, e, value), v') && v'.net == v.net
    ensures Traced(s.cells, v.net, v.links) ==> Traced(Exchange(s, t, e, value).cells, v'.net, v'.links)
  {
    hide Ok, Exchange, BuildOk, Carried, Traced;
    ExchangeFacts(sys, held, s, v, t, e, value);
    if Traced(s.cells, v.net, v.links) {
      ExchangeTraced(sys, held, s, v, t, e, value);
    }
    if s.cells[e.wire].None? {
      WinKeeps(sys, held, s, v, t, e, value);
      v' := v.(at := Moved(v.at, e, value, Stored));
    } else {
      LoseKeeps(sys, held, s, v, t, e, value);
      v' := v.(links := Taken(v.links, e), at := TakenAt(v.links, v.at, e, t));
    }
  }

  lemma ExchangeTraced(sys: System, held: set<End>, s: Shared, v: View, t: nat, e: End, value: End)
    requires Ok(sys, held, s, v) && Exchanging(s, v, t, e, value) && Traced(s.cells, v.net, v.links)
    requires e.wire in s.cells
    ensures s.cells[e.wire].None? ==> Traced(Exchange(s, t, e, value).cells, v.net, v.links)
    ensures s.cells[e.wire].Some? ==>
              e in v.links && e.Mate() in v.links && Traced(Exchange(s, t, e, value).cells, v.net, Taken(v.links, e))
  {
    hide Ok, Exchange, Traced, Taken;
    ExchangeCells(s, t, e, value);
    var after := Exchange(s, t, e, value).cells;
    if s.cells[e.wire].None? {
      TracedFewer(s.cells, after, v.net, v.links);
    } else {
      LosingBoth(sys, held, s, v, t, e, value);
      TracedTaken(s.cells, v.net, v.links, e);
      TracedFewer(s.cells - {e.wire}, after, v.net, Taken(v.links, e));
    }
  }

  lemma Lengths(sys: System, held: set<End>, s: Shared, v: View)
    requires Ok(sys, held, s, v)
    ensures |s.workers| == |v.builds| == |v.ins|
  {
  }

  lemma ContinueKeeps(sys: System, held: set<End>, s: Shared, v: View, t: nat) returns (v': View)
    requires Ok(sys, held, s, v) && t < |s.workers| && s.workers[t].Building?
    ensures Ok(sys, held, Continue(sys, s, t), v') && v'.net == v.net
    ensures Traced(s.cells, v.net, v.links) ==> Traced(Continue(sys, s, t).cells, v'.net, v'.links)
  {
    hide Ok, Act, Exchange, Parallel.Meet, Free, Publish, MeetClaims, NewTask, PublishClaims, Moved, TaskFor, Traced;
    Lengths(sys, held, s, v);
    OtherCells(s, t);
    var w := s.workers[t];
    match w.pending
    case Connecting(l, r) =>
      if l.Principal? && r.Principal? {
        MeetKeeps(sys, held, s, v, t, l, r);
        MeetCells(sys, s, t, l, r);
        v' := v.(at := Moved(v.at, l, r, Met), claims := MeetClaims(v.claims, NewTask(sys, v.net, l, r), t));
      } else if l.WireEnd? {
        v' := ExchangeKeeps(sys, held, s, v, t, l, r);
      } else {
        v' := ExchangeKeeps(sys, held, s, v, t, r, l);
      }
    case Freeing(x, l, r) =>
      FreeKeeps(sys, held, s, v, t, x, l, r);
      v' := v;
    case Quiet =>
      if w.found != {} && w.open.None? {
        PublishKeeps(sys, held, s, v, t);
        v' := v.(claims := PublishClaims(v.claims, w.found));
      } else if w.script == [] {
        StopKeeps(sys, held, s, v, t);
        v' := v;
      } else {
        v' := ActKeeps(sys, held, s, v, t);
      }
  }

  // Only the release of the second node changes the net, and that by one interaction.
  lemma ReadingKeeps(sys: System, held: set<End>, s: Shared, v: View, t: nat) returns (v': View, tasks: seq<Task>)
    requires Ok(sys, held, s, v) && t < |s.workers| && s.workers[t].Reading? && s.workers[t].locked
    ensures Ok(sys, held, Read(sys, s, t), v') && Handles(sys, v.net, tasks, v'.net)
    ensures Work(Read(sys, s, t)) < Work(s) + TotalWeight(sys, v.net, tasks)
    ensures Traced(s.cells, v.net, v.links) ==> Traced(Read(sys, s, t).cells, v'.net, v'.links)
  {
    hide Ok, Release, ReadSlot, Handles, TotalWeight, Work, BodyScript, TaskScript, Traced;
    ReadCells(sys, s, t);
    WorkFacts(sys, held, s, v);
    ReadNode(sys, held, s, v, t);
    Lengths(sys, held, s, v);
    var n := Current(s.workers[t]);
    if s.workers[t].index < s.nodes[n].ctor.Arity() {
      ReadKeeps(sys, held, s, v, t);
      ReadWork(s, t, n);
      v', tasks := v, [];
      NothingHandled(sys, v.net);
    } else if !s.workers[t].second {
      FirstKeeps(sys, held, s, v, t, n);
      ReleaseAt(sys, held, s, v, t, n);
      ReleaseWork(sys, s, t, n);
      v', tasks := v, [];
      NothingHandled(sys, v.net);
    } else {
      SecondKeeps(sys, held, s, v, t, n);
      var f := s.workers[t].job;
      StartingIn(sys, held, v, t, f);
      v', tasks := Interacted(sys, v, t, f, s.workers[t].ends), [f.task];
      OneInteraction(sys, held, v, t, f);
      if Traced(s.cells, v.net, v.links) {
        TracedInteract(sys, s.cells, v.net, v.links, f.task.left, f.task.right);
      }
      StartScript(sys, held, s, v, t, n);
      ReleaseAt(sys, held, s, v, t, n);
      ReleaseWork(sys, s, t, n);
      OneWeight(sys, v.net, f.task);
    }
  }

  lemma NothingHandled(sys: System, net: Net)
    ensures Handles(sys, net, [], net) && TotalWeight(sys, net, []) == 0
  {
  }

  lemma OneInteraction(sys: System, held: set<End>, v: View, t: nat, f: Found)
    requires Starting(sys, held, v, t, f)
    ensures Handles(sys, v.net, [f.task], Interact(sys, v.net, f.task.left, f.task.right))
  {
    hide FindRule, TaskEffect, Partner;
    StartingReady(sys, held, v, t, f);
    assert [f.task][1..] == [];
  }

  lemma MoveKeeps(sys: System, held: set<End>, s: Shared, v: View, m: Move) returns (v': View, tasks: seq<Task>)
    requires Ok(sys, held, s, v) && Possible(s, m)
    ensures Ok(sys, held, Do(sys, s, m), v') && Handles(sys, v.net, tasks, v'.net)
    ensures Work(Do(sys, s, m)) < Work(s) + TotalWeight(sys, v.net, tasks)
    ensures Traced(s.cells, v.net, v.links) ==> Traced(Do(sys, s, m).cells, v'.net, v'.links)
  {
    hide Ok, Read, Continue, LockNode, TotalWeight, Work, Handles, Traced;
    tasks := [];
    NothingHandled(sys, v.net);
    WorkFacts(sys, held, s, v);
    match m
    case TakeMove(t, f) =>
      TakeWork(s, t, f);
      TakeKeeps(sys, held, s, v, t, f);
      v' := v.(claims := v.claims[f := ReadBy(t)]);
    case GoMove(t) =>
      if s.workers[t].Building? {
        v' := ContinueKeeps(sys, held, s, v, t);
        WorkFacts(sys, held, Continue(sys, s, t), v');
        ContinueWork(sys, s, t);
      } else if s.workers[t].locked {
        v', tasks := ReadingKeeps(sys, held, s, v, t);
      } else {
        LockKeeps(sys, held, s, v, t);
        ReadNode(sys, held, s, v, t);
        LockWork(s, t);
        ReadCells(sys, s, t);
        v' := v;
      }
  }

  lemma {:induction false} HandlesConcat(sys: System, net: Net, ts: seq<Task>, mid: Net, us: seq<Task>, last: Net)
    requires Handles(sys, net, ts, mid) && Handles(sys, mid, us, last)
    ensures Handles(sys, net, ts + us, last)
    ensures TotalWeight(sys, net, ts + us) == TotalWeight(sys, net, ts) + TotalWeight(sys, mid, us)
    decreases |ts|
  {
    hide TaskEffect, FindRule, Replace, Weight;
    if ts == [] {
      assert ts + us == us;
    } else {
      assert (ts + us)[1..] == ts[1..] + us;
      HandlesConcat(sys, Interact(sys, net, ts[0].left, ts[0].right), ts[1..], mid, us, last);
    }
  }

  // Any interleaving is a run of interactions, one after the other.
  lemma {:induction false} RunKeeps(sys: System, held: set<End>, s: Shared, v: View, moves: seq<Move>, last: Shared)
    returns (v': View, tasks: seq<Task>)
    requires Ok(sys, held, s, v) && Runs(sys, s, moves, last)
    ensures Ok(sys, held, last, v') && Handles(sys, v.net, tasks, v'.net)
    ensures |moves| + Work(last) <= Work(s) + TotalWeight(sys, v.net, tasks)
    ensures Traced(s.cells, v.net, v.links) ==> Traced(last.cells, v'.net, v'.links)
    decreases |moves|
  {
    hide Ok, Do, Possible, TotalWeight, Work, Handles, Traced;
    if moves == [] {
      v', tasks := v, [];
      NothingHandled(sys, v.net);
    } else {
      var v1, ts := MoveKeeps(sys, held, s, v, moves[0]);
      var us: seq<Task>;
      v', us := RunKeeps(sys, held, Do(sys, s, moves[0]), v1, moves[1..], last);
      HandlesConcat(sys, v.net, ts, v1.net, us, v'.net);
      tasks := ts + us;
    }
  }

  // ----- The beginning -----

  // A program a worker may run: it uses each end at most once and finishes what it begins.
  ghost predicate Runnable(script: seq<Action>) {
    AllAllowed(Start({}, {}), script) && PerformAll(Start({}, {}), script).open == {}
  }

  function BuildOf(script: seq<Action>): Build
    requires AllAllowed(Start({}, {}), script)
  {
    PerformAll(Start({}, {}), script)
  }

  // The net of the program, and what is left on the stack in the end.
  function NetOf(script: seq<Action>): Net
    requires AllAllowed(Start({}, {}), script)
  {
    AsNet(BuildOf(script))
  }

  function FirstView(script: seq<Action>, count: nat): View
    requires AllAllowed(Start({}, {}), script)
  {
    var net := NetOf(script);
    View(net, net.links, map e | e in net.links :: Planned(0), map[],
         seq(count, i => Start({}, {})), seq(count, i => {}), {})
  }

  lemma RunnableFacts(script: seq<Action>)
    requires Runnable(script)
    ensures Doing(Start({}, {}), {}, script) && Joins(script) == NetOf(script).links
    ensures WellFormed(NetOf(script), BuildOf(script).free) && Matching(NetOf(script).links)
    ensures NetOf(script).dead == {}
    ensures forall e :: e in NetOf(script).links && e.Principal? ==> e.node in NetOf(script).nodes
  {
    hide Held;
    HeldStart({}, {});
    PerformAllHeld(Start({}, {}), {}, script);
    PerformAllMakers(Start({}, {}), script);
    BuildWellFormed(BuildOf(script));
    JoinsFinal(Start({}, {}), {}, script);
    assert map[] + Joins(script) == Joins(script);
    NoDead(NetOf(script), BuildOf(script).free);
  }

  lemma NoDead(net: Net, held: set<End>)
    requires WellFormed(net, held) && net.dead == {}
    ensures Matching(net.links) && forall e :: e in net.links && e.Principal? ==> e.node in net.nodes
  {
  }

  lemma FirstWorkers(script: seq<Action>, count: nat, t: nat)
    requires Runnable(script) && t < count
    ensures WorkerOk(BuildOf(script).free, map[], FirstView(script, count), t, Begun(script, count).workers[t])
  {
    hide Held, WellFormed;
    RunnableFacts(script);
    var s, v, w := Begun(script, count), FirstView(script, count), Begun(script, count).workers[t];
    assert t == 0 ==> w == Building(script, Quiet, {}, None);
    assert t != 0 ==> w == Idle;
    assert Joins([]) == map[];
  }

  lemma FirstPlaced(L: Links)
    requires Matching(L)
    ensures Sound(map[], L, map e | e in L :: Planned(0)) && SamePairing(L, L)
  {
  }

  lemma FirstNodes'(script: seq<Action>, count: nat)
    requires Runnable(script) && count > 0
    ensures NodesOk(map[], NetOf(script), Begun(script, count).workers, FirstView(script, count).builds)
  {
    hide AllAllowed, PerformAll;
    var s, v := Begun(script, count), FirstView(script, count);
    assert s.workers[0] == Building(script, Quiet, {}, None) && v.builds[0] == Start({}, {});
    forall t | 0 < t < count
      ensures s.workers[t] == Idle
    {
    }
    forall n | n in NetOf(script).nodes
      ensures exists t :: 0 <= t < count && (Unbegun(s.workers[t], v.builds[t], n) || HalfRead(s.workers[t], n))
    {
      assert Unbegun(s.workers[0], v.builds[0], n);
    }
  }

  lemma BegunOk(sys: System, script: seq<Action>, count: nat)
    requires GoodSystem(sys) && Runnable(script) && count > 0
    ensures Ok(sys, BuildOf(script).free, Begun(script, count), FirstView(script, count))
  {
    hide WellFormed, Sound, NodesOk, WorkerOk, GoodSystem, SamePairing, AllAllowed, PerformAll, LocksOk, HoldersOk,
      WiresOk, NamesOk;
    var s, v := Begun(script, count), FirstView(script, count);
    RunnableFacts(script);
    FirstPlaced(v.links);
    FirstNodes'(script, count);
    forall t | 0 <= t < |s.workers|
      ensures WorkerOk(BuildOf(script).free, s.cells, v, t, s.workers[t])
    {
      FirstWorkers(script, count, t);
    }
    FirstShared(script, count);
  }

  lemma FirstShared(script: seq<Action>, count: nat)
    requires Runnable(script) && count > 0
    ensures var s, v := Begun(script, count), FirstView(script, count);
            && LocksOk(s.locks, s.workers) && HoldersOk(v.claims, s.queue, s.workers)
            && WiresOk(s.cells, s.freed, v.created, s.workers)
            && NamesOk(s.nodes, v.net, v.created, s.workers, v.builds)
  {
    hide AllAllowed, PerformAll;
    var s := Begun(script, count);
    assert s.workers[0].Building? && s.workers[0].pending.Quiet?;
    forall t | 0 < t < count
      ensures s.workers[t] == Idle
    {
    }
  }

  lemma Reached(sys: System, script: seq<Action>, count: nat, moves: seq<Move>, s: Shared)
    returns (held: set<End>, v: View, tasks: seq<Task>)
    requires GoodSystem(sys) && Runnable(script) && count > 0 && Runs(sys, Begun(script, count), moves, s)
    ensures Ok(sys, held, s, v) && Handles(sys, NetOf(script), tasks, v.net)
    ensures WellFormed(NetOf(script), held) && held == BuildOf(script).free
    ensures |moves| <= Work(Begun(script, count)) + TotalWeight(sys, NetOf(script), tasks)
    ensures Traced(s.cells, v.net, v.links)
  {
    hide Ok, Do, Possible, WellFormed, TotalWeight, Work, Handles;
    held := BuildOf(script).free;
    RunnableFacts(script);
    BegunOk(sys, script, count);
    v, tasks := RunKeeps(sys, BuildOf(script).free, Begun(script, count), FirstView(script, count), moves, s);
  }

  // ----- What no interleaving does -----

  // No wire is used or freed after it was freed, no node is read that is not complete, no slot is filled without
  // the lock, and building a node never finds a second task.
  lemma NeverFaults(sys: System, script: seq<Action>, count: nat, moves: seq<Move>, s: Shared)
    requires GoodSystem(sys) && Runnable(script) && count > 0 && Runs(sys, Begun(script, count), moves, s)
    ensures !s.fault
  {
    hide *;
    var held, v, tasks := Reached(sys, script, count, moves, s);
    NoFault(sys, held, s, v);
  }

  lemma NoFault(sys: System, held: set<End>, s: Shared, v: View)
    requires Ok(sys, held, s, v)
    ensures !s.fault
  {
  }

  // A worker that has the lock to read a node sees all its slots, each with what the builder put there.
  lemma ReadsComplete(sys: System, script: seq<Action>, count: nat, moves: seq<Move>, s: Shared, t: nat)
    requires GoodSystem(sys) && Runnable(script) && count > 0 && Runs(sys, Begun(script, count), moves, s)
    requires t < |s.workers| && s.workers[t].Reading? && s.workers[t].locked
    ensures Current(s.workers[t]) in s.nodes && s.nodes[Current(s.workers[t])].Complete()
  {
    hide Ok, Runs, Begun, GoodSystem, Runnable;
    var held, v, tasks := Reached(sys, script, count, moves, s);
    ReadNode(sys, held, s, v, t);
  }

  // No worker ever holds two locks.
  lemma OneLock(sys: System, script: seq<Action>, count: nat, moves: seq<Move>, s: Shared, m: NodeId, n: NodeId)
    requires GoodSystem(sys) && Runnable(script) && count > 0 && Runs(sys, Begun(script, count), moves, s)
    requires m in s.locks && n in s.locks && s.locks[m] == s.locks[n]
    ensures m == n
  {
    hide Ok, Runs, Begun, GoodSystem, Runnable;
    var held, v, tasks := Reached(sys, script, count, moves, s);
    LockOwner(sys, held, s, v, m);
    LockOwner(sys, held, s, v, n);
  }

  lemma LockOwner(sys: System, held: set<End>, s: Shared, v: View, n: NodeId)
    requires Ok(sys, held, s, v) && n in s.locks
    ensures s.locks[n] < |s.workers| && HasLock(s.workers[s.locks[n]], n)
  {
  }

  // The tasks that have been found and not been handled: queued, just found, or being read.
  predicate Holds(s: Shared, h: Holder, f: Found) {
    HolderOk(s.queue, s.workers, f, h)
  }

  // Every node is in at most one of them, and each of them is in one place only.
  lemma TasksApart(sys: System, script: seq<Action>, count: nat, moves: seq<Move>, s: Shared,
                   h: Holder, f: Found, h': Holder, g: Found)
    requires GoodSystem(sys) && Runnable(script) && count > 0 && Runs(sys, Begun(script, count), moves, s)
    requires Holds(s, h, f) && Holds(s, h', g) && Shares(f, g)
    ensures f == g && h == h'
  {
    hide Ok, Runs, Begun, GoodSystem, Runnable, HolderOk;
    var held, v, tasks := Reached(sys, script, count, moves, s);
    HeldOnce(sys, held, s, v, h, f);
    HeldOnce(sys, held, s, v, h', g);
    ClaimsApart(sys, held, s, v, f, g);
  }

  lemma HeldOnce(sys: System, held: set<End>, s: Shared, v: View, h: Holder, f: Found)
    requires Ok(sys, held, s, v) && HolderOk(s.queue, s.workers, f, h)
    ensures f in v.claims && v.claims[f] == h
  {
    hide NetOk, Sound, NodesOk, LocksOk, NamesOk, WiresOk, SlotsLive, Alive, ClaimsOk, Carried, BuildOk;
    if h.ReadBy? {
      OneWorker(held, s.cells, v, s.workers, h.worker);
    }
  }

  lemma ClaimsApart(sys: System, held: set<End>, s: Shared, v: View, f: Found, g: Found)
    requires Ok(sys, held, s, v) && f in v.claims && g in v.claims && Shares(f, g)
    ensures f == g
  {
    hide NetOk, Sound, NodesOk, LocksOk, NamesOk, WiresOk, SlotsLive, Alive, AllWorkersOk, HoldersOk, ClaimOk;
    assert v.claims[f] == v.claims[f] && v.claims[g] == v.claims[g];
  }

  // ----- Nobody waits for ever -----

  // As long as somebody is busy or a task is queued, some worker can move; while anybody is busy, a busy one can.
  lemma Progress(sys: System, script: seq<Action>, count: nat, moves: seq<Move>, s: Shared) returns (m: Move)
    requires GoodSystem(sys) && Runnable(script) && count > 0 && Runs(sys, Begun(script, count), moves, s)
    requires !AtEnd(s)
    ensures Possible(s, m)
    ensures (exists t :: 0 <= t < |s.workers| && !s.workers[t].Idle?) ==> m.GoMove?
  {
    hide Ok, Runs, GoodSystem, Runnable, HolderOk;
    var held, v, tasks := Reached(sys, script, count, moves, s);
    SameCount(sys, Begun(script, count), moves, s);
    if t :| 0 <= t < |s.workers| && !s.workers[t].Idle? {
      if Enabled(s, t) {
        m := GoMove(t);
      } else {
        var n := Current(s.workers[t]);
        LockOwner(sys, held, s, v, n);
        m := GoMove(s.locks[n]);
      }
    } else {
      assert s.workers[0] in s.workers;
      var f :| f in s.queue;
      m := TakeMove(0, f);
    }
  }

  lemma ActCount(s: Shared, t: nat)
    requires t < |s.workers| && s.workers[t].Building? && s.workers[t].script != []
    ensures |Act(s, t).workers| == |s.workers|
  {
  }

  lemma ConnectCount(sys: System, s: Shared, t: nat, l: End, r: End)
    requires t < |s.workers| && s.workers[t].Building?
    ensures |Connect(sys, s, t, l, r).workers| == |s.workers|
  {
    hide TaskFor, Ctors;
  }

  lemma ContinueCount(sys: System, s: Shared, t: nat)
    requires t < |s.workers| && s.workers[t].Building?
    ensures |Continue(sys, s, t).workers| == |s.workers|
  {
    hide Act, Connect;
    var w := s.workers[t];
    if w.pending.Connecting? {
      ConnectCount(sys, s, t, w.pending.left, w.pending.right);
    } else if w.script != [] {
      ActCount(s, t);
    }
  }

  lemma DoCount(sys: System, s: Shared, m: Move)
    requires Possible(s, m)
    ensures |Do(sys, s, m).workers| == |s.workers|
  {
    hide BodyScript, Continue;
    if m.GoMove? && s.workers[m.worker].Building? {
      ContinueCount(sys, s, m.worker);
    }
  }

  lemma {:induction false} SameCount(sys: System, s: Shared, moves: seq<Move>, last: Shared)
    requires Runs(sys, s, moves, last)
    ensures |last.workers| == |s.workers|
    decreases |moves|
  {
    hide Do, Possible;
    if moves != [] {
      DoCount(sys, s, moves[0]);
      SameCount(sys, Do(sys, s, moves[0]), moves[1..], last);
    }
  }

  // What the program gives rise to, and nothing for the workers that wait.
  lemma FirstWork(script: seq<Action>, count: nat)
    requires count > 0
    ensures Work(Begun(script, count)) == 1 + ScriptSize(script)
  {
    hide ScriptSize;
    var s := Begun(script, count);
    var idle := seq(count - 1, i => Idle);
    assert s.workers[1..] == idle && s.workers[0] == Building(script, Quiet, {}, None);
    IdleWork(count - 1);
    assert NodeWorks(s) == map[];
  }

  lemma {:induction false} IdleWork(k: nat)
    ensures WorkersWork(seq(k, i => Idle)) == 0
    decreases k
  {
    if k > 0 {
      assert seq(k, i => Idle)[1..] == seq(k - 1, i => Idle);
      IdleWork(k - 1);
    }
  }

  // No interleaving goes on for ever: if the program has a complete run at all, no run of the workers makes more
  // moves than the scripts of the program and of the tasks in that run give rise to.
  lemma RunsEnd(sys: System, script: seq<Action>, count: nat, moves: seq<Move>, s: Shared, tasks: seq<Task>, last: Net)
    requires GoodSystem(sys) && Runnable(script) && count > 0 && Runs(sys, Begun(script, count), moves, s)
    requires Handles(sys, NetOf(script), tasks, last) && Finished(sys, last)
    ensures |moves| <= 1 + ScriptSize(script) + TotalWeight(sys, NetOf(script), tasks)
  {
    hide *;
    RunnableAllowed(script);
    var held, v, done := Reached(sys, script, count, moves, s);
    var rest := OrderDoesNotMatter(sys, NetOf(script), held, tasks, last, done, v.net);
    FirstWork(script, count);
  }

  // ----- The end -----

  lemma IdleCarries(L: Links, at: Places, t: nat, e: End)
    requires Carried(L, at, t, Idle) && e in L && e in at
    ensures at[e] != Planned(t) && at[e] != Flying(t)
  {
    assert Joins([]) == map[];
  }

  // At the end everything that was to be connected is stored in a cell or has met.
  lemma EndPlaces(sys: System, held: set<End>, s: Shared, v: View)
    requires Ok(sys, held, s, v) && AtEnd(s)
    ensures v.at.Keys == v.links.Keys && forall e :: e in v.links ==> v.at[e].Stored? || v.at[e].Met?
  {
    hide NetOk, NodesOk, LocksOk, NamesOk, WiresOk, SlotsLive, Alive, ClaimsOk, CellsAgree, LinksLive, HoldersOk,
      Carried;
    forall e | e in v.links
      ensures v.at[e].Stored? || v.at[e].Met?
    {
      assert e in v.at.Keys;
      if v.at[e].Planned? || v.at[e].Flying? {
        var t := v.at[e].worker;
        OneWorker(held, s.cells, v, s.workers, t);
        assert s.workers[t] in s.workers;
        IdleCarries(v.links, v.at, t, e);
      }
    }
  }

  // Then no task is left: every pair that is ready would have been found and queued.
  lemma EndFinished(sys: System, held: set<End>, s: Shared, v: View)
    requires Ok(sys, held, s, v) && AtEnd(s)
    ensures Finished(sys, v.net)
  {
    hide WellFormed, GoodSystem, Sound, NodesOk, LocksOk, NamesOk, WiresOk, SlotsLive, Alive, AllWorkersOk, HoldersOk,
      ClaimOk,
      Partner, FindRule, Matching;
    EndPlaces(sys, held, s, v);
    NoClaims(v.claims, s.queue, s.workers);
    NetMatching(v.net, held);
    forall l, r
      ensures !Ready(sys, v.net, l, r)
    {
      assert !Claimed(v.claims, l, r);
      if Ready(sys, v.net, l, r) {
        EndReady(sys, held, s, v, l, r);
        assert false;
      }
    }
  }

  lemma NoClaims(claims: map<Found, Holder>, queue: set<Found>, workers: seq<Worker>)
    requires HoldersOk(claims, queue, workers) && queue == {} && forall w :: w in workers ==> w.Idle?
    ensures claims == map[]
  {
    forall t | 0 <= t < |workers|
      ensures workers[t].Idle?
    {
      assert workers[t] in workers;
    }
    assert claims == map[];
  }

  // A pair that is ready has met.
  lemma EndReady(sys: System, held: set<End>, s: Shared, v: View, l: NodeId, r: NodeId)
    requires Ok(sys, held, s, v) && Matching(v.net.links) && Ready(sys, v.net, l, r)
    requires v.at.Keys == v.links.Keys && forall e :: e in v.links ==> v.at[e].Stored? || v.at[e].Met?
    ensures Principal(l) in v.links && v.links[Principal(l)] == Principal(r)
    ensures Principal(l) in v.at && v.at[Principal(l)] == Met
  {
    hide WellFormed, GoodSystem, NodesOk, LocksOk, NamesOk, WiresOk, SlotsLive, Alive, AllWorkersOk, HoldersOk,
      ClaimsOk,
      Partner, FindRule;
    assert Outer(v.net.links, Principal(l));
    FacingHaveMet(s.cells, v.links, v.at, Principal(l));
  }

  // All nodes are complete.
  lemma EndNodes(sys: System, held: set<End>, s: Shared, v: View)
    requires Ok(sys, held, s, v) && AtEnd(s)
    ensures s.nodes == v.net.nodes && s.locks == map[]
  {
    hide WellFormed, GoodSystem, SamePairing, Sound, NamesOk, WiresOk, SlotsLive, Alive, AllWorkersOk, HoldersOk,
      ClaimsOk;
    forall t | 0 <= t < |s.workers|
      ensures s.workers[t].Idle?
    {
      assert s.workers[t] in s.workers;
    }
    assert s.nodes.Keys <= v.net.nodes.Keys;
    forall n | n in v.net.nodes
      ensures n in s.nodes && s.nodes[n] == v.net.nodes[n]
    {
    }
    assert forall n :: n in s.nodes ==> n in s.nodes.Keys;
  }

  // Whatever the interleaving of however many workers, when nobody has anything left to do the nodes are those of
  // a complete sequential run, and what the cells have fused is the same pairing.
  lemma ParallelResult(sys: System, script: seq<Action>, count: nat, moves: seq<Move>, s: Shared)
    returns (handled: seq<Task>, last: Net, fused: Links)
    requires GoodSystem(sys) && Runnable(script) && count > 0
    requires Runs(sys, Begun(script, count), moves, s) && AtEnd(s)
    ensures Handles(sys, NetOf(script), handled, last) && Finished(sys, last)
    ensures WellFormed(last, BuildOf(script).free)
    ensures !s.fault && s.nodes == last.nodes && s.locks == map[]
    ensures SamePairing(last.links, fused) && StoredOnce(s.cells, fused) && NothingElse(s.cells, fused)
    ensures AllLive(s.cells, Ctors(s.nodes), fused) && SlotsRest(s, fused)
    ensures forall n :: n in s.nodes ==> s.nodes[n].Complete()
  {
    hide *;
    RunnableAllowed(script);
    var held, v, ts := Reached(sys, script, count, moves, s);
    RunWellFormed(sys, NetOf(script), held, ts, v.net);
    EndFinished(sys, held, s, v);
    EndNodes(sys, held, s, v);
    NoFault(sys, held, s, v);
    EndCells(sys, held, s, v);
    EndLive(sys, held, s, v);
    EndSlots(sys, held, s, v);
    handled, last, fused := ts, v.net, v.links;
  }

  // So they are those of any complete sequential run, and as many interactions have happened.
  lemma ParallelIsSequential(
    sys: System, script: seq<Action>, count: nat, moves: seq<Move>, s: Shared, tasks: seq<Task>, last: Net)
    returns (handled: seq<Task>, fused: Links)
    requires GoodSystem(sys) && Runnable(script) && count > 0
    requires Runs(sys, Begun(script, count), moves, s) && AtEnd(s)
    requires Handles(sys, NetOf(script), tasks, last) && Finished(sys, last)
    ensures !s.fault && s.nodes == last.nodes && s.locks == map[]
    ensures Handles(sys, NetOf(script), handled, last) && |handled| == |tasks|
    ensures SamePairing(last.links, fused) && StoredOnce(s.cells, fused) && NothingElse(s.cells, fused)
  {
    hide *;
    RunnableAllowed(script);
    var end: Net;
    handled, end, fused := ParallelResult(sys, script, count, moves, s);
    var held, v, ts := Reached(sys, script, count, moves, s);
    UniqueResult(sys, NetOf(script), held, handled, end, tasks, last);
  }

  lemma RunnableAllowed(script: seq<Action>)
    requires Runnable(script)
    ensures AllAllowed(Start({}, {}), script)
  {
  }

  lemma EndCells(sys: System, held: set<End>, s: Shared, v: View)
    requires Ok(sys, held, s, v) && AtEnd(s)
    ensures SamePairing(v.net.links, v.links) && StoredOnce(s.cells, v.links) && NothingElse(s.cells, v.links)
  {
    hide WellFormed, GoodSystem, NodesOk, LocksOk, NamesOk, WiresOk, SlotsLive, Alive, AllWorkersOk, HoldersOk,
      ClaimsOk,
      SamePairing, Matching, LinksLive;
    EndPlaces(sys, held, s, v);
    forall e | e in v.links && (e.WireEnd? || v.links[e].WireEnd?)
      ensures HeldBy(s.cells, e, v.links[e]) != HeldBy(s.cells, v.links[e], e)
    {
      assert v.at[e].Stored?;
    }
  }

  // Every slot holds something that is there and has not been connected.
  ghost predicate SlotsRest(s: Shared, L: Links) {
    forall n, i {:trigger s.nodes[n].slots[i]} :: n in s.nodes && i in s.nodes[n].slots ==>
      Live(s.cells, Ctors(s.nodes), s.nodes[n].slots[i])
      && (s.nodes[n].slots[i].WireEnd? ==> s.nodes[n].slots[i] !in L)
  }

  lemma EndSlots(sys: System, held: set<End>, s: Shared, v: View)
    requires Ok(sys, held, s, v) && AtEnd(s)
    ensures SlotsRest(s, v.links) && forall n :: n in s.nodes ==> s.nodes[n].Complete()
  {
    hide Ok, AtEnd;
    EndNodes(sys, held, s, v);
    forall n | n in s.nodes
      ensures s.nodes[n].Complete() && s.nodes[n].WellBuilt(n)
    {
      NetAt(sys, held, s, v, n);
    }
    forall n, i | n in s.nodes && i in s.nodes[n].slots
      ensures Live(s.cells, Ctors(s.nodes), s.nodes[n].slots[i])
      ensures s.nodes[n].slots[i].WireEnd? ==> s.nodes[n].slots[i] !in v.links
    {
      SlotInNet(sys, held, s, v, n, i);
      SlotWire(sys, held, s, v, n, i);
    }
  }

  lemma NetAt(sys: System, held: set<End>, s: Shared, v: View, n: NodeId)
    requires Ok(sys, held, s, v) && n in v.net.nodes
    ensures v.net.nodes[n].Complete() && v.net.nodes[n].WellBuilt(n)
  {
    hide Placed, Conserved, Fresh, SamePairing, GoodSystem, Sound, NodesOk, LocksOk, NamesOk, WiresOk, SlotsLive, Alive,
      AllWorkersOk, HoldersOk, ClaimsOk;
  }

  lemma SlotWire(sys: System, held: set<End>, s: Shared, v: View, n: NodeId, i: nat)
    requires Ok(sys, held, s, v) && n in s.nodes && i in s.nodes[n].slots
    ensures s.nodes[n].slots[i].WireEnd? ==> s.nodes[n].slots[i].wire in s.cells
  {
    hide NetOk, Sound, NodesOk, LocksOk, NamesOk, WiresOk, Alive, AllWorkersOk, HoldersOk, ClaimsOk;
  }

  lemma EndLive(sys: System, held: set<End>, s: Shared, v: View)
    requires Ok(sys, held, s, v) && AtEnd(s)
    ensures AllLive(s.cells, Ctors(s.nodes), v.links)
  {
    hide WellFormed, GoodSystem, NodesOk, LocksOk, NamesOk, WiresOk, SlotsLive, AllWorkersOk, HoldersOk, ClaimsOk,
      SamePairing, CellsAgree, AtEnd;
    EndPlaces(sys, held, s, v);
    EndNodes(sys, held, s, v);
    forall e | e in v.links && (e.WireEnd? || v.links[e].WireEnd?)
      ensures Live(s.cells, Ctors(s.nodes), e)
    {
      assert e in v.at.Keys && v.links[e] in v.links.Keys;
      assert v.at[v.links[e]] == v.at[e] && v.at[e].Stored?;
    }
  }
}
