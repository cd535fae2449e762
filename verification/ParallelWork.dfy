/**
 The work that is still to be done: every move uses some of it up, and only the start of a body brings new work.
 */
module ParallelWork {
  import opened Links
  import opened Script
  import opened Machine
  import opened Net
  import opened Confluence
  import opened Heap
  import opened Plans
  import opened Parallel
  import opened ParallelOk
  import opened ParallelTake
  import opened ParallelStart

  // ----- What is still to be done -----

  // A node has to be locked, read slot by slot, and given back.
  function NodeWork(s: Shared, n: NodeId): nat
    requires n in s.nodes
  {
    var all := s.nodes[n].ctor.Arity() + 2;
    if n in s.locks && s.locks[n] < |s.workers| && s.workers[s.locks[n]].Reading?
    then Less(all, s.workers[s.locks[n]].index + 1) else all
  }

  function Less(a: nat, b: nat): nat {
    if a > b then a - b else 0
  }

  function PendingWork(p: Pending): nat {
    match p
    case Quiet => 0
    case Connecting(_, _) => 3
    case Freeing(_, _, _) => 4
  }

  function WorkerWork(w: Worker): nat {
    if w.Building? then 1 + ScriptSize(w.script) + PendingWork(w.pending) + 2 * |w.found| else 0
  }

  function WorkersWork(workers: seq<Worker>): nat {
    if workers == [] then 0 else WorkerWork(workers[0]) + WorkersWork(workers[1..])
  }

  function NodeWorks(s: Shared): map<NodeId, nat> {
    map n | n in s.nodes :: NodeWork(s, n)
  }

  ghost function Sum(m: map<NodeId, nat>): nat
    decreases |m|
  {
    if m == map[] then 0
    else
      var n :| n in m;
      Fewer(m, n);
      m[n] + Sum(m - {n})
  }

  lemma Fewer(m: map<NodeId, nat>, n: NodeId)
    requires n in m
    ensures |m - {n}| < |m|
  {
    assert (m - {n}).Keys == m.Keys - {n};
    assert |m| == |m.Keys| && |m - {n}| == |(m - {n}).Keys|;
  }

  ghost function Work(s: Shared): nat {
    2 * |s.cells| + Sum(NodeWorks(s)) + |s.queue| + WorkersWork(s.workers)
  }

  lemma {:induction false} SumWithout(m: map<NodeId, nat>, n: NodeId)
    requires n in m
    ensures Sum(m) == m[n] + Sum(m - {n})
    decreases |m|
  {
    var k :| k in m && Sum(m) == m[k] + Sum(m - {k});
    if k != n {
      Fewer(m, k);
      Fewer(m, n);
      SumWithout(m - {k}, n);
      SumWithout(m - {n}, k);
      assert m - {k} - {n} == m - {n} - {k};
    }
  }

  lemma {:induction false} WorkersUpdate(workers: seq<Worker>, t: nat, w: Worker)
    requires t < |workers|
    ensures WorkersWork(workers[t := w]) + WorkerWork(workers[t]) == WorkersWork(workers) + WorkerWork(w)
    decreases |workers|
  {
    hide WorkerWork;
    if t == 0 {
      assert workers[t := w][1..] == workers[1..];
    } else {
      assert workers[t := w][1..] == workers[1..][t - 1 := w];
      WorkersUpdate(workers[1..], t - 1, w);
    }
  }

  // ----- Nodes, when one worker moves -----

  predicate OnlyWorker(s: Shared, s': Shared, t: nat) {
    t < |s.workers| && |s'.workers| == |s.workers| && s'.workers == s.workers[t := s'.workers[t]]
  }

  lemma OwnsOnly(s: Shared, t: nat, m: NodeId)
    requires LocksOk(s.locks, s.workers) && t < |s.workers| && m in s.locks && s.locks[m] == t
    ensures HasLock(s.workers[t], m)
  {
  }

  // No node's work changes, except that of `n`.
  lemma OtherWorks(s: Shared, s': Shared, t: nat, n: NodeId)
    requires LocksOk(s.locks, s.workers) && OnlyWorker(s, s', t)
    requires forall m {:trigger s'.nodes[m]} :: m in s'.nodes && m != n ==>
               m in s.nodes && s'.nodes[m].ctor == s.nodes[m].ctor
    requires forall m {:trigger s.nodes[m]} :: m in s.nodes && m != n ==> m in s'.nodes
    requires forall m {:trigger s'.locks[m]} :: m in s'.locks && m != n ==> m in s.locks && s'.locks[m] == s.locks[m]
    requires forall m {:trigger s.locks[m]} :: m in s.locks && m != n ==> m in s'.locks
    requires forall m {:trigger HasLock(s.workers[t], m)} :: HasLock(s.workers[t], m) && m != n ==>
               s.workers[t].Building? && !s'.workers[t].Reading?
    ensures NodeWorks(s') - {n} == NodeWorks(s) - {n}
  {
    forall m | m in s.nodes && m != n
      ensures m in s'.nodes && NodeWork(s', m) == NodeWork(s, m)
    {
      if m in s.locks && s.locks[m] == t {
        OwnsOnly(s, t, m);
      }
    }
    assert (NodeWorks(s') - {n}).Keys == (NodeWorks(s) - {n}).Keys by {
      forall m
        ensures m in s'.nodes && m != n <==> m in s.nodes && m != n
      {
        assert m in s'.nodes && m != n ==> s'.nodes[m].ctor == s.nodes[m].ctor;
      }
    }
  }

  // ----- Taking, locking, reading -----

  lemma TakeWork(s: Shared, t: nat, f: Found)
    requires LocksOk(s.locks, s.workers) && CanTake(s, t, f)
    ensures Work(Take(s, t, f)) < Work(s)
  {
    hide Sum, NodeWorks, WorkersWork;
    var s' := Take(s, t, f);
    WorkersUpdate(s.workers, t, s'.workers[t]);
    NobodysNode(s, s', t);
    assert |s.queue - {f}| == |s.queue| - 1;
  }

  // The worker has no lock, before and after.
  lemma NobodysNode(s: Shared, s': Shared, t: nat)
    requires LocksOk(s.locks, s.workers) && OnlyWorker(s, s', t)
    requires s'.nodes == s.nodes && s'.locks == s.locks
    requires forall m :: !HasLock(s.workers[t], m)
    ensures NodeWorks(s') == NodeWorks(s)
  {
    forall m | m in s.nodes
      ensures NodeWork(s', m) == NodeWork(s, m)
    {
      if m in s.locks && s.locks[m] == t {
        OwnsOnly(s, t, m);
      }
    }
    assert NodeWorks(s').Keys == NodeWorks(s).Keys;
  }

  lemma LockWork(s: Shared, t: nat)
    requires LocksOk(s.locks, s.workers) && Enabled(s, t) && s.workers[t].Reading? && !s.workers[t].locked
    requires Current(s.workers[t]) in s.nodes
    ensures Work(LockNode(s, t)) < Work(s)
  {
    hide Sum, NodeWorks, WorkersWork;
    var s', n := LockNode(s, t), Current(s.workers[t]);
    WorkersUpdate(s.workers, t, s'.workers[t]);
    OtherWorks(s, s', t, n);
    WorkAt(s, s', n);
  }

  // Comparing two sums that agree but for `n`.
  lemma WorkAt(s: Shared, s': Shared, n: NodeId)
    requires n in s.nodes && NodeWorks(s') - {n} == NodeWorks(s) - {n}
    ensures Sum(NodeWorks(s)) == NodeWork(s, n) + Sum(NodeWorks(s) - {n})
    ensures Sum(NodeWorks(s')) == (if n in s'.nodes then NodeWork(s', n) else 0) + Sum(NodeWorks(s) - {n})
  {
    SumWithout(NodeWorks(s), n);
    if n in s'.nodes {
      SumWithout(NodeWorks(s'), n);
    } else {
      assert NodeWorks(s') - {n} == NodeWorks(s');
    }
  }

  lemma ReadWork(s: Shared, t: nat, n: NodeId)
    requires LocksOk(s.locks, s.workers) && t < |s.workers| && s.workers[t].Reading? && s.workers[t].locked
    requires n == Current(s.workers[t]) && n in s.nodes
    requires s.workers[t].index < s.nodes[n].ctor.Arity() && s.workers[t].index in s.nodes[n].slots
    ensures Work(ReadSlot(s, t, n)) < Work(s)
  {
    hide Sum, NodeWorks, WorkersWork;
    var s' := ReadSlot(s, t, n);
    WorkersUpdate(s.workers, t, s'.workers[t]);
    assert HasLock(s.workers[t], n);
    OtherWorks(s, s', t, n);
    WorkAt(s, s', n);
  }

  lemma ReleaseWork(sys: System, s: Shared, t: nat, n: NodeId)
    requires LocksOk(s.locks, s.workers) && t < |s.workers| && s.workers[t].Reading? && s.workers[t].locked
    requires n == Current(s.workers[t]) && n in s.nodes && s.workers[t].index == s.nodes[n].ctor.Arity()
    ensures var w := s.workers[t];
            if w.second
            then Work(Release(sys, s, t, n))
                 <= Work(s) + ScriptSize(BodyScript(sys, w.job.rule, {w.job.task.left, w.job.task.right}, w.ends))
            else Work(Release(sys, s, t, n)) < Work(s)
  {
    hide Sum, NodeWorks, WorkersWork, BodyScript;
    var s' := Release(sys, s, t, n);
    WorkersUpdate(s.workers, t, s'.workers[t]);
    assert HasLock(s.workers[t], n);
    OtherWorks(s, s', t, n);
    WorkAt(s, s', n);
  }

  // ----- Building -----

  // No node's work changes while its builder goes on.
  lemma SameWorks(s: Shared, s': Shared, t: nat)
    requires LocksOk(s.locks, s.workers) && OnlyWorker(s, s', t)
    requires s.workers[t].Building? && !s'.workers[t].Reading? && s'.nodes == s.nodes && s'.locks == s.locks
    ensures NodeWorks(s') == NodeWorks(s)
  {
    forall m | m in s.nodes
      ensures NodeWork(s', m) == NodeWork(s, m)
    {
    }
    assert NodeWorks(s').Keys == NodeWorks(s).Keys;
  }

  // How the sum changes when one worker, the cells, the queue and the nodes change.
  lemma Balance(s: Shared, s': Shared, t: nat)
    requires OnlyWorker(s, s', t)
    ensures Work(s') - Work(s)
         == 2 * (|s'.cells| - |s.cells|) + (Sum(NodeWorks(s')) - Sum(NodeWorks(s))) + (|s'.queue| - |s.queue|)
            + (WorkerWork(s'.workers[t]) - WorkerWork(s.workers[t]))
  {
    hide Sum, NodeWorks, WorkersWork, WorkerWork;
    WorkersUpdate(s.workers, t, s'.workers[t]);
  }

  // The worker has performed the first action of its script.
  predicate Acted(s: Shared, s': Shared, t: nat) {
    && OnlyWorker(s, s', t) && s.workers[t].Building? && s'.workers[t].Building? && s.workers[t].script != []
    && s'.workers[t].script == s.workers[t].script[1..] && s'.workers[t].found == s.workers[t].found
    && s.workers[t].pending.Quiet? && s'.queue == s.queue
  }

  lemma ActedWork(s: Shared, s': Shared, t: nat)
    requires Acted(s, s', t)
    ensures WorkerWork(s.workers[t]) + PendingWork(s'.workers[t].pending)
         == WorkerWork(s'.workers[t]) + Size(s.workers[t].script[0])
  {
  }

  lemma WireActWork(s: Shared, t: nat, x: Wire)
    requires LocksOk(s.locks, s.workers) && t < |s.workers| && s.workers[t].Building? && s.workers[t].script != []
    requires s.workers[t].script[0] == NewWire(x) && s.workers[t].pending.Quiet?
    requires !Act(s, t).fault && !s.fault
    ensures Work(Act(s, t)) < Work(s)
  {
    hide Sum, NodeWorks, WorkersWork, WorkerWork, LocksOk, Work;
    var s' := Act(s, t);
    ActedWork(s, s', t);
    Balance(s, s', t);
    SameWorks(s, s', t);
    MoreCells(s.cells, x, None);
  }

  lemma BeginActWork(s: Shared, t: nat, n: NodeId, ctor: Ctor)
    requires LocksOk(s.locks, s.workers) && t < |s.workers| && s.workers[t].Building? && s.workers[t].script != []
    requires s.workers[t].script[0] == Begin(n, ctor) && s.workers[t].pending.Quiet?
    requires !Act(s, t).fault && !s.fault
    ensures Work(Act(s, t)) < Work(s)
  {
    hide Sum, NodeWorks, WorkersWork, WorkerWork, LocksOk, Work;
    var s' := Act(s, t);
    ActedWork(s, s', t);
    Balance(s, s', t);
    BeginWork(s, s', t, n);
  }

  lemma FillActWork(s: Shared, t: nat, n: NodeId, i: nat, e: End)
    requires LocksOk(s.locks, s.workers) && t < |s.workers| && s.workers[t].Building? && s.workers[t].script != []
    requires s.workers[t].script[0] == Fill(n, i, e) && s.workers[t].pending.Quiet?
    requires !Act(s, t).fault && !s.fault
    ensures Work(Act(s, t)) < Work(s)
  {
    hide Sum, NodeWorks, WorkersWork, WorkerWork, LocksOk, Work;
    var s' := Act(s, t);
    ActedWork(s, s', t);
    Balance(s, s', t);
    FillWork(s, s', t, n);
  }

  lemma FinishActWork(s: Shared, t: nat, n: NodeId)
    requires LocksOk(s.locks, s.workers) && t < |s.workers| && s.workers[t].Building? && s.workers[t].script != []
    requires s.workers[t].script[0] == Finish(n) && s.workers[t].pending.Quiet?
    requires !Act(s, t).fault && !s.fault
    ensures Work(Act(s, t)) < Work(s)
  {
    hide Sum, NodeWorks, WorkersWork, WorkerWork, LocksOk, Work;
    var s' := Act(s, t);
    ActedWork(s, s', t);
    Balance(s, s', t);
    FinishWorks(s, s', t, n);
  }

  lemma JoinActWork(s: Shared, t: nat, l: End, r: End)
    requires LocksOk(s.locks, s.workers) && t < |s.workers| && s.workers[t].Building? && s.workers[t].script != []
    requires s.workers[t].script[0] == Join(l, r) && s.workers[t].pending.Quiet?
    requires !Act(s, t).fault && !s.fault
    ensures Work(Act(s, t)) < Work(s)
  {
    hide Sum, NodeWorks, WorkersWork, WorkerWork, LocksOk, Work;
    var s' := Act(s, t);
    ActedWork(s, s', t);
    Balance(s, s', t);
    SameWorks(s, s', t);
  }

  lemma ActWork(s: Shared, t: nat)
    requires LocksOk(s.locks, s.workers) && t < |s.workers| && s.workers[t].Building? && s.workers[t].script != []
    requires s.workers[t].pending.Quiet? && !Act(s, t).fault && !s.fault
    ensures Work(Act(s, t)) < Work(s)
  {
    hide LocksOk, Work, Act;
    match s.workers[t].script[0]
    case NewWire(x) => WireActWork(s, t, x);
    case Begin(n, ctor) => BeginActWork(s, t, n, ctor);
    case Fill(n, i, e) => FillActWork(s, t, n, i, e);
    case Finish(n) => FinishActWork(s, t, n);
    case Join(l, r) => JoinActWork(s, t, l, r);
  }

  lemma BeginWork(s: Shared, s': Shared, t: nat, n: NodeId)
    requires LocksOk(s.locks, s.workers) && OnlyWorker(s, s', t) && s.workers[t].Building? && s'.workers[t].Building?
    requires n !in s.nodes && n in s'.nodes && s'.nodes == s.nodes[n := s'.nodes[n]]
    requires n !in s.locks && s'.locks == s.locks[n := t]
    ensures Sum(NodeWorks(s')) == s'.nodes[n].ctor.Arity() + 2 + Sum(NodeWorks(s))
  {
    hide Sum, NodeWorks;
    OtherWorks(s, s', t, n);
    NewWork(s, s', n);
  }

  lemma FillWork(s: Shared, s': Shared, t: nat, n: NodeId)
    requires LocksOk(s.locks, s.workers) && OnlyWorker(s, s', t) && s.workers[t].Building? && s'.workers[t].Building?
    requires n in s.nodes && n in s'.nodes && s'.nodes == s.nodes[n := s'.nodes[n]] && s'.locks == s.locks
    requires s'.nodes[n].ctor == s.nodes[n].ctor
    ensures Sum(NodeWorks(s')) == Sum(NodeWorks(s))
  {
    hide Sum, NodeWorks;
    OtherWorks(s, s', t, n);
    WorkAt(s, s', n);
  }

  lemma NewWork(s: Shared, s': Shared, n: NodeId)
    requires n !in s.nodes && n in s'.nodes && NodeWorks(s') - {n} == NodeWorks(s) - {n}
    ensures Sum(NodeWorks(s')) == NodeWork(s', n) + Sum(NodeWorks(s))
  {
    SumWithout(NodeWorks(s'), n);
    assert NodeWorks(s) - {n} == NodeWorks(s);
  }

  lemma FinishWorks(s: Shared, s': Shared, t: nat, n: NodeId)
    requires LocksOk(s.locks, s.workers) && OnlyWorker(s, s', t)
    requires s.workers[t].Building? && s'.workers[t].Building? && s'.nodes == s.nodes && s'.locks == s.locks - {n}
    requires n in s.locks && s.locks[n] == t
    ensures NodeWorks(s') == NodeWorks(s)
  {
    forall m | m in s.nodes
      ensures NodeWork(s', m) == NodeWork(s, m)
    {
    }
    assert NodeWorks(s').Keys == NodeWorks(s).Keys;
  }

  lemma MoreCells(cells: Cells, x: Wire, value: Option<End>)
    ensures x !in cells ==> |cells[x := value]| == |cells| + 1
    ensures x in cells ==> |cells[x := value]| == |cells| && |cells - {x}| == |cells| - 1
  {
    assert cells[x := value].Keys == cells.Keys + {x} && (cells - {x}).Keys == cells.Keys - {x};
    assert |cells[x := value]| == |cells[x := value].Keys| && |cells| == |cells.Keys|;
    assert |cells - {x}| == |(cells - {x}).Keys|;
  }

  lemma ConnectWork(sys: System, s: Shared, t: nat, l: End, r: End)
    requires LocksOk(s.locks, s.workers) && t < |s.workers| && s.workers[t].Building?
    requires s.workers[t].pending == Connecting(l, r) && !Connect(sys, s, t, l, r).fault && !s.fault
    ensures Work(Connect(sys, s, t, l, r)) < Work(s)
  {
    hide Meet, Exchange, Work;
    if l.Principal? && r.Principal? {
      MeetWork(sys, s, t, l, r);
    } else {
      ExchangeWork(s, t, if l.WireEnd? then l else r, if l.WireEnd? then r else l);
    }
  }

  lemma MeetWork(sys: System, s: Shared, t: nat, l: End, r: End)
    requires LocksOk(s.locks, s.workers) && t < |s.workers| && s.workers[t].Building? && l.Principal? && r.Principal?
    requires s.workers[t].pending == Connecting(l, r) && !Meet(sys, s, t, l, r).fault && !s.fault
    ensures Work(Meet(sys, s, t, l, r)) < Work(s)
  {
    hide Work, Sum, NodeWorks, WorkersWork, Meet, ScriptSize, LocksOk;
    var s' := Meet(sys, s, t, l, r);
    MeetOutcome(sys, s, t, l, r);
    Balance(s, s', t);
    SameWorks(s, s', t);
  }

  lemma MeetOutcome(sys: System, s: Shared, t: nat, l: End, r: End)
    requires t < |s.workers| && s.workers[t].Building? && l.Principal? && r.Principal?
    requires !Meet(sys, s, t, l, r).fault && !s.fault
    ensures var s' := Meet(sys, s, t, l, r);
            && s'.cells == s.cells && s'.queue == s.queue && s'.nodes == s.nodes && s'.locks == s.locks
            && OnlyWorker(s, s', t) && s'.workers[t].Building? && s'.workers[t].script == s.workers[t].script
            && s'.workers[t].pending.Quiet? && |s'.workers[t].found| <= |s.workers[t].found| + 1
  {
    hide TaskFor, Ctors;
    var found := TaskFor(sys.rules, Ctors(s.nodes), l, r);
    if found.Some? {
      OneMore(s.workers[t].found, found.value);
    }
  }

  lemma OneMore(found: set<Found>, f: Found)
    ensures |found + {f}| <= |found| + 1
  {
    if f in found {
      assert found + {f} == found;
    }
  }

  lemma ExchangeWork(s: Shared, t: nat, e: End, value: End)
    requires LocksOk(s.locks, s.workers) && t < |s.workers| && s.workers[t].Building? && e.WireEnd?
    requires s.workers[t].pending.Connecting? && !Exchange(s, t, e, value).fault && !s.fault
    ensures Work(Exchange(s, t, e, value)) < Work(s)
  {
    hide Work, Sum, NodeWorks, WorkersWork, ScriptSize, LocksOk;
    var s' := Exchange(s, t, e, value);
    Balance(s, s', t);
    SameWorks(s, s', t);
    MoreCells(s.cells, e.wire, Some(value));
  }

  lemma ContinueWork(sys: System, s: Shared, t: nat)
    requires LocksOk(s.locks, s.workers) && t < |s.workers| && s.workers[t].Building?
    requires !Continue(sys, s, t).fault && !s.fault
    ensures Work(Continue(sys, s, t)) < Work(s)
  {
    hide Work, LocksOk, Act, Connect;
    var w := s.workers[t];
    if w.pending.Connecting? {
      ConnectWork(sys, s, t, w.pending.left, w.pending.right);
    } else if w.pending.Quiet? && !(w.found != {} && w.open.None?) && w.script != [] {
      ActWork(s, t);
    } else if w.pending.Freeing? {
      FreeWork(sys, s, t);
    } else if w.found != {} && w.open.None? {
      PublishWork(sys, s, t);
    } else {
      StopWork(sys, s, t);
    }
  }

  // Freeing a wire, adding a task to the queue, being done.
  lemma FreeWork(sys: System, s: Shared, t: nat)
    requires LocksOk(s.locks, s.workers) && t < |s.workers| && s.workers[t].Building?
    requires s.workers[t].pending.Freeing?
    requires !Continue(sys, s, t).fault && !s.fault
    ensures Work(Continue(sys, s, t)) < Work(s)
  {
    hide Work, Sum, NodeWorks, WorkersWork, Act, Connect, ScriptSize, LocksOk;
    var s' := Continue(sys, s, t);
    Balance(s, s', t);
    SameWorks(s, s', t);
  }

  lemma PublishWork(sys: System, s: Shared, t: nat)
    requires LocksOk(s.locks, s.workers) && t < |s.workers| && s.workers[t].Building?
    requires s.workers[t].pending.Quiet? && s.workers[t].found != {} && s.workers[t].open.None?
    requires !Continue(sys, s, t).fault && !s.fault
    ensures Work(Continue(sys, s, t)) < Work(s)
  {
    hide Work, Sum, NodeWorks, WorkersWork, Act, Connect, ScriptSize, LocksOk;
    var s' := Continue(sys, s, t);
    Balance(s, s', t);
    SameWorks(s, s', t);
    assert |s.queue + s.workers[t].found| <= |s.queue| + |s.workers[t].found|;
  }

  lemma StopWork(sys: System, s: Shared, t: nat)
    requires LocksOk(s.locks, s.workers) && t < |s.workers| && s.workers[t].Building?
    requires s.workers[t].pending.Quiet? && !(s.workers[t].found != {} && s.workers[t].open.None?)
               && s.workers[t].script == []
    requires !Continue(sys, s, t).fault && !s.fault
    ensures Work(Continue(sys, s, t)) < Work(s)
  {
    hide Work, Sum, NodeWorks, WorkersWork, Act, Connect, ScriptSize, LocksOk;
    var s' := Continue(sys, s, t);
    Balance(s, s', t);
    SameWorks(s, s', t);
  }

  // ----- Any move, any run -----

  lemma WorkFacts(sys: System, held: set<End>, s: Shared, v: View)
    requires Ok(sys, held, s, v)
    ensures LocksOk(s.locks, s.workers) && !s.fault
  {
  }

  lemma ReleaseAt(sys: System, held: set<End>, s: Shared, v: View, t: nat, n: NodeId)
    requires Ok(sys, held, s, v) && Releasing(s, v, t, n)
    ensures s.workers[t].index == s.nodes[n].ctor.Arity()
  {
    hide Ok;
    ReleaseFacts(sys, held, s, v, t, n);
  }

  // The start of a body: the ends that were read are those of the two nodes.
  lemma StartScript(sys: System, held: set<End>, s: Shared, v: View, t: nat, n: NodeId)
    requires Ok(sys, held, s, v) && Releasing(s, v, t, n) && s.workers[t].second
    ensures var f := s.workers[t].job;
            && f.task.left in v.net.nodes && f.task.right in v.net.nodes
            && BodyScript(sys, f.rule, {f.task.left, f.task.right}, s.workers[t].ends)
               == TaskScript(sys, v.net, f.task.left, f.task.right)
  {
    hide Ok, BodyScript, FindRule, Ready, NetOk;
    ReleaseFacts(sys, held, s, v, t, n);
    ClaimReady(sys, held, s, v, t);
  }

  lemma OneWeight(sys: System, net: Net, task: Task)
    requires task.left in net.nodes && task.right in net.nodes
    ensures TotalWeight(sys, net, [task]) >= 1 + ScriptSize(TaskScript(sys, net, task.left, task.right))
  {
    hide TaskScript, TaskEffect;
    assert [task][1..] == [];
  }
}
