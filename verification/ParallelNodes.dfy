/**
 Running a body: building nodes under their locks.
 */
module ParallelNodes {
  import opened Links
  import opened Script
  import opened Machine
  import opened Net
  import opened Confluence
  import opened Heap
  import opened Race
  import opened Plans
  import opened Parallel
  import opened ParallelOk
  import opened ParallelTake
  import opened ParallelBuild

  // ----- Beginning a node -----

  lemma BeginName(sys: System, held: set<End>, s: Shared, v: View, t: nat, n: NodeId, ctor: Ctor)
    requires Ok(sys, held, s, v) && CanAct(s, v, t) && s.workers[t].script[0] == Begin(n, ctor)
    ensures n == NodeId(v.builds[t].makers, v.builds[t].next) && s.workers[t].open.None? && s.workers[t].found == {}
    ensures n !in s.nodes && n !in s.locks && n !in v.builds[t].nodes && n in v.net.nodes
    ensures forall t' :: 0 <= t' < |s.workers| ==> !HalfRead(s.workers[t'], n)
  {
    hide NetOk, Sound, SlotsLive, ClaimsOk, Alive, HoldersOk, Carried, OneTask, Held;
    ActFacts(sys, held, s, v, t);
    BeginNotRead(sys, held, s, v, t, n, ctor);
    assert s.workers[t].Building?;
    if n in s.locks {
      LockedThere(s.nodes, v.net, s.locks, s.workers, v.builds, n);
    }
    BeginPromised(v.net, v.builds[t], v.ins[t], s.workers[t], n, ctor);
  }

  lemma BeginNotRead(sys: System, held: set<End>, s: Shared, v: View, t: nat, n: NodeId, ctor: Ctor)
    requires Ok(sys, held, s, v) && CanAct(s, v, t) && s.workers[t].script[0] == Begin(n, ctor)
    ensures forall t' :: 0 <= t' < |s.workers| ==> !HalfRead(s.workers[t'], n)
  {
    hide NetOk, Sound, NodesOk, LocksOk, NamesOk, WiresOk, SlotsLive, ClaimsOk, Alive, HoldersOk, OneTask, Held,
      Carried;
    ActFacts(sys, held, s, v, t);
    BeginUnbegun(v.builds[t], v.ins[t], s.workers[t], n, ctor);
    UnbegunPort(sys, held, s, v, t, n);
    forall t' | 0 <= t' < |s.workers|
      ensures !HalfRead(s.workers[t'], n)
    {
      OneWorker(held, s.cells, v, s.workers, t');
      if s.workers[t'].Reading? && s.workers[t'].job.task.left == n {
        ClaimPorts(sys, held, s, v, s.workers[t'].job, n);
        assert false;
      }
    }
  }

  lemma BeginUnbegun(b: Build, ins: set<End>, w: Worker, n: NodeId, ctor: Ctor)
    requires w.Building? && Doing(b, ins, w.script) && w.script != [] && w.script[0] == Begin(n, ctor)
    ensures Unbegun(w, b, n)
  {
    hide Apart, Covered, Shaped;
    DoingNext(b, ins, w.script);
    assert n !in b.nodes;
    AllLater(Perform(b, w.script[0]), ins, w.script[1..], n);
  }

  lemma LockedThere(nodes: map<NodeId, Node>, net: Net, locks: map<NodeId, nat>, workers: seq<Worker>,
                    builds: seq<Build>,
                    n: NodeId)
    requires |workers| == |builds| && NodesOk(nodes, net, workers, builds) && LocksOk(locks, workers) && n in locks
    ensures n in nodes
  {
    hide OpenedBy, Unbegun, HalfRead;
    assert HasLock(workers[locks[n]], n);
  }

  lemma BeginPromised(net: Net, b: Build, ins: set<End>, w: Worker, n: NodeId, ctor: Ctor)
    requires w.Building? && Doing(b, ins, w.script) && w.script != [] && w.script[0] == Begin(n, ctor)
    requires Promised(net, b, Final(b, w))
    ensures n !in b.nodes && n in net.nodes
  {
    hide Apart, Covered, Shaped;
    DoingNext(b, ins, w.script);
    assert n !in b.nodes;
    var c := Perform(b, w.script[0]);
    AllLater(c, ins, w.script[1..], n);
    assert Unfinished(b, n);
  }

  // A node that only the worker that locked it looks at gets another content.
  lemma OwnNode(nodes: map<NodeId, Node>, net: Net, workers: seq<Worker>, builds: seq<Build>, t: nat, w: Worker,
                c: Build,
                n: NodeId, node: Node)
    requires |workers| == |builds| && NodesOk(nodes, net, workers, builds) && t < |workers|
    requires workers[t].Building? && w.Building? && w.open == Some(n) && n in net.nodes
    requires workers[t].open.None? || workers[t].open == Some(n)
    requires c.nodes == builds[t].nodes[n := node]
    requires AllAllowed(builds[t], workers[t].script) && AllAllowed(c, w.script)
    requires PerformAll(c, w.script) == PerformAll(builds[t], workers[t].script)
    requires forall t' :: 0 <= t' < |workers| && t' != t ==> !HasLock(workers[t'], n)
    requires forall t' :: 0 <= t' < |workers| ==> !HalfRead(workers[t'], n)
    ensures NodesOk(nodes[n := node], net, workers[t := w], builds[t := c])
  {
    hide AllAllowed, PerformAll, OpenedBy, HasLock, Unbegun, HalfRead;
    var after, builds', nodes' := workers[t := w], builds[t := c], nodes[n := node];
    OwnOpened(nodes, w, c, n, node);
    forall m | m in nodes' && m in net.nodes && nodes'[m] != net.nodes[m]
      ensures exists t' :: 0 <= t' < |after| && OpenedBy(nodes', after[t'], builds'[t'], m)
    {
      if m == n {
        assert OpenedBy(nodes', after[t], builds'[t], m);
      } else {
        var t' :| 0 <= t' < |workers| && OpenedBy(nodes, workers[t'], builds[t'], m);
        OwnOpen(nodes, workers, builds, t, t', w, c, n, node, m);
        assert OpenedBy(nodes', after[t'], builds'[t'], m);
      }
    }
    forall m | m in net.nodes && m !in nodes'
      ensures exists t' :: 0 <= t' < |after| && (Unbegun(after[t'], builds'[t'], m) || HalfRead(after[t'], m))
    {
      var t' :| 0 <= t' < |workers| && (Unbegun(workers[t'], builds[t'], m) || HalfRead(workers[t'], m));
      OwnAbsent(workers[t], builds[t], w, c, n, node, m);
      assert Unbegun(after[t'], builds'[t'], m) || HalfRead(after[t'], m);
    }
    forall t', m | 0 <= t' < |after| && HasLock(after[t'], m)
      ensures m in nodes' && (after[t'].Building? ==> OpenedBy(nodes', after[t'], builds'[t'], m))
    {
      if t' == t {
        OwnLock(w, n, m);
      } else {
        assert HasLock(workers[t'], m);
        if workers[t'].Building? {
          OwnOpen(nodes, workers, builds, t, t', w, c, n, node, m);
        }
      }
    }
    NotHalfRead(w);
    forall t', m | 0 <= t' < |after| && HalfRead(after[t'], m)
      ensures m !in nodes'
    {
      assert HalfRead(workers[t'], m);
    }
    assert nodes'.Keys == nodes.Keys + {n} && n in net.nodes.Keys;
  }

  lemma NotHalfRead(w: Worker)
    requires w.Building?
    ensures forall m :: !HalfRead(w, m)
  {
  }

  lemma OwnOpened(nodes: map<NodeId, Node>, w: Worker, c: Build, n: NodeId, node: Node)
    requires w.Building? && w.open == Some(n) && n in c.nodes && c.nodes[n] == node
    ensures OpenedBy(nodes[n := node], w, c, n)
  {
  }

  lemma OwnLock(w: Worker, n: NodeId, m: NodeId)
    requires w.Building? && w.open == Some(n) && HasLock(w, m)
    ensures m == n
  {
  }

  lemma OwnAbsent(w: Worker, b: Build, w': Worker, c: Build, n: NodeId, node: Node, m: NodeId)
    requires w.Building? && w'.Building? && c.nodes == b.nodes[n := node] && m != n
    requires AllAllowed(b, w.script) && AllAllowed(c, w'.script) && PerformAll(c, w'.script) == PerformAll(b, w.script)
    ensures Unbegun(w, b, m) ==> Unbegun(w', c, m)
    ensures !HalfRead(w, m)
  {
    hide AllAllowed, PerformAll;
  }

  lemma OwnOpen(nodes: map<NodeId, Node>, workers: seq<Worker>, builds: seq<Build>, t: nat, t': nat, w: Worker,
                c: Build,
                n: NodeId, node: Node, m: NodeId)
    requires |workers| == |builds| && t < |workers| && t' < |workers| && w.Building? && w.open == Some(n) && m != n
    requires OpenedBy(nodes, workers[t'], builds[t'], m)
               && (t' == t ==> workers[t].open.None? || workers[t].open == Some(n))
    ensures OpenedBy(nodes[n := node], workers[t := w][t'], builds[t := c][t'], m)
  {
  }

  lemma BeginNodes(nodes: map<NodeId, Node>, net: Net, workers: seq<Worker>, builds: seq<Build>, ins: set<End>,
                   t: nat, w: Worker, n: NodeId, ctor: Ctor)
    requires |workers| == |builds| && NodesOk(nodes, net, workers, builds) && t < |workers|
    requires workers[t].Building? && workers[t].script != [] && workers[t].script[0] == Begin(n, ctor)
    requires workers[t].open.None? && Doing(builds[t], ins, workers[t].script)
    requires w == workers[t].(script := workers[t].script[1..], open := Some(n))
    requires n !in nodes && n in net.nodes && forall t' :: 0 <= t' < |workers| ==> !HalfRead(workers[t'], n)
    ensures NodesOk(nodes[n := Node(ctor, map[])], net, workers[t := w],
                    builds[t := Perform(builds[t], Begin(n, ctor))])
  {
    hide Held, Unbegun;
    DoingNext(builds[t], ins, workers[t].script);
    OwnNode(nodes, net, workers, builds, t, w, Perform(builds[t], Begin(n, ctor)), n, Node(ctor, map[]));
  }

  lemma BeginLocks(locks: map<NodeId, nat>, workers: seq<Worker>, t: nat, n: NodeId, w: Worker)
    requires LocksOk(locks, workers) && t < |workers| && workers[t].Building? && workers[t].open.None?
    requires w.Building? && w.open == Some(n) && n !in locks
    ensures LocksOk(locks[n := t], workers[t := w])
  {
    var after, locks' := workers[t := w], locks[n := t];
    forall m | m in locks'
      ensures locks'[m] < |after| && HasLock(after[locks'[m]], m)
    {
      if m != n {
        assert HasLock(workers[locks[m]], m);
      }
    }
    forall t', m | 0 <= t' < |after| && HasLock(after[t'], m)
      ensures m in locks' && locks'[m] == t'
    {
      if t' != t {
        assert HasLock(workers[t'], m);
      }
    }
  }

  lemma BeginNames(nodes: map<NodeId, Node>, net: Net, created: set<Wire>, workers: seq<Worker>, builds: seq<Build>,
                   t: nat, w: Worker, c: Build, n: NodeId, node: Node)
    requires |workers| == |builds| && NamesOk(nodes, net, created, workers, builds) && t < |workers|
    requires workers[t].Building? && w.Building? && c.makers == builds[t].makers && c.next == builds[t].next + 1
    requires n == NodeId(builds[t].makers, builds[t].next)
    ensures NamesOk(nodes[n := node], net, created, workers[t := w], builds[t := c])
  {
    var after, builds' := workers[t := w], builds[t := c];
    forall t' | 0 <= t' < |after| && after[t'].Building?
      ensures workers[t'].Building? && builds'[t'].makers == builds[t'].makers && builds'[t'].next >= builds[t'].next
      ensures t' != t ==> builds[t'].makers != n.makers
    {
      if t' < t {
        assert workers[t'].Building? && workers[t].Building?;
      } else if t < t' {
        assert workers[t].Building? && workers[t'].Building?;
      }
    }
    assert workers[t].Building?;
  }

  lemma BeginWorker(sys: System, held: set<End>, s: Shared, v: View, t: nat, n: NodeId, ctor: Ctor)
    requires Ok(sys, held, s, v) && CanAct(s, v, t) && s.workers[t].script[0] == Begin(n, ctor)
    ensures WorkerOk(held, s.cells, v.(builds := v.builds[t := Perform(v.builds[t], Begin(n, ctor))]), t,
                     s.workers[t].(script := s.workers[t].script[1..], open := Some(n)))
  {
    hide NetOk, Sound, NodesOk, LocksOk, SlotsLive, ClaimsOk, Alive, HoldersOk, Held, NamesOk, WiresOk;
    ActFacts(sys, held, s, v, t);
    BeginName(sys, held, s, v, t, n, ctor);
    var w, b := s.workers[t], v.builds[t];
    var w' := w.(script := w.script[1..], open := Some(n));
    ActBuildOk(v.net, held, s.cells, s.cells, b, v.ins[t], w, w');
    NothingCarried(v.links, v.at, t, w, w');
  }

  lemma EmptySlotsLive(cells: Cells, nodes: map<NodeId, Node>, n: NodeId, ctor: Ctor)
    requires SlotsLive(cells, nodes)
    ensures SlotsLive(cells, nodes[n := Node(ctor, map[])])
  {
    var nodes' := nodes[n := Node(ctor, map[])];
    forall m, i | m in nodes' && i in nodes'[m].slots && nodes'[m].slots[i].WireEnd?
      ensures nodes'[m].slots[i].wire in cells
    {
      assert nodes'[m].slots[i] == nodes[m].slots[i];
    }
  }

  lemma BeginKeeps(sys: System, held: set<End>, s: Shared, v: View, t: nat, n: NodeId, ctor: Ctor)
    requires Ok(sys, held, s, v) && CanAct(s, v, t) && s.workers[t].script[0] == Begin(n, ctor)
    ensures Ok(sys, held, Act(s, t), v.(builds := v.builds[t := Perform(v.builds[t], Begin(n, ctor))]))
  {
    hide NetOk, Sound, NodesOk, LocksOk, NamesOk, WiresOk, SlotsLive, AllWorkersOk, ClaimsOk, Alive, HoldersOk,
      WorkerOk, Undisturbed, BuildOk, Doing;
    ActFacts(sys, held, s, v, t);
    BeginName(sys, held, s, v, t, n, ctor);
    var w, b := s.workers[t], v.builds[t];
    var w', c := w.(script := w.script[1..], open := Some(n)), Perform(b, Begin(n, ctor));
    BeginWorker(sys, held, s, v, t, n, ctor);
    Others(sys, held, s, v, t, c, w');
    BeginNodes(s.nodes, v.net, s.workers, v.builds, v.ins[t], t, w', n, ctor);
    EmptySlotsLive(s.cells, s.nodes, n, ctor);
    BeginLocks(s.locks, s.workers, t, n, w');
    SimilarHolders(v.claims, s.queue, s.workers, t, w');
    SimilarWires(s.cells, s.freed, v.created, s.workers, t, w');
    BeginNames(s.nodes, v.net, v.created, s.workers, v.builds, t, w', c, n, Node(ctor, map[]));
  }

  // The other workers, when only the worker's own build has changed.
  lemma Others(sys: System, held: set<End>, s: Shared, v: View, t: nat, c: Build, w: Worker)
    requires Ok(sys, held, s, v) && t < |s.workers|
    requires WorkerOk(held, s.cells, v.(builds := v.builds[t := c]), t, w)
    ensures AllWorkersOk(held, s.cells, v.(builds := v.builds[t := c]), s.workers[t := w])
  {
    hide NetOk, Sound, NodesOk, LocksOk, NamesOk, WiresOk, SlotsLive, AllWorkersOk, ClaimsOk, Alive, HoldersOk,
      WorkerOk, Undisturbed;
    var v' := v.(builds := v.builds[t := c]);
    assert v' == v.(builds := v.builds[t := c], created := v.created);
    forall t' | 0 <= t' < |s.workers| && t' != t
      ensures Undisturbed(v, v', s.cells, t', s.workers[t'])
    {
      UndisturbedBuild(sys, held, s, v, t, c, s.cells, v.created, t');
    }
    SoundParts(s.cells, v.links, v.at);
    OthersUndisturbed(held, s.cells, v, s.cells, v', s.workers, t, w);
  }

  // ----- Filling a slot -----

  lemma FillFacts(sys: System, held: set<End>, s: Shared, v: View, t: nat, n: NodeId, i: nat, e: End)
    requires Ok(sys, held, s, v) && CanAct(s, v, t) && s.workers[t].script[0] == Fill(n, i, e)
    ensures s.workers[t].open == Some(n) && n in s.locks && s.locks[n] == t && n in s.nodes
    ensures n in v.net.nodes
    ensures n in v.builds[t].nodes && s.nodes[n] == v.builds[t].nodes[n] && i !in s.nodes[n].slots
    ensures e.WireEnd? ==> e.wire in s.cells
  {
    hide NetOk, Sound, SlotsLive, ClaimsOk, Alive, HoldersOk, Carried, OneTask, Held, NamesOk, WiresOk;
    ActFacts(sys, held, s, v, t);
    assert HasLock(s.workers[t], n);
    assert n in s.nodes.Keys;
  }

  lemma FillNodes(nodes: map<NodeId, Node>, net: Net, locks: map<NodeId, nat>, workers: seq<Worker>, builds: seq<Build>,
                  ins: set<End>, t: nat, w: Worker, n: NodeId, i: nat, e: End)
    requires |workers| == |builds| && NodesOk(nodes, net, workers, builds) && LocksOk(locks, workers) && t < |workers|
    requires workers[t].Building? && workers[t].script != [] && workers[t].script[0] == Fill(n, i, e)
    requires workers[t].open == Some(n) && Doing(builds[t], ins, workers[t].script)
    requires w == workers[t].(script := workers[t].script[1..])
    requires n in nodes && n in net.nodes && n in builds[t].nodes && nodes[n] == builds[t].nodes[n]
    ensures NodesOk(nodes[n := nodes[n].(slots := nodes[n].slots[i := e])], net, workers[t := w],
                    builds[t := Perform(builds[t], Fill(n, i, e))])
  {
    hide Held, Unbegun;
    DoingNext(builds[t], ins, workers[t].script);
    assert HasLock(workers[t], n);
    forall t' | 0 <= t' < |workers|
      ensures !HalfRead(workers[t'], n)
    {
    }
    OwnNode(nodes, net, workers, builds, t, w, Perform(builds[t], Fill(n, i, e)), n,
            nodes[n].(slots := nodes[n].slots[i := e]));
  }

  lemma FillSlotsLive(cells: Cells, nodes: map<NodeId, Node>, n: NodeId, i: nat, e: End)
    requires SlotsLive(cells, nodes) && n in nodes && (e.WireEnd? ==> e.wire in cells)
    ensures SlotsLive(cells, nodes[n := nodes[n].(slots := nodes[n].slots[i := e])])
  {
    var nodes' := nodes[n := nodes[n].(slots := nodes[n].slots[i := e])];
    forall m, j | m in nodes' && j in nodes'[m].slots && nodes'[m].slots[j].WireEnd?
      ensures nodes'[m].slots[j].wire in cells
    {
      if m != n || j != i {
        assert nodes'[m].slots[j] == nodes[m].slots[j];
      }
    }
  }

  lemma FillWorker(sys: System, held: set<End>, s: Shared, v: View, t: nat, n: NodeId, i: nat, e: End)
    requires Ok(sys, held, s, v) && CanAct(s, v, t) && s.workers[t].script[0] == Fill(n, i, e)
    ensures WorkerOk(held, s.cells, v.(builds := v.builds[t := Perform(v.builds[t], Fill(n, i, e))]), t,
                     s.workers[t].(script := s.workers[t].script[1..]))
  {
    hide NetOk, Sound, NodesOk, LocksOk, SlotsLive, ClaimsOk, Alive, HoldersOk, Held, NamesOk, WiresOk;
    ActFacts(sys, held, s, v, t);
    var w, b := s.workers[t], v.builds[t];
    var w' := w.(script := w.script[1..]);
    ActBuildOk(v.net, held, s.cells, s.cells, b, v.ins[t], w, w');
    NothingCarried(v.links, v.at, t, w, w');
  }

  lemma FillKeeps(sys: System, held: set<End>, s: Shared, v: View, t: nat, n: NodeId, i: nat, e: End)
    requires Ok(sys, held, s, v) && CanAct(s, v, t) && s.workers[t].script[0] == Fill(n, i, e)
    ensures Ok(sys, held, Act(s, t), v.(builds := v.builds[t := Perform(v.builds[t], Fill(n, i, e))]))
  {
    hide NetOk, Sound, NodesOk, LocksOk, NamesOk, WiresOk, SlotsLive, AllWorkersOk, ClaimsOk, Alive, HoldersOk,
      WorkerOk, Undisturbed, BuildOk, Doing;
    ActFacts(sys, held, s, v, t);
    FillFacts(sys, held, s, v, t, n, i, e);
    var w, b := s.workers[t], v.builds[t];
    var w', c := w.(script := w.script[1..]), Perform(b, Fill(n, i, e));
    FillWorker(sys, held, s, v, t, n, i, e);
    Others(sys, held, s, v, t, c, w');
    FillNodes(s.nodes, v.net, s.locks, s.workers, v.builds, v.ins[t], t, w', n, i, e);
    FillSlotsLive(s.cells, s.nodes, n, i, e);
    SimilarLocks(s.locks, s.workers, t, w');
    SimilarHolders(v.claims, s.queue, s.workers, t, w');
    SimilarWires(s.cells, s.freed, v.created, s.workers, t, w');
    SameKeysNames(s.nodes, v.net, v.created, s.workers, v.builds, t, w', c, n,
                  s.nodes[n].(slots := s.nodes[n].slots[i := e]));
  }

  lemma SameKeysNames(nodes: map<NodeId, Node>, net: Net, created: set<Wire>, workers: seq<Worker>, builds: seq<Build>,
                      t: nat, w: Worker, c: Build, n: NodeId, node: Node)
    requires |workers| == |builds| && NamesOk(nodes, net, created, workers, builds) && t < |workers|
    requires workers[t].Building? && w.Building? && c.makers == builds[t].makers && c.next == builds[t].next
               && n in nodes
    ensures NamesOk(nodes[n := node], net, created, workers[t := w], builds[t := c])
  {
    var after, builds' := workers[t := w], builds[t := c];
    forall t' | 0 <= t' < |after| && after[t'].Building?
      ensures workers[t'].Building? && builds'[t'].makers == builds[t'].makers && builds'[t'].next == builds[t'].next
    {
    }
  }

  // ----- Finishing a node -----

  lemma FinishFacts(sys: System, held: set<End>, s: Shared, v: View, t: nat, n: NodeId)
    requires Ok(sys, held, s, v) && CanAct(s, v, t) && s.workers[t].script[0] == Finish(n)
    ensures s.workers[t].open == Some(n) && n in s.locks && s.locks[n] == t
    ensures n in s.nodes && n in v.net.nodes && s.nodes[n] == v.net.nodes[n]
  {
    hide NetOk, Sound, SlotsLive, ClaimsOk, Alive, HoldersOk, Carried, OneTask, Held, NamesOk, WiresOk;
    ActFacts(sys, held, s, v, t);
    assert HasLock(s.workers[t], n);
    assert Unfinished(v.builds[t], n);
    AllLater(Perform(v.builds[t], Finish(n)), v.ins[t], s.workers[t].script[1..], n);
  }

  lemma FinishNodes(nodes: map<NodeId, Node>, net: Net, workers: seq<Worker>, builds: seq<Build>, ins: set<End>,
                    t: nat, w: Worker, n: NodeId)
    requires |workers| == |builds| && NodesOk(nodes, net, workers, builds) && t < |workers|
    requires workers[t].Building? && workers[t].script != [] && workers[t].script[0] == Finish(n)
    requires workers[t].open == Some(n) && Doing(builds[t], ins, workers[t].script)
    requires w == workers[t].(script := workers[t].script[1..], open := None)
    requires n in nodes && n in net.nodes && nodes[n] == net.nodes[n]
    ensures NodesOk(nodes, net, workers[t := w], builds[t := Perform(builds[t], Finish(n))])
  {
    hide Held;
    DoingNext(builds[t], ins, workers[t].script);
    var c := Perform(builds[t], Finish(n));
    var after, builds' := workers[t := w], builds[t := c];
    assert c.nodes == builds[t].nodes;
    hide AllAllowed, PerformAll, Perform, Allowed;
    forall m | m in nodes && m in net.nodes && nodes[m] != net.nodes[m]
      ensures exists t' :: 0 <= t' < |after| && OpenedBy(nodes, after[t'], builds'[t'], m)
    {
      var t' :| 0 <= t' < |workers| && OpenedBy(nodes, workers[t'], builds[t'], m);
      assert t' != t;
      assert OpenedBy(nodes, after[t'], builds'[t'], m);
    }
    forall m | m in net.nodes && m !in nodes
      ensures exists t' :: 0 <= t' < |after| && (Unbegun(after[t'], builds'[t'], m) || HalfRead(after[t'], m))
    {
      var t' :| 0 <= t' < |workers| && (Unbegun(workers[t'], builds[t'], m) || HalfRead(workers[t'], m));
      assert Unbegun(after[t'], builds'[t'], m) || HalfRead(after[t'], m);
    }
    forall t', m | 0 <= t' < |after| && HasLock(after[t'], m)
      ensures m in nodes && (after[t'].Building? ==> OpenedBy(nodes, after[t'], builds'[t'], m))
    {
      assert HasLock(workers[t'], m);
    }
    forall t', m | 0 <= t' < |after| && HalfRead(after[t'], m)
      ensures m !in nodes
    {
      assert HalfRead(workers[t'], m);
    }
  }

  lemma FinishLocks(locks: map<NodeId, nat>, workers: seq<Worker>, t: nat, n: NodeId, w: Worker)
    requires LocksOk(locks, workers) && t < |workers| && HasLock(workers[t], n)
    requires forall m :: HasLock(workers[t], m) ==> m == n
    requires forall m :: !HasLock(w, m)
    ensures LocksOk(locks - {n}, workers[t := w])
  {
    var after, locks' := workers[t := w], locks - {n};
    assert n in locks && locks[n] == t;
    forall m | m in locks'
      ensures locks'[m] < |after| && HasLock(after[locks'[m]], m)
    {
      assert m in locks && HasLock(workers[locks[m]], m);
    }
    forall t', m | 0 <= t' < |after| && HasLock(after[t'], m)
      ensures m in locks' && locks'[m] == t'
    {
      assert HasLock(workers[t'], m);
    }
  }

  lemma FinishWorker(sys: System, held: set<End>, s: Shared, v: View, t: nat, n: NodeId)
    requires Ok(sys, held, s, v) && CanAct(s, v, t) && s.workers[t].script[0] == Finish(n)
    ensures WorkerOk(held, s.cells, v.(builds := v.builds[t := Perform(v.builds[t], Finish(n))]), t,
                     s.workers[t].(script := s.workers[t].script[1..], open := None))
  {
    hide NetOk, Sound, NodesOk, LocksOk, SlotsLive, ClaimsOk, Alive, HoldersOk, Held, NamesOk, WiresOk;
    ActFacts(sys, held, s, v, t);
    var w, b := s.workers[t], v.builds[t];
    var w' := w.(script := w.script[1..], open := None);
    ActBuildOk(v.net, held, s.cells, s.cells, b, v.ins[t], w, w');
    NothingCarried(v.links, v.at, t, w, w');
  }

  lemma FinishKeeps(sys: System, held: set<End>, s: Shared, v: View, t: nat, n: NodeId)
    requires Ok(sys, held, s, v) && CanAct(s, v, t) && s.workers[t].script[0] == Finish(n)
    ensures Ok(sys, held, Act(s, t), v.(builds := v.builds[t := Perform(v.builds[t], Finish(n))]))
  {
    hide NetOk, Sound, NodesOk, LocksOk, NamesOk, WiresOk, SlotsLive, AllWorkersOk, ClaimsOk, Alive, HoldersOk,
      WorkerOk, Undisturbed, BuildOk, Doing;
    ActFacts(sys, held, s, v, t);
    FinishFacts(sys, held, s, v, t, n);
    var w, b := s.workers[t], v.builds[t];
    var w', c := w.(script := w.script[1..], open := None), Perform(b, Finish(n));
    FinishWorker(sys, held, s, v, t, n);
    Others(sys, held, s, v, t, c, w');
    FinishNodes(s.nodes, v.net, s.workers, v.builds, v.ins[t], t, w', n);
    FinishLocks(s.locks, s.workers, t, n, w');
    SimilarHolders(v.claims, s.queue, s.workers, t, w');
    SimilarWires(s.cells, s.freed, v.created, s.workers, t, w');
    assert s.nodes[n := s.nodes[n]] == s.nodes;
    SameKeysNames(s.nodes, v.net, v.created, s.workers, v.builds, t, w', c, n, s.nodes[n]);
  }
}
