/**
 Running a body: making wires, building nodes, starting to connect, publishing tasks.
 */
module ParallelBuild {
  import opened Links
  import opened Script
  import opened Machine
  import opened Net
  import opened Confluence
  import opened Heap
  import opened Race
  import opened Plans
  import opened Parallel
  import opened ParallelOk
  import opened ParallelTake

  // ----- The other workers -----

  lemma PlanningElsewhere(L: Links, at: Places, L': Links, at': Places, t: nat, joins: Links)
    requires at.Keys == L.Keys && at'.Keys == L'.Keys && Untouched(L, at, L', at', t) && Planning(L, at, t, joins)
    ensures Planning(L', at', t, joins)
  {
    forall e | e in joins
      ensures e in L' && e in at' && at'[e] == Planned(t) && L'[e] == joins[e]
    {
      assert joins[e] == L[e];
    }
    forall e | e in L' && e in at' && at'[e] == Planned(t)
      ensures e in joins
    {
      assert L'[e] == L'[e];
      assert at[e] == at'[e];
    }
  }

  lemma InFlightElsewhere(L: Links, at: Places, L': Links, at': Places, t: nat, pending: Pending)
    requires at.Keys == L.Keys && at'.Keys == L'.Keys && Untouched(L, at, L', at', t) && InFlight(L, at, t, pending)
    ensures InFlight(L', at', t, pending)
  {
    forall e | e in L' && e in at' && at'[e] == Flying(t)
      ensures !pending.Quiet? && (e == pending.left || e == pending.right)
    {
      assert L'[e] == L'[e];
      assert at[e] == at'[e];
    }
    if !pending.Quiet? {
      assert L[pending.left] == L[pending.left] && L[pending.right] == L[pending.right];
    }
  }

  lemma CarriedElsewhere(L: Links, at: Places, L': Links, at': Places, t: nat, w: Worker)
    requires at.Keys == L.Keys && at'.Keys == L'.Keys && Untouched(L, at, L', at', t) && Carried(L, at, t, w)
    ensures Carried(L', at', t, w)
  {
    PlanningElsewhere(L, at, L', at', t, Joins(ScriptOf(w)));
    InFlightElsewhere(L, at, L', at', t, PendingOf(w));
  }

  // What another worker must find unchanged.
  ghost predicate Undisturbed(v: View, v': View, cells': Cells, t: nat, w: Worker)
    requires t < |v.builds| && t < |v.ins|
  {
    && |v'.builds| == |v.builds| && |v'.ins| == |v.ins| && v'.builds[t] == v.builds[t] && v'.ins[t] == v.ins[t]
    && Untouched(v.links, v.at, v'.links, v'.at, t)
    && v.net.dead <= v'.net.dead
    && (w.Building? ==> FreeLive(cells', v.builds[t]))
    && (w.Reading? ==> EndsLive(cells', w.ends))
    && (w.Building? && AllAllowed(v.builds[t], w.script) ==> Promised(v'.net, v.builds[t], Final(v.builds[t], w)))
    && (w.Reading? && w.job in v.claims && v.claims[w.job] == ReadBy(t) ==>
          && w.job in v'.claims && v'.claims[w.job] == ReadBy(t)
          && NodeStays(v.net, v'.net, w.job.task.left) && NodeStays(v.net, v'.net, w.job.task.right))
  }

  ghost predicate NodeStays(net: Net, net': Net, n: NodeId) {
    n in net.nodes ==> n in net'.nodes && net'.nodes[n] == net.nodes[n]
  }

  lemma WorkerUndisturbed(held: set<End>, cells: Cells, v: View, cells': Cells, v': View, t: nat, w: Worker)
    requires t < |v.builds| && t < |v.ins| && WorkerOk(held, cells, v, t, w)
    requires Matching(v.links) && v.at.Keys == v.links.Keys && v'.at.Keys == v'.links.Keys
    requires Undisturbed(v, v', cells', t, w)
    ensures WorkerOk(held, cells', v', t, w)
  {
    hide Carried, Untouched, Promised, FreeLive, OneTask, Held, Matching;
    CarriedElsewhere(v.links, v.at, v'.links, v'.at, t, w);
  }

  lemma OthersUndisturbed(held: set<End>, cells: Cells, v: View, cells': Cells, v': View, workers: seq<Worker>, t: nat,
                          w: Worker)
    requires |workers| == |v.builds| == |v.ins| == |v'.builds| == |v'.ins| && t < |workers|
    requires AllWorkersOk(held, cells, v, workers)
    requires Matching(v.links) && v.at.Keys == v.links.Keys && v'.at.Keys == v'.links.Keys
    requires forall t' {:trigger Undisturbed(v, v', cells', t', workers[t'])} ::
               0 <= t' < |workers| && t' != t ==> Undisturbed(v, v', cells', t', workers[t'])
    requires WorkerOk(held, cells', v', t, w)
    ensures AllWorkersOk(held, cells', v', workers[t := w])
  {
    hide WorkerOk, Undisturbed, Matching;
    var after := workers[t := w];
    forall t' | 0 <= t' < |after|
      ensures WorkerOk(held, cells', v', t', after[t'])
    {
      if t' != t {
        assert Undisturbed(v, v', cells', t', workers[t']);
        assert WorkerOk(held, cells, v, t', workers[t']);
        WorkerUndisturbed(held, cells, v, cells', v', t', workers[t']);
      }
    }
  }

  lemma SoundParts(cells: Cells, L: Links, at: Places)
    requires Sound(cells, L, at)
    ensures Matching(L) && at.Keys == L.Keys
  {
  }

  // Nothing that concerns the others has changed, except that there may be more wires.
  lemma UndisturbedBuild(sys: System, held: set<End>, s: Shared, v: View, t: nat, b: Build, cells': Cells,
                         created': set<Wire>,
                         t': nat)
    requires Ok(sys, held, s, v) && t < |s.workers| && t' < |s.workers| && t' != t && s.cells.Keys <= cells'.Keys
    ensures Undisturbed(v, v.(builds := v.builds[t := b], created := created'), cells', t', s.workers[t'])
  {
    hide NetOk, Sound, NodesOk, LocksOk, NamesOk, WiresOk, SlotsLive, ClaimsOk, Alive, HoldersOk, Carried, OneTask,
      Doing;
    OneWorker(held, s.cells, v, s.workers, t');
  }

  // ----- What every action of a body keeps -----

  ghost predicate CanAct(s: Shared, v: View, t: nat) {
    && t < |s.workers| && t < |v.builds| && t < |v.ins|
    && s.workers[t].Building? && s.workers[t].pending.Quiet? && s.workers[t].script != []
    && (s.workers[t].found == {} || s.workers[t].open.Some?)
  }

  lemma ActFacts(sys: System, held: set<End>, s: Shared, v: View, t: nat)
    requires Ok(sys, held, s, v) && CanAct(s, v, t)
    ensures var w, b := s.workers[t], v.builds[t];
            && Doing(b, v.ins[t], w.script) && Allowed(b, w.script[0]) && BuildOk(v.net, held, s.cells, b, v.ins[t], w)
            && Carried(v.links, v.at, t, w)
            && Doing(Perform(b, w.script[0]), v.ins[t], w.script[1..])
            && PerformAll(Perform(b, w.script[0]), w.script[1..]) == PerformAll(b, w.script)
            && Perform(b, w.script[0]).makers == b.makers
  {
    hide NetOk, Sound, NodesOk, LocksOk, NamesOk, WiresOk, SlotsLive, ClaimsOk, Alive, HoldersOk, Carried, OneTask,
      Doing;
    OneWorker(held, s.cells, v, s.workers, t);
    DoingNext(v.builds[t], v.ins[t], s.workers[t].script);
  }

  // The part of `BuildOk` that does not depend on which action it is.
  lemma ActBuildOk(net: Net, held: set<End>, cells: Cells, cells': Cells, b: Build, ins: set<End>, w: Worker,
                   w': Worker)
    requires w.Building? && w'.Building? && w.script != [] && w'.script == w.script[1..]
    requires BuildOk(net, held, cells, b, ins, w) && Allowed(b, w.script[0])
    requires var c := Perform(b, w.script[0]);
             && c.open == (if w'.open.Some? then {w'.open.value} else {})
             && FreeLive(cells', c) && OneTask(c, w')
    ensures BuildOk(net, held, cells', Perform(b, w.script[0]), ins, w')
  {
    hide OneTask, FreeLive, Held;
    var c := Perform(b, w.script[0]);
    DoingNext(b, ins, w.script);
    var final := Final(b, w);
    assert final == Final(c, w');
    forall n | n in final.nodes && Unfinished(c, n)
      ensures n in net.nodes && net.nodes[n] == final.nodes[n]
    {
      UnfinishedBefore(b, ins, w.script[0], n);
    }
  }

  // ----- A new wire -----

  lemma NewWireName(sys: System, held: set<End>, s: Shared, v: View, t: nat, x: Wire)
    requires Ok(sys, held, s, v) && CanAct(s, v, t) && s.workers[t].script[0] == NewWire(x)
    ensures x == Wire(v.builds[t].makers, v.builds[t].next)
    ensures x !in v.created && x !in s.cells && x !in s.freed
  {
    hide NetOk, Sound, NodesOk, LocksOk, SlotsLive, ClaimsOk, Alive, HoldersOk, Carried, OneTask, Held;
    ActFacts(sys, held, s, v, t);
    assert s.workers[t].Building?;
    assert x in s.cells ==> x in s.cells.Keys;
  }

  lemma NewWireSound(cells: Cells, L: Links, at: Places, x: Wire)
    requires Sound(cells, L, at) && x !in cells
    ensures Sound(cells[x := None], L, at)
  {
    var after := cells[x := None];
    forall e | e in L && e in at && at[e].Stored?
      ensures HeldBy(after, e, L[e]) != HeldBy(after, L[e], e)
    {
      assert HeldBy(after, e, L[e]) == HeldBy(cells, e, L[e]);
      assert HeldBy(after, L[e], e) == HeldBy(cells, L[e], e);
    }
  }

  lemma NewWireNames(nodes: map<NodeId, Node>, net: Net, created: set<Wire>, workers: seq<Worker>, builds: seq<Build>,
                     t: nat, w: Worker, c: Build)
    requires |workers| == |builds| && NamesOk(nodes, net, created, workers, builds) && t < |workers|
    requires workers[t].Building? && w.Building? && c.makers == builds[t].makers && c.next == builds[t].next + 1
    requires builds[t].makers <= net.dead
    ensures NamesOk(nodes, net, created + {Wire(builds[t].makers, builds[t].next)}, workers[t := w], builds[t := c])
  {
    var after, builds', x := workers[t := w], builds[t := c], Wire(builds[t].makers, builds[t].next);
    forall t' | 0 <= t' < |after| && after[t'].Building?
      ensures workers[t'].Building? && builds'[t'].makers == builds[t'].makers && builds'[t'].next >= builds[t'].next
      ensures t' != t ==> builds[t'].makers != x.makers
    {
      if t' < t {
        assert workers[t'].Building? && workers[t].Building?;
      } else if t < t' {
        assert workers[t].Building? && workers[t'].Building?;
      }
    }
    assert workers[t].Building?;
  }

  lemma NewWireWires(cells: Cells, freed: set<Wire>, created: set<Wire>, workers: seq<Worker>, x: Wire)
    requires WiresOk(cells, freed, created, workers) && x !in created
    ensures WiresOk(cells[x := None], freed, created + {x}, workers)
  {
    assert cells[x := None].Keys == cells.Keys + {x};
  }

  // An action that begins no node leaves the nodes as they are to everybody.
  lemma SameNodes(nodes: map<NodeId, Node>, net: Net, workers: seq<Worker>, builds: seq<Build>, ins: set<End>, t: nat,
                  w: Worker)
    requires |workers| == |builds| && NodesOk(nodes, net, workers, builds) && t < |workers|
    requires workers[t].Building? && w.Building? && w.open == workers[t].open
    requires workers[t].script != [] && w.script == workers[t].script[1..]
    requires Doing(builds[t], ins, workers[t].script)
               && Perform(builds[t], workers[t].script[0]).nodes == builds[t].nodes
    ensures NodesOk(nodes, net, workers[t := w], builds[t := Perform(builds[t], workers[t].script[0])])
  {
    hide Held;
    DoingNext(builds[t], ins, workers[t].script);
    var after, builds' := workers[t := w], builds[t := Perform(builds[t], workers[t].script[0])];
    hide AllAllowed, PerformAll, Perform, Allowed;
    forall n | n in nodes && n in net.nodes && nodes[n] != net.nodes[n]
      ensures exists t' :: 0 <= t' < |after| && OpenedBy(nodes, after[t'], builds'[t'], n)
    {
      var t' :| 0 <= t' < |workers| && OpenedBy(nodes, workers[t'], builds[t'], n);
      assert OpenedBy(nodes, after[t'], builds'[t'], n);
    }
    forall n | n in net.nodes && n !in nodes
      ensures exists t' :: 0 <= t' < |after| && (Unbegun(after[t'], builds'[t'], n) || HalfRead(after[t'], n))
    {
      var t' :| 0 <= t' < |workers| && (Unbegun(workers[t'], builds[t'], n) || HalfRead(workers[t'], n));
      assert Unbegun(after[t'], builds'[t'], n) || HalfRead(after[t'], n);
    }
    forall t', n | 0 <= t' < |after| && HasLock(after[t'], n)
      ensures n in nodes && (after[t'].Building? ==> OpenedBy(nodes, after[t'], builds'[t'], n))
    {
      assert HasLock(workers[t'], n);
    }
    forall t', n | 0 <= t' < |after| && HalfRead(after[t'], n)
      ensures n !in nodes
    {
      assert HalfRead(workers[t'], n);
    }
  }

  lemma NewWireWorker(sys: System, held: set<End>, s: Shared, v: View, t: nat, x: Wire)
    requires Ok(sys, held, s, v) && CanAct(s, v, t) && s.workers[t].script[0] == NewWire(x)
    ensures var c := Perform(v.builds[t], NewWire(x));
            var v' := v.(builds := v.builds[t := c], created := v.created + {x});
            WorkerOk(held, s.cells[x := None], v', t, s.workers[t].(script := s.workers[t].script[1..]))
  {
    hide NetOk, Sound, NodesOk, LocksOk, SlotsLive, ClaimsOk, Alive, HoldersOk, Held, NamesOk, WiresOk;
    ActFacts(sys, held, s, v, t);
    var w, b := s.workers[t], v.builds[t];
    var w', c := w.(script := w.script[1..]), Perform(b, NewWire(x));
    ActBuildOk(v.net, held, s.cells, s.cells[x := None], b, v.ins[t], w, w');
    NothingCarried(v.links, v.at, t, w, w');
  }

  lemma NewWireKeeps(sys: System, held: set<End>, s: Shared, v: View, t: nat, x: Wire)
    requires Ok(sys, held, s, v) && CanAct(s, v, t) && s.workers[t].script[0] == NewWire(x)
    ensures Ok(sys, held, Act(s, t),
               v.(builds := v.builds[t := Perform(v.builds[t], NewWire(x))], created := v.created + {x}))
  {
    hide NetOk, Sound, NodesOk, LocksOk, NamesOk, WiresOk, SlotsLive, AllWorkersOk, ClaimsOk, Alive, HoldersOk,
      WorkerOk, Undisturbed, BuildOk, Doing;
    ActFacts(sys, held, s, v, t);
    NewWireName(sys, held, s, v, t, x);
    var w, b := s.workers[t], v.builds[t];
    var w', c := w.(script := w.script[1..]), Perform(b, NewWire(x));
    NewWireSound(s.cells, v.links, v.at, x);
    NewWireWorker(sys, held, s, v, t, x);
    forall t' | 0 <= t' < |s.workers| && t' != t
      ensures Undisturbed(v, v.(builds := v.builds[t := c], created := v.created + {x}), s.cells[x := None], t',
                          s.workers[t'])
    {
      UndisturbedBuild(sys, held, s, v, t, c, s.cells[x := None], v.created + {x}, t');
    }
    SoundParts(s.cells, v.links, v.at);
    OthersUndisturbed(held, s.cells, v, s.cells[x := None], v.(builds := v.builds[t := c], created := v.created + {x}),
                      s.workers, t, w');
    SameNodes(s.nodes, v.net, s.workers, v.builds, v.ins[t], t, w');
    MoreSlotsLive(s.cells, s.cells[x := None], s.nodes);
    SimilarLocks(s.locks, s.workers, t, w');
    SimilarHolders(v.claims, s.queue, s.workers, t, w');
    NewWireWires(s.cells, s.freed, v.created, s.workers, x);
    SimilarWires(s.cells[x := None], s.freed, v.created + {x}, s.workers, t, w');
    BuildMakers(v.net, held, s.cells, b, v.ins[t], w);
    NewWireNames(s.nodes, v.net, v.created, s.workers, v.builds, t, w', c);
  }

  lemma BuildMakers(net: Net, held: set<End>, cells: Cells, b: Build, ins: set<End>, w: Worker)
    requires w.Building? && BuildOk(net, held, cells, b, ins, w)
    ensures b.makers <= net.dead && Doing(b, ins, w.script)
    ensures b.open == if w.open.Some? then {w.open.value} else {}
  {
  }

  lemma MoreSlotsLive(cells: Cells, cells': Cells, nodes: map<NodeId, Node>)
    requires SlotsLive(cells, nodes) && cells.Keys <= cells'.Keys
    ensures SlotsLive(cells', nodes)
  {
    assert forall x :: x in cells ==> x in cells'.Keys;
  }
}
