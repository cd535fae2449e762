/**
 Taking a task, and locking and reading its nodes.
 */
module ParallelTake {
  import opened Links
  import opened Script
  import opened Machine
  import opened Net
  import opened Confluence
  import opened Heap
  import opened Race
  import opened Plans
  import opened Parallel
  import opened ParallelOk

  // ----- What follows from the invariant -----

  lemma OneWorker(held: set<End>, cells: Cells, v: View, workers: seq<Worker>, t: nat)
    requires |workers| == |v.builds| == |v.ins| && AllWorkersOk(held, cells, v, workers) && t < |workers|
    ensures WorkerOk(held, cells, v, t, workers[t])
  {
  }

  lemma NotLinked(net: Net, held: set<End>, L: Links, e: End)
    requires WellFormed(net, held) && SamePairing(net.links, L)
    ensures e.WireEnd? && InSlot(net.nodes, e) ==> e !in net.links && e !in L && e !in held
    ensures e in held ==> e !in net.links && e !in L
    ensures e in L ==> e in net.links
  {
    assert L.Keys <= net.links.Keys;
    assert e in L ==> e in L.Keys;
  }

  // Whatever a node holds in a slot now, it holds in the net.
  lemma SlotInNet(sys: System, held: set<End>, s: Shared, v: View, n: NodeId, i: nat)
    requires Ok(sys, held, s, v) && n in s.nodes && i in s.nodes[n].slots
    ensures n in v.net.nodes && i in v.net.nodes[n].slots && v.net.nodes[n].slots[i] == s.nodes[n].slots[i]
    ensures v.net.nodes[n].ctor == s.nodes[n].ctor
    ensures s.nodes[n].slots[i].WireEnd? ==> InSlot(v.net.nodes, s.nodes[n].slots[i])
    ensures s.nodes[n].slots[i].WireEnd? ==> s.nodes[n].slots[i] !in v.net.links && s.nodes[n].slots[i] !in v.links
  {
    hide WellFormed, SamePairing, Sound, Carried, GoodSystem, ClaimsOk, HoldersOk, LocksOk, NamesOk, WiresOk, SlotsLive;
    NodeInNet(sys, held, s, v, n);
    NotLinked(v.net, held, v.links, s.nodes[n].slots[i]);
  }

  lemma NodeInNet(sys: System, held: set<End>, s: Shared, v: View, n: NodeId)
    requires Ok(sys, held, s, v) && n in s.nodes
    ensures n in v.net.nodes && v.net.nodes[n].ctor == s.nodes[n].ctor
    ensures forall i :: i in s.nodes[n].slots ==>
              i in v.net.nodes[n].slots && v.net.nodes[n].slots[i] == s.nodes[n].slots[i]
  {
    hide WellFormed, SamePairing, Sound, Carried, GoodSystem, ClaimsOk, HoldersOk, LocksOk, NamesOk, WiresOk, SlotsLive,
      Doing, OneTask, FreeLive, ReadOk;
    assert n in s.nodes.Keys;
    if s.nodes[n] != v.net.nodes[n] {
      var t :| 0 <= t < |s.workers| && OpenedBy(s.nodes, s.workers[t], v.builds[t], n);
      OneWorker(held, s.cells, v, s.workers, t);
      AllLater(v.builds[t], v.ins[t], s.workers[t].script, n);
      assert Unfinished(v.builds[t], n);
    }
  }

  // A node of a task is there, unless its reader is done with it.
  lemma ClaimedNode(sys: System, held: set<End>, s: Shared, v: View, f: Found, n: NodeId)
    requires Ok(sys, held, s, v) && f in v.claims && (n == f.task.left || n == f.task.right)
    ensures || n in s.nodes
            || (v.claims[f].ReadBy? && v.claims[f].worker < |s.workers| && HalfRead(s.workers[v.claims[f].worker], n))
  {
    hide WellFormed, SamePairing, Sound, GoodSystem, HoldersOk, LocksOk, NamesOk, WiresOk, SlotsLive,
      Doing, OneTask, FreeLive;
    assert ClaimOk(sys.rules, v.net, v.links, v.at, f);
    ClaimPorts(sys, held, s, v, f, n);
    if n !in s.nodes {
      assert n in v.net.nodes;
      var t :| 0 <= t < |s.workers| && (Unbegun(s.workers[t], v.builds[t], n) || HalfRead(s.workers[t], n));
      OneWorker(held, s.cells, v, s.workers, t);
      if Unbegun(s.workers[t], v.builds[t], n) {
        UnbegunPort(sys, held, s, v, t, n);
        assert false;
      } else {
        assert s.workers[t].job in v.claims && Shares(s.workers[t].job, f);
      }
    }
  }

  lemma ClaimPorts(sys: System, held: set<End>, s: Shared, v: View, f: Found, n: NodeId)
    requires Ok(sys, held, s, v) && f in v.claims && (n == f.task.left || n == f.task.right)
    ensures f.task.left != f.task.right
    ensures n in v.net.nodes && Principal(n) in v.links && Principal(n) in v.at && v.at[Principal(n)] == Met
  {
    hide WellFormed, SamePairing, CellsAgree, LinksLive, GoodSystem, AllWorkersOk, NodesOk, HoldersOk, LocksOk, NamesOk,
      WiresOk, SlotsLive;
    assert ClaimOk(sys.rules, v.net, v.links, v.at, f);
    var p := Principal(f.task.left);
    assert v.links[v.links[p]] == p && v.at[v.links[p]] == v.at[p] && v.links[p] != p;
  }

  lemma PlannedJoin(L: Links, at: Places, t: nat, w: Worker, e: End)
    requires Carried(L, at, t, w) && e in Joins(ScriptOf(w))
    ensures e in L && e in at && at[e] == Planned(t) && L[e] == Joins(ScriptOf(w))[e]
  {
    var joins := Joins(ScriptOf(w));
    assert joins[e] == joins[e];
  }

  // The principal port of a node not begun is going to be connected, or is held from outside.
  lemma UnbegunPort(sys: System, held: set<End>, s: Shared, v: View, t: nat, n: NodeId)
    requires Ok(sys, held, s, v) && t < |s.workers| && Unbegun(s.workers[t], v.builds[t], n)
    ensures Principal(n) in v.links ==> Principal(n) in v.at && v.at[Principal(n)] == Planned(t)
  {
    hide WellFormed, SamePairing, Sound, GoodSystem, ClaimsOk, HoldersOk, LocksOk, NamesOk, WiresOk, SlotsLive,
      Doing, OneTask, FreeLive, NodesOk, Promised;
    OneWorker(held, s.cells, v, s.workers, t);
    NewNodeFate(v.builds[t], v.ins[t], s.workers[t].script, n);
    if Principal(n) in Joins(s.workers[t].script) {
      PlannedJoin(v.links, v.at, t, s.workers[t], Principal(n));
    }
    NotLinked(v.net, held, v.links, Principal(n));
  }

  // Whoever waits for a lock that is free finds a complete node; so does whoever has the lock to read.
  lemma ReadNode(sys: System, held: set<End>, s: Shared, v: View, t: nat)
    requires Ok(sys, held, s, v) && t < |s.workers| && s.workers[t].Reading?
    requires s.workers[t].locked || Current(s.workers[t]) !in s.locks
    ensures var n := Current(s.workers[t]);
            && n in s.nodes && n in v.net.nodes && s.nodes[n] == v.net.nodes[n] && v.net.nodes[n].Complete()
  {
    hide WellFormed, SamePairing, Sound, GoodSystem, NamesOk, WiresOk, SlotsLive, Carried, BuildOk, AuxFrom,
      HoldersOk, ClaimsOk, Alive;
    var w, n := s.workers[t], Current(s.workers[t]);
    OneWorker(held, s.cells, v, s.workers, t);
    ClaimPorts(sys, held, s, v, w.job, n);
    ClaimedNode(sys, held, s, v, w.job, n);
    if w.locked {
      assert HasLock(w, n) && s.locks[n] == t;
    }
    forall t' | 0 <= t' < |s.workers| && OpenedBy(s.nodes, s.workers[t'], v.builds[t'], n)
      ensures n in s.locks && s.locks[n] == t'
    {
      assert HasLock(s.workers[t'], n);
    }
    assert s.nodes[n] == v.net.nodes[n];
    NetBuilt(v.net, held, n);
  }

  lemma NetBuilt(net: Net, held: set<End>, n: NodeId)
    requires WellFormed(net, held) && n in net.nodes
    ensures net.nodes[n].Complete() && net.nodes[n].WellBuilt(n)
  {
  }

  // What an end in a worker's hand is to the others.
  lemma FreeEnd(sys: System, held: set<End>, s: Shared, v: View, t: nat, e: End)
    requires Ok(sys, held, s, v) && t < |s.workers| && s.workers[t].Building? && e in v.builds[t].free
    ensures e in v.links ==> e in v.at && v.at[e] == Planned(t)
  {
    hide WellFormed, SamePairing, Sound, GoodSystem, ClaimsOk, HoldersOk, LocksOk, NamesOk, WiresOk, SlotsLive,
      Held, OneTask, FreeLive, NodesOk, Carried;
    OneWorker(held, s.cells, v, s.workers, t);
    var b, final := v.builds[t], Final(v.builds[t], s.workers[t]);
    Fate(b, v.ins[t], s.workers[t].script, e);
    if GoesIntoSlot(b, final, e) {
      var n, i :| n in final.nodes && Unfinished(b, n) && i in final.nodes[n].slots && final.nodes[n].slots[i] == e;
      assert v.net.nodes[n].slots[i] == e;
      assert InSlot(v.net.nodes, e);
    }
    if e in Joins(s.workers[t].script) {
      PlannedJoin(v.links, v.at, t, s.workers[t], e);
    }
    NotLinked(v.net, held, v.links, e);
  }

  // ----- Moves that leave most of the invariant alone -----

  lemma SimilarNodes(nodes: map<NodeId, Node>, net: Net, workers: seq<Worker>, builds: seq<Build>, t: nat, w: Worker)
    requires |workers| == |builds| && NodesOk(nodes, net, workers, builds) && t < |workers|
    requires w.Building? == workers[t].Building?
    requires w.Building? ==> w.open == workers[t].open && w.script == workers[t].script
    requires forall n :: HalfRead(workers[t], n) <==> HalfRead(w, n)
    requires forall n :: HasLock(w, n) ==> HasLock(workers[t], n) || (w.Reading? && n in nodes)
    ensures NodesOk(nodes, net, workers[t := w], builds)
  {
    hide AllAllowed, PerformAll;
    var after := workers[t := w];
    forall n | n in nodes && n in net.nodes && nodes[n] != net.nodes[n]
      ensures exists t' :: 0 <= t' < |after| && OpenedBy(nodes, after[t'], builds[t'], n)
    {
      var t' :| 0 <= t' < |workers| && OpenedBy(nodes, workers[t'], builds[t'], n);
      assert OpenedBy(nodes, after[t'], builds[t'], n);
    }
    forall n | n in net.nodes && n !in nodes
      ensures exists t' :: 0 <= t' < |after| && (Unbegun(after[t'], builds[t'], n) || HalfRead(after[t'], n))
    {
      var t' :| 0 <= t' < |workers| && (Unbegun(workers[t'], builds[t'], n) || HalfRead(workers[t'], n));
      assert Unbegun(after[t'], builds[t'], n) || HalfRead(after[t'], n);
    }
    forall t', n | 0 <= t' < |after| && HasLock(after[t'], n)
      ensures n in nodes && (after[t'].Building? ==> OpenedBy(nodes, after[t'], builds[t'], n))
    {
      if t' != t || HasLock(workers[t], n) {
        assert HasLock(workers[t'], n);
      }
    }
    forall t', n | 0 <= t' < |after| && HalfRead(after[t'], n)
      ensures n !in nodes
    {
      assert HalfRead(workers[t'], n);
    }
  }

  lemma SimilarLocks(locks: map<NodeId, nat>, workers: seq<Worker>, t: nat, w: Worker)
    requires LocksOk(locks, workers) && t < |workers|
    requires forall n :: HasLock(w, n) <==> HasLock(workers[t], n)
    ensures LocksOk(locks, workers[t := w])
  {
    var after := workers[t := w];
    forall t', n | 0 <= t' < |after| && HasLock(after[t'], n)
      ensures n in locks && locks[n] == t'
    {
      assert HasLock(workers[t'], n);
    }
  }

  lemma SimilarWires(cells: Cells, freed: set<Wire>, created: set<Wire>, workers: seq<Worker>, t: nat, w: Worker)
    requires WiresOk(cells, freed, created, workers) && t < |workers|
    requires forall x :: Doomed(w, x) ==> Doomed(workers[t], x)
    ensures WiresOk(cells, freed, created, workers[t := w])
  {
    var after := workers[t := w];
    forall t', x | 0 <= t' < |after| && Doomed(after[t'], x)
      ensures Doomed(workers[t'], x)
    {
    }
  }

  lemma SimilarNames(nodes: map<NodeId, Node>, net: Net, created: set<Wire>, workers: seq<Worker>, builds: seq<Build>,
                     t: nat, w: Worker)
    requires |workers| == |builds| && NamesOk(nodes, net, created, workers, builds) && t < |workers|
    requires w.Building? ==> workers[t].Building?
    ensures NamesOk(nodes, net, created, workers[t := w], builds)
  {
    var after := workers[t := w];
    forall t' | 0 <= t' < |after| && after[t'].Building?
      ensures workers[t'].Building?
    {
    }
  }

  // The tasks are the same, only held by somebody else.
  lemma SameClaims(rules: seq<Rule>, net: Net, L: Links, at: Places, claims: map<Found, Holder>,
                   claims': map<Found, Holder>)
    requires ClaimsOk(rules, net, L, at, claims) && claims'.Keys == claims.Keys
    ensures ClaimsOk(rules, net, L, at, claims')
  {
    assert forall f :: f in claims' <==> f in claims.Keys;
    forall l, r | Claimed(claims, l, r)
      ensures Claimed(claims', l, r)
    {
      var f :| f in claims && (f.task == Task(l, r) || f.task == Task(r, l));
      assert f in claims';
    }
  }

  // ----- Taking a task -----

  lemma TakeHolders(claims: map<Found, Holder>, queue: set<Found>, workers: seq<Worker>, t: nat, f: Found)
    requires HoldersOk(claims, queue, workers) && t < |workers| && workers[t].Idle? && f in queue
    ensures HoldersOk(claims[f := ReadBy(t)], queue - {f}, workers[t := Reading(f, false, false, 0, [])])
  {
    var after, claims' := workers[t := Reading(f, false, false, 0, [])], claims[f := ReadBy(t)];
    forall g | g in claims'
      ensures HolderOk(queue - {f}, after, g, claims'[g])
    {
      if g != f {
        assert HolderOk(queue, workers, g, claims[g]);
      }
    }
    forall t', g | 0 <= t' < |after| && g in FoundOf(after[t'])
      ensures g in claims' && claims'[g] == FoundBy(t')
    {
      assert g in FoundOf(workers[t']);
    }
  }

  lemma TakeWorkers(sys: System, held: set<End>, s: Shared, v: View, t: nat, f: Found)
    requires Ok(sys, held, s, v) && CanTake(s, t, f)
    ensures AllWorkersOk(held, s.cells, v.(claims := v.claims[f := ReadBy(t)]), Take(s, t, f).workers)
  {
    hide WellFormed, SamePairing, Sound, GoodSystem, NodesOk, LocksOk, NamesOk, WiresOk, SlotsLive, BuildOk, Carried;
    var after, v' := Take(s, t, f).workers, v.(claims := v.claims[f := ReadBy(t)]);
    assert v.claims[f] == InQueue;
    assert ClaimOk(sys.rules, v.net, v.links, v.at, f);
    forall t' | 0 <= t' < |after|
      ensures WorkerOk(held, s.cells, v', t', after[t'])
    {
      assert WorkerOk(held, s.cells, v, t', s.workers[t']);
      if t' == t {
        NothingCarried(v.links, v.at, t, s.workers[t], after[t]);
      }
    }
  }

  lemma NothingCarried(L: Links, at: Places, t: nat, w: Worker, w': Worker)
    requires Carried(L, at, t, w) && Joins(ScriptOf(w')) == Joins(ScriptOf(w)) && PendingOf(w') == PendingOf(w)
    ensures Carried(L, at, t, w')
  {
  }

  lemma Queued(claims: map<Found, Holder>, queue: set<Found>, workers: seq<Worker>, f: Found)
    requires HoldersOk(claims, queue, workers) && f in queue
    ensures f in claims && claims[f] == InQueue
  {
  }

  lemma TakeKeeps(sys: System, held: set<End>, s: Shared, v: View, t: nat, f: Found)
    requires Ok(sys, held, s, v) && CanTake(s, t, f)
    ensures Ok(sys, held, Take(s, t, f), v.(claims := v.claims[f := ReadBy(t)]))
  {
    hide NetOk, Sound, NodesOk, LocksOk, NamesOk, WiresOk, SlotsLive, AllWorkersOk, ClaimsOk, Alive, HoldersOk;
    TakeWorkers(sys, held, s, v, t, f);
    Queued(v.claims, s.queue, s.workers, f);
    var w := Reading(f, false, false, 0, []);
    SimilarNodes(s.nodes, v.net, s.workers, v.builds, t, w);
    SimilarLocks(s.locks, s.workers, t, w);
    SimilarWires(s.cells, s.freed, v.created, s.workers, t, w);
    SimilarNames(s.nodes, v.net, v.created, s.workers, v.builds, t, w);
    TakeHolders(v.claims, s.queue, s.workers, t, f);
    assert v.claims[f := ReadBy(t)].Keys == v.claims.Keys;
    SameClaims(sys.rules, v.net, v.links, v.at, v.claims, v.claims[f := ReadBy(t)]);
  }

  // ----- Locking -----

  lemma LockKeeps(sys: System, held: set<End>, s: Shared, v: View, t: nat)
    requires Ok(sys, held, s, v) && Enabled(s, t) && s.workers[t].Reading? && !s.workers[t].locked
    ensures Ok(sys, held, LockNode(s, t), v)
  {
    hide NetOk, Sound, NodesOk, LocksOk, NamesOk, WiresOk, SlotsLive, AllWorkersOk, ClaimsOk, Alive, HoldersOk;
    ReadNode(sys, held, s, v, t);
    SameReader(sys, held, s, v, t, s.workers[t].(locked := true));
    SimilarNodes(s.nodes, v.net, s.workers, v.builds, t, s.workers[t].(locked := true));
    LockedLocks(s.locks, s.workers, t);
    var w := s.workers[t].(locked := true);
    SimilarWires(s.cells, s.freed, v.created, s.workers, t, w);
    SimilarNames(s.nodes, v.net, v.created, s.workers, v.builds, t, w);
    SimilarHolders(v.claims, s.queue, s.workers, t, w);
  }

  lemma SimilarHolders(claims: map<Found, Holder>, queue: set<Found>, workers: seq<Worker>, t: nat, w: Worker)
    requires HoldersOk(claims, queue, workers) && t < |workers| && FoundOf(w) == FoundOf(workers[t])
    requires workers[t].Reading? ==> w.Reading? && w.job == workers[t].job
    ensures HoldersOk(claims, queue, workers[t := w])
  {
    var after := workers[t := w];
    forall f | f in claims
      ensures HolderOk(queue, after, f, claims[f])
    {
      assert HolderOk(queue, workers, f, claims[f]);
    }
    forall t', f | 0 <= t' < |after| && f in FoundOf(after[t'])
      ensures f in claims && claims[f] == FoundBy(t')
    {
      assert f in FoundOf(workers[t']);
    }
  }

  // A reader that only got the lock.
  lemma SameReader(sys: System, held: set<End>, s: Shared, v: View, t: nat, w: Worker)
    requires Ok(sys, held, s, v) && t < |s.workers| && s.workers[t].Reading? && w == s.workers[t].(locked := true)
    ensures AllWorkersOk(held, s.cells, v, s.workers[t := w])
  {
    hide WellFormed, SamePairing, Sound, GoodSystem, NodesOk, LocksOk, NamesOk, WiresOk, SlotsLive, BuildOk, Carried,
      ClaimsOk, HoldersOk, Alive;
    OneWorker(held, s.cells, v, s.workers, t);
    NothingCarried(v.links, v.at, t, s.workers[t], w);
    var after := s.workers[t := w];
    forall t' | 0 <= t' < |after|
      ensures WorkerOk(held, s.cells, v, t', after[t'])
    {
      assert WorkerOk(held, s.cells, v, t', s.workers[t']);
    }
  }

  lemma LockedLocks(locks: map<NodeId, nat>, workers: seq<Worker>, t: nat)
    requires LocksOk(locks, workers) && t < |workers| && workers[t].Reading? && !workers[t].locked
    requires Current(workers[t]) !in locks
    ensures LocksOk(locks[Current(workers[t]) := t], workers[t := workers[t].(locked := true)])
  {
    var n0, after := Current(workers[t]), workers[t := workers[t].(locked := true)];
    var locks' := locks[n0 := t];
    forall n | n in locks'
      ensures locks'[n] < |after| && HasLock(after[locks'[n]], n)
    {
      if n != n0 {
        assert locks'[n] == locks[n] && HasLock(workers[locks[n]], n);
      }
    }
    forall t', n | 0 <= t' < |after| && HasLock(after[t'], n)
      ensures n in locks' && locks'[n] == t'
    {
      if t' != t {
        assert HasLock(workers[t'], n);
      }
    }
  }

  // ----- Reading a slot -----

  lemma ReadKeeps(sys: System, held: set<End>, s: Shared, v: View, t: nat)
    requires Ok(sys, held, s, v) && t < |s.workers| && s.workers[t].Reading? && s.workers[t].locked
    requires var n := Current(s.workers[t]); n in s.nodes && s.workers[t].index < s.nodes[n].ctor.Arity()
    ensures Ok(sys, held, ReadSlot(s, t, Current(s.workers[t])), v)
  {
    hide NetOk, Sound, NodesOk, LocksOk, NamesOk, WiresOk, SlotsLive, AllWorkersOk, ClaimsOk, Alive, HoldersOk;
    ReadNode(sys, held, s, v, t);
    var n := Current(s.workers[t]);
    assert s.workers[t].index in s.nodes[n].slots;
    var w := ReadSlot(s, t, n).workers[t];
    NextSlot(held, s, v, t, n, w);
    SimilarNodes(s.nodes, v.net, s.workers, v.builds, t, w);
    SimilarLocks(s.locks, s.workers, t, w);
    SimilarWires(s.cells, s.freed, v.created, s.workers, t, w);
    SimilarNames(s.nodes, v.net, v.created, s.workers, v.builds, t, w);
    SimilarHolders(v.claims, s.queue, s.workers, t, w);
  }

  lemma SlotLive(cells: Cells, nodes: map<NodeId, Node>, n: NodeId, i: nat)
    requires SlotsLive(cells, nodes) && n in nodes && i in nodes[n].slots && nodes[n].slots[i].WireEnd?
    ensures nodes[n].slots[i].wire in cells
  {
  }

  // The worker after it has read the end `e` from its slot.
  function WithEnd(w: Worker, e: End): Worker
    requires w.Reading?
  {
    w.(index := w.index + 1, ends := if e.Principal? then w.ends else w.ends + [e])
  }

  lemma EndRead(held: set<End>, cells: Cells, v: View, t: nat, w: Worker, e: End)
    requires w.Reading? && t < |v.builds| && t < |v.ins| && WorkerOk(held, cells, v, t, w)
    requires var node := v.net.nodes[Current(w)];
             w.index < node.ctor.Arity() && w.index in node.slots && node.slots[w.index] == e
    requires e.WireEnd? ==> e.wire in cells
    ensures WorkerOk(held, cells, v, t, WithEnd(w, e))
  {
    hide BuildOk, Carried, AuxEnds;
    var w', node := WithEnd(w, e), v.net.nodes[Current(w)];
    NothingCarried(v.links, v.at, t, w, w');
    if e.WireEnd? {
      assert w.ends + [e] + AuxFrom(node, w'.index) == w.ends + ([e] + AuxFrom(node, w'.index));
    }
  }

  lemma OthersStay(held: set<End>, cells: Cells, v: View, workers: seq<Worker>, t: nat, w: Worker)
    requires |workers| == |v.builds| == |v.ins| && AllWorkersOk(held, cells, v, workers) && t < |workers|
    requires WorkerOk(held, cells, v, t, w)
    ensures AllWorkersOk(held, cells, v, workers[t := w])
  {
    hide WorkerOk;
  }

  lemma NextSlot(held: set<End>, s: Shared, v: View, t: nat, n: NodeId, w: Worker)
    requires t < |s.workers| && s.workers[t].Reading? && n == Current(s.workers[t])
    requires n in s.nodes && n in v.net.nodes && s.nodes[n] == v.net.nodes[n]
    requires s.workers[t].index < s.nodes[n].ctor.Arity() && s.workers[t].index in s.nodes[n].slots
    requires |s.workers| == |v.builds| == |v.ins| && AllWorkersOk(held, s.cells, v, s.workers)
    requires w == ReadSlot(s, t, n).workers[t] && SlotsLive(s.cells, s.nodes)
    ensures AllWorkersOk(held, s.cells, v, s.workers[t := w])
  {
    hide SlotsLive, WorkerOk, AllWorkersOk;
    OneWorker(held, s.cells, v, s.workers, t);
    var e := s.nodes[n].slots[s.workers[t].index];
    if e.WireEnd? {
      SlotLive(s.cells, s.nodes, n, s.workers[t].index);
    }
    assert w == WithEnd(s.workers[t], e);
    EndRead(held, s.cells, v, t, s.workers[t], e);
    OthersStay(held, s.cells, v, s.workers, t, w);
  }
}
