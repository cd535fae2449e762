/**
 A worker is done with reading a node; after the second one the interaction has happened.
 */
module ParallelStart {
  import opened Links
  import opened Script
  import opened Machine
  import opened Net
  import opened Confluence
  import opened Heap
  import opened Race
  import opened Plans
  import opened Parallel
  import opened ParallelOk
  import opened ParallelTake
  import opened ParallelBuild
  import opened ParallelNodes
  import opened ParallelConnect

  // Worker `t` has read all of node `n`.
  ghost predicate Releasing(s: Shared, v: View, t: nat, n: NodeId) {
    && t < |s.workers| && t < |v.builds| && t < |v.ins| && s.workers[t].Reading? && s.workers[t].locked
    && n == Current(s.workers[t]) && n in s.nodes && s.workers[t].index >= s.nodes[n].ctor.Arity()
  }

  lemma ReleaseFacts(sys: System, held: set<End>, s: Shared, v: View, t: nat, n: NodeId)
    requires Ok(sys, held, s, v) && Releasing(s, v, t, n)
    ensures n in v.net.nodes && s.nodes[n] == v.net.nodes[n] && n in s.locks && s.locks[n] == t
    ensures ReadOk(v.net, v.claims, t, s.workers[t]) && EndsLive(s.cells, s.workers[t].ends)
    ensures Carried(v.links, v.at, t, s.workers[t])
    ensures var l, r := s.workers[t].job.task.left, s.workers[t].job.task.right;
            s.workers[t].ends == if s.workers[t].second then TaskIns(v.net, l, r) else AuxEnds(v.net.nodes[l])
  {
    hide NetOk, Sound, NodesOk, NamesOk, WiresOk, SlotsLive, ClaimsOk, Alive, HoldersOk, Carried;
    ReadNode(sys, held, s, v, t);
    OneWorker(held, s.cells, v, s.workers, t);
    assert HasLock(s.workers[t], n);
    assert AuxFrom(v.net.nodes[n], s.workers[t].index) == [];
  }

  // ----- The shared part of both -----

  lemma ReleaseSlots(cells: Cells, nodes: map<NodeId, Node>, n: NodeId)
    requires SlotsLive(cells, nodes)
    ensures SlotsLive(cells, nodes - {n})
  {
    var nodes' := nodes - {n};
    forall m, i | m in nodes' && i in nodes'[m].slots && nodes'[m].slots[i].WireEnd?
      ensures nodes'[m].slots[i].wire in cells
    {
      assert nodes'[m].slots[i] == nodes[m].slots[i];
    }
  }

  lemma ReleaseLocks(locks: map<NodeId, nat>, workers: seq<Worker>, t: nat, n: NodeId, w: Worker)
    requires LocksOk(locks, workers) && t < |workers| && workers[t].Reading? && workers[t].locked
    requires n == Current(workers[t]) && (w.Reading? ==> !w.locked) && (w.Building? ==> w.open.None?)
    ensures LocksOk(locks - {n}, workers[t := w])
  {
    assert HasLock(workers[t], n);
    FinishLocks(locks, workers, t, n, w);
  }

  // ----- The first node -----

  lemma FirstNodes(nodes: map<NodeId, Node>, net: Net, locks: map<NodeId, nat>, workers: seq<Worker>,
                   builds: seq<Build>,
                   t: nat, n: NodeId, w: Worker)
    requires |workers| == |builds| && NodesOk(nodes, net, workers, builds) && LocksOk(locks, workers) && t < |workers|
    requires workers[t].Reading? && workers[t].locked && n == Current(workers[t]) && !workers[t].second
    requires w.Reading? && w.second && !w.locked && w.job == workers[t].job
    ensures NodesOk(nodes - {n}, net, workers[t := w], builds)
  {
    var after, nodes' := workers[t := w], nodes - {n};
    assert HasLock(workers[t], n) && HalfRead(w, n) && forall m :: !HalfRead(workers[t], m);
    FirstHeld(nodes, locks, workers, builds, t, n, w);
    hide AllAllowed, PerformAll, HasLock, HalfRead, Unbegun, OpenedBy, NodesHeld;
    forall m | m in nodes' && m in net.nodes && nodes'[m] != net.nodes[m]
      ensures exists t' :: 0 <= t' < |after| && OpenedBy(nodes', after[t'], builds[t'], m)
    {
      StillOpened(nodes, net, workers, builds, after, builds, t, n, m);
    }
    forall m | m in net.nodes && m !in nodes'
      ensures exists t' :: 0 <= t' < |after| && (Unbegun(after[t'], builds[t'], m) || HalfRead(after[t'], m))
    {
      if m == n {
        assert HalfRead(after[t], m);
      } else {
        FirstAbsent(nodes, net, workers, builds, after, t, m);
      }
    }
  }

  lemma FirstAbsent(nodes: map<NodeId, Node>, net: Net, workers: seq<Worker>, builds: seq<Build>, after: seq<Worker>,
                    t: nat, m: NodeId)
    requires |workers| == |builds| == |after| && NodesOk(nodes, net, workers, builds)
    requires t < |workers| && workers[t].Reading? && !workers[t].second
    requires forall t' :: 0 <= t' < |workers| && t' != t ==> after[t'] == workers[t']
    requires m in net.nodes && m !in nodes
    ensures exists t' :: 0 <= t' < |after| && (Unbegun(after[t'], builds[t'], m) || HalfRead(after[t'], m))
  {
    hide AllAllowed, PerformAll, OpenedBy, HasLock;
    var t' :| 0 <= t' < |workers| && (Unbegun(workers[t'], builds[t'], m) || HalfRead(workers[t'], m));
    assert t' != t;
    assert Unbegun(after[t'], builds[t'], m) || HalfRead(after[t'], m);
  }

  lemma FirstHeld(nodes: map<NodeId, Node>, locks: map<NodeId, nat>, workers: seq<Worker>, builds: seq<Build>,
                  t: nat, n: NodeId, w: Worker)
    requires |workers| == |builds| && t < |workers| && LocksOk(locks, workers)
    requires HasLock(workers[t], n) && workers[t].Reading? && NodesHeld(nodes, workers, builds)
    requires w.Reading? && w.second && !w.locked && w.job.task.left == n
    ensures NodesHeld(nodes - {n}, workers[t := w], builds)
  {
    var after, nodes' := workers[t := w], nodes - {n};
    assert n in locks && locks[n] == t;
    forall t', m | 0 <= t' < |after| && HasLock(after[t'], m)
      ensures m in nodes' && (after[t'].Building? ==> OpenedBy(nodes', after[t'], builds[t'], m))
    {
      assert HasLock(workers[t'], m);
    }
    forall t', m | 0 <= t' < |after| && HalfRead(after[t'], m)
      ensures m !in nodes'
    {
      assert t' == t || HalfRead(workers[t'], m);
    }
  }

  lemma FewerNames(nodes: map<NodeId, Node>, net: Net, created: set<Wire>, workers: seq<Worker>, builds: seq<Build>,
                   n: NodeId)
    requires |workers| == |builds| && NamesOk(nodes, net, created, workers, builds)
    ensures NamesOk(nodes - {n}, net, created, workers, builds)
  {
    forall t | 0 <= t < |workers| && workers[t].Building?
      ensures forall m :: m in nodes - {n} && m.makers == builds[t].makers ==> m.k < builds[t].next
    {
      assert forall m :: m in nodes - {n} ==> m in nodes;
    }
  }

  lemma FirstKeeps(sys: System, held: set<End>, s: Shared, v: View, t: nat, n: NodeId)
    requires Ok(sys, held, s, v) && Releasing(s, v, t, n) && !s.workers[t].second
    ensures Ok(sys, held, Release(sys, s, t, n), v)
  {
    hide NetOk, Sound, NodesOk, LocksOk, NamesOk, WiresOk, SlotsLive, AllWorkersOk, ClaimsOk, Alive, HoldersOk,
      Carried, ReadOk, EndsLive;
    ReleaseFacts(sys, held, s, v, t, n);
    var w' := Reading(s.workers[t].job, true, false, 0, s.workers[t].ends);
    FirstWorker(held, s.cells, v, t, s.workers[t], w');
    assert v.(builds := v.builds[t := v.builds[t]]) == v;
    Others(sys, held, s, v, t, v.builds[t], w');
    FirstNodes(s.nodes, v.net, s.locks, s.workers, v.builds, t, n, w');
    ReleaseSlots(s.cells, s.nodes, n);
    ReleaseLocks(s.locks, s.workers, t, n, w');
    SimilarHolders(v.claims, s.queue, s.workers, t, w');
    SimilarWires(s.cells, s.freed, v.created, s.workers, t, w');
    SimilarNames(s.nodes, v.net, v.created, s.workers, v.builds, t, w');
    FewerNames(s.nodes, v.net, v.created, s.workers[t := w'], v.builds, n);
  }

  lemma FirstWorker(held: set<End>, cells: Cells, v: View, t: nat, w: Worker, w': Worker)
    requires t < |v.builds| && t < |v.ins| && w.Reading? && !w.second && ReadOk(v.net, v.claims, t, w)
    requires EndsLive(cells, w.ends) && Carried(v.links, v.at, t, w)
    requires w.ends == AuxEnds(v.net.nodes[w.job.task.left]) && w' == Reading(w.job, true, false, 0, w.ends)
    ensures WorkerOk(held, cells, v, t, w')
  {
    hide EndsLive;
    NothingCarried(v.links, v.at, t, w, w');
  }

  // ----- The second node: the interaction -----

  // What the view becomes.
  function Interacted(sys: System, v: View, t: nat, f: Found, ends: seq<End>): View
    requires f.task.left in v.net.nodes && f.task.right in v.net.nodes && t < |v.builds| && t < |v.ins|
  {
    var l, r := f.task.left, f.task.right;
    var A := TaskEffect(sys, v.net, l, r).links;
    v.(net := Interact(sys, v.net, l, r), links := v.links + A, at := PlanAt(v.at, A, t), claims := v.claims - {f},
       builds := v.builds[t := Start({l, r}, EndSet(ends))], ins := v.ins[t := EndSet(ends)])
  }

  // Everything known about the task when its second node has been read.
  ghost predicate Starting(sys: System, held: set<End>, v: View, t: nat, f: Found) {
    var l, r := f.task.left, f.task.right;
    && NetOk(sys, held, v.net, v.links) && l in v.net.nodes && r in v.net.nodes && l != r
    && Ready(sys, v.net, l, r) && FindRule(sys.rules, v.net.nodes[l].ctor, v.net.nodes[r].ctor) == Some(f.rule)
    && f in v.claims && v.claims[f] == ReadBy(t)
    && Principal(l) in v.links && Principal(r) in v.links && v.links[Principal(l)] == Principal(r)
    && Principal(l) in v.at && v.at[Principal(l)] == Met && Principal(r) in v.at && v.at[Principal(r)] == Met
  }

  lemma ClaimReady(sys: System, held: set<End>, s: Shared, v: View, t: nat)
    requires Ok(sys, held, s, v) && t < |s.workers| && s.workers[t].Reading?
    ensures Starting(sys, held, v, t, s.workers[t].job)
  {
    hide WellFormed, GoodSystem, CellsAgree, LinksLive, NodesOk, LocksOk, NamesOk, WiresOk, SlotsLive, Alive, HoldersOk,
      Carried, BuildOk, Partner, FindRule;
    OneWorker(held, s.cells, v, s.workers, t);
    var f := s.workers[t].job;
    var l, r := f.task.left, f.task.right;
    assert ClaimOk(sys.rules, v.net, v.links, v.at, f);
    ClaimPorts(sys, held, s, v, f, l);
    ClaimPorts(sys, held, s, v, f, r);
    DirectPartner(v.links, l, r);
    assert Outer(v.links, Principal(l));
    assert Principal(l) in v.links.Keys && v.links.Keys <= v.net.links.Keys;
    assert Outer(v.net.links, Principal(l));
    NetMatching(v.net, held);
  }

  lemma NetMatching(net: Net, held: set<End>)
    requires WellFormed(net, held)
    ensures Matching(net.links)
  {
  }

  lemma DirectPartner(L: Links, l: NodeId, r: NodeId)
    requires Matching(L) && Principal(l) in L && L[Principal(l)] == Principal(r)
    ensures Partner(L, Principal(l)) == Principal(r)
  {
  }

  // What the body is going to do, and what that makes of the net.
  lemma Effects(sys: System, held: set<End>, v: View, t: nat, f: Found)
    requires Starting(sys, held, v, t, f)
    ensures var l, r := f.task.left, f.task.right;
            var ins, b := TaskIns(v.net, l, r), TaskEffect(sys, v.net, l, r);
            var script := BodyScript(sys, f.rule, {l, r}, ins);
            && Inputs({l, r}, ins) && Doing(Start({l, r}, EndSet(ins)), EndSet(ins), script)
            && PerformAll(Start({l, r}, EndSet(ins)), script) == b && b.free == {} && b.open == {}
            && GoodEffect(b, {l, r}, EndSet(ins))
            && Joins(script) == b.links
  {
    hide WellFormed, SamePairing, Ready, Held, FindRule, RunBody;
    var l, r := f.task.left, f.task.right;
    var ins := TaskIns(v.net, l, r);
    TaskInputs(v.net, held, l, r);
    StartingReady(sys, held, v, t, f);
    FindRuleIn(sys.rules, v.net.nodes[l].ctor, v.net.nodes[r].ctor);
    assert GoodRule(sys, f.rule);
    assert BodyOk(sys, f.rule, {l, r}, ins);
    HeldStart({l, r}, EndSet(ins));
    TaskEffectGood(sys, v.net, held, l, r);
    var script := BodyScript(sys, f.rule, {l, r}, ins);
    JoinsFinal(Start({l, r}, EndSet(ins)), EndSet(ins), script);
    assert map[] + Joins(script) == Joins(script);
  }

  lemma StartingReady(sys: System, held: set<End>, v: View, t: nat, f: Found)
    requires Starting(sys, held, v, t, f)
    ensures var l, r := f.task.left, f.task.right;
            && GoodSystem(sys) && WellFormed(v.net, held) && Matching(v.net.links) && Ready(sys, v.net, l, r)
            && f.rule.left == v.net.nodes[l].ctor && f.rule.right == v.net.nodes[r].ctor
  {
  }

  lemma LinksApartFrom(sys: System, held: set<End>, v: View, t: nat, f: Found)
    requires Starting(sys, held, v, t, f)
    ensures var A := TaskEffect(sys, v.net, f.task.left, f.task.right).links;
            Matching(A) && v.net.links.Keys !! A.Keys && v.links.Keys !! A.Keys
  {
    hide Ready, FindRule, TaskEffect, Built, Fresh, Conserved;
    var l, r := f.task.left, f.task.right;
    StartingReady(sys, held, v, t, f);
    TaskEffectGood(sys, v.net, held, l, r);
    StartingPorts(sys, held, v, t, f);
    ReplaceLinks(v.net, held, l, r, TaskEffect(sys, v.net, l, r));
    assert v.links.Keys <= v.net.links.Keys;
  }

  lemma StartingPorts(sys: System, held: set<End>, v: View, t: nat, f: Found)
    requires Starting(sys, held, v, t, f)
    ensures Principal(f.task.left) in v.net.links && Principal(f.task.right) in v.net.links
  {
    hide WellFormed, GoodSystem, Ready, FindRule;
    assert v.links.Keys <= v.net.links.Keys;
    assert Principal(f.task.left) in v.links.Keys && Principal(f.task.right) in v.links.Keys;
  }

  lemma InteractedNet(sys: System, held: set<End>, v: View, t: nat, f: Found)
    requires Starting(sys, held, v, t, f)
    ensures var A := TaskEffect(sys, v.net, f.task.left, f.task.right).links;
            NetOk(sys, held, Interact(sys, v.net, f.task.left, f.task.right), v.links + A)
  {
    hide WellFormed, SamePairing, GoodSystem, Ready, FindRule, TaskEffect;
    StartingReady(sys, held, v, t, f);
    InteractWellFormed(sys, v.net, held, f.task.left, f.task.right);
    LinksApartFrom(sys, held, v, t, f);
    SamePairingUnion(v.net.links, v.links, TaskEffect(sys, v.net, f.task.left, f.task.right).links);
  }

  // The nodes: two are gone, those of the body have come.
  lemma InteractedNodes(sys: System, held: set<End>, v: View, t: nat, f: Found)
    requires Starting(sys, held, v, t, f)
    ensures var l, r, net := f.task.left, f.task.right, v.net;
            var b, net' := TaskEffect(sys, net, l, r), Interact(sys, net, l, r);
            && b.nodes.Keys !! net.nodes.Keys
            && (forall n :: n in net.nodes && n != l && n != r ==> n in net'.nodes && net'.nodes[n] == net.nodes[n])
            && (forall n :: n in b.nodes ==> n in net'.nodes && net'.nodes[n] == b.nodes[n])
            && (forall n :: n in net'.nodes ==> n in b.nodes || (n in net.nodes && n != l && n != r))
            && net'.dead == net.dead + {l, r}
            && (forall e :: e in b.links && e.Principal? ==> e.node in b.nodes)
            && (forall n :: n in b.nodes ==> Principal(n) in b.links)
            && l !in net.dead
  {
    hide Ready, FindRule, TaskEffect, SamePairing, GoodSystem, Placed, Conserved, Built;
    var l, r := f.task.left, f.task.right;
    StartingReady(sys, held, v, t, f);
    TaskEffectGood(sys, v.net, held, l, r);
    StartingPorts(sys, held, v, t, f);
    var b := TaskEffect(sys, v.net, l, r);
    NewNames(v.net, held, l, r, b);
    EffectPorts(sys, v.net, held, l, r, b);
    assert l in v.net.nodes.Keys;
  }

  lemma EffectPorts(sys: System, net: Net, held: set<End>, l: NodeId, r: NodeId, b: Build)
    requires WellFormed(net, held) && l in net.nodes && r in net.nodes && l != r
    requires GoodEffect(b, {l, r}, EndSet(TaskIns(net, l, r)))
    ensures forall e :: e in b.links && e.Principal? ==> e.node in b.nodes
    ensures forall n :: n in b.nodes ==> Principal(n) in b.links
  {
    hide Placed, Conserved, Fresh, Apart, Shaped;
    TaskInputs(net, held, l, r);
    forall n | n in b.nodes
      ensures Principal(n) in b.links
    {
      assert Script.Known(b, EndSet(TaskIns(net, l, r)), Principal(n));
    }
    forall e | e in b.links && e.Principal?
      ensures e.node in b.nodes
    {
      assert Script.Known(b, EndSet(TaskIns(net, l, r)), e);
    }
  }

  // ----- Everybody else -----

  // No other worker still has one of the two nodes to finish.
  lemma NotUnfinished(sys: System, held: set<End>, s: Shared, v: View, t: nat, n: NodeId, t': nat, m: NodeId)
    requires Ok(sys, held, s, v) && Releasing(s, v, t, n) && s.workers[t].second
    requires t' < |s.workers| && s.workers[t'].Building?
    requires m == s.workers[t].job.task.left || m == s.workers[t].job.task.right
    requires AllAllowed(v.builds[t'], s.workers[t'].script) && m in Final(v.builds[t'], s.workers[t']).nodes
    ensures !Unfinished(v.builds[t'], m)
  {
    hide NetOk, Sound, NamesOk, WiresOk, SlotsLive, ClaimsOk, Alive, HoldersOk, Carried, Held, OneTask, Promised,
      AuxFrom;
    OneWorker(held, s.cells, v, s.workers, t);
    OneWorker(held, s.cells, v, s.workers, t');
    ClaimPorts(sys, held, s, v, s.workers[t].job, m);
    assert HasLock(s.workers[t], n) && HalfRead(s.workers[t], s.workers[t].job.task.left);
    assert s.locks[n] == t;
    if m !in v.builds[t'].nodes {
      UnbegunPort(sys, held, s, v, t', m);
    }
    assert m in v.builds[t'].open ==> HasLock(s.workers[t'], m);
  }

  lemma StartUndisturbed(sys: System, held: set<End>, s: Shared, v: View, t: nat, n: NodeId, t': nat)
    requires Ok(sys, held, s, v) && Releasing(s, v, t, n) && s.workers[t].second && t' < |s.workers| && t' != t
    requires Starting(sys, held, v, t, s.workers[t].job)
    ensures Undisturbed(v, Interacted(sys, v, t, s.workers[t].job, s.workers[t].ends), s.cells, t', s.workers[t'])
  {
    hide NetOk, CellsAgree, LinksLive, AllPlaced, NodesOk, LocksOk, NamesOk, WiresOk, SlotsLive, Alive, HoldersOk,
      ClaimsOk,
      Carried, Held, OneTask, Starting, TaskEffect, Untouched, Promised, AllAllowed, PerformAll, ReadOk, EndsLive,
          NodeStays,
      Interact, FreeLive;
    var f := s.workers[t].job;
    OneWorker(held, s.cells, v, s.workers, t');
    StartingIn(sys, held, v, t, f);
    LinksApartFrom(sys, held, v, t, f);
    PlacedOf(s.cells, v.links, v.at);
    PlanElsewhere(v.links, v.at, TaskEffect(sys, v.net, f.task.left, f.task.right).links, t, t');
    InteractedNodes(sys, held, v, t, f);
    if s.workers[t'].Building? {
      StartPromised(sys, held, s, v, t, n, t');
    }
    if s.workers[t'].Reading? {
      StartReader(sys, held, s, v, t, n, t');
    }
  }

  // Another reader reads other nodes.
  lemma StartReader(sys: System, held: set<End>, s: Shared, v: View, t: nat, n: NodeId, t': nat)
    requires Ok(sys, held, s, v) && Releasing(s, v, t, n) && s.workers[t].second && t' < |s.workers| && t' != t
    requires Starting(sys, held, v, t, s.workers[t].job) && s.workers[t'].Reading?
    ensures var f, g := s.workers[t].job, s.workers[t'].job;
            var net' := Interact(sys, v.net, f.task.left, f.task.right);
            && g in v.claims - {f} && (v.claims - {f})[g] == v.claims[g] && EndsLive(s.cells, s.workers[t'].ends)
            && NodeStays(v.net, net', g.task.left) && NodeStays(v.net, net', g.task.right)
  {
    hide NetOk, Sound, NodesOk, LocksOk, NamesOk, WiresOk, SlotsLive, Alive, HoldersOk, Carried, TaskEffect, Interact,
      AuxFrom, Ready, FindRule, ClaimOk, EndsLive;
    OneWorker(held, s.cells, v, s.workers, t');
    OneWorker(held, s.cells, v, s.workers, t);
    InteractedNodes(sys, held, v, t, s.workers[t].job);
    assert s.workers[t'].job != s.workers[t].job;
    assert !Shares(s.workers[t'].job, s.workers[t].job);
  }

  lemma StartingIn(sys: System, held: set<End>, v: View, t: nat, f: Found)
    requires Starting(sys, held, v, t, f)
    ensures f.task.left in v.net.nodes && f.task.right in v.net.nodes && f.task.left != f.task.right
    ensures f in v.claims && v.claims[f] == ReadBy(t)
  {
  }

  lemma StartPromised(sys: System, held: set<End>, s: Shared, v: View, t: nat, n: NodeId, t': nat)
    requires Ok(sys, held, s, v) && Releasing(s, v, t, n) && s.workers[t].second && t' < |s.workers| && t' != t
    requires Starting(sys, held, v, t, s.workers[t].job) && s.workers[t'].Building?
    ensures AllAllowed(v.builds[t'], s.workers[t'].script)
    ensures Promised(Interact(sys, v.net, s.workers[t].job.task.left, s.workers[t].job.task.right), v.builds[t'],
                     Final(v.builds[t'], s.workers[t']))
  {
    hide NetOk, Sound, NodesOk, LocksOk, NamesOk, WiresOk, SlotsLive, Alive, HoldersOk, ClaimsOk,
      Carried, Held, OneTask, TaskEffect, AuxFrom, FindRule, Ready;
    var f := s.workers[t].job;
    OneWorker(held, s.cells, v, s.workers, t');
    InteractedNodes(sys, held, v, t, f);
    var b, final := v.builds[t'], Final(v.builds[t'], s.workers[t']);
    forall m | m in final.nodes && Unfinished(b, m)
      ensures var net' := Interact(sys, v.net, f.task.left, f.task.right);
              m in net'.nodes && net'.nodes[m] == final.nodes[m]
    {
      if m == f.task.left || m == f.task.right {
        NotUnfinished(sys, held, s, v, t, n, t', m);
        assert false;
      }
    }
  }

  // ----- The worker itself -----

  lemma StartWorker(sys: System, held: set<End>, s: Shared, v: View, t: nat, n: NodeId, w': Worker)
    requires Ok(sys, held, s, v) && Releasing(s, v, t, n) && s.workers[t].second
    requires Starting(sys, held, v, t, s.workers[t].job)
    requires var f := s.workers[t].job;
             w' == Building(BodyScript(sys, f.rule, {f.task.left, f.task.right}, s.workers[t].ends), Quiet, {}, None)
    ensures WorkerOk(held, s.cells, Interacted(sys, v, t, s.workers[t].job, s.workers[t].ends), t, w')
  {
    hide NetOk, CellsAgree, LinksLive, NodesOk, LocksOk, NamesOk, WiresOk, SlotsLive, Alive, HoldersOk, ClaimsOk,
      Held, TaskEffect, AuxFrom, FindRule, Ready, AllWorkersOk, BodyScript, Starting, GoodEffect, Planning, InFlight,
          Interact;
    var f, ends := s.workers[t].job, s.workers[t].ends;
    var l, r := f.task.left, f.task.right;
    ReleaseFacts(sys, held, s, v, t, n);
    StartingIn(sys, held, v, t, f);
    Effects(sys, held, v, t, f);
    LinksApartFrom(sys, held, v, t, f);
    InteractedNodes(sys, held, v, t, f);
    PlacedOf(s.cells, v.links, v.at);
    var b, final := Start({l, r}, EndSet(ends)), TaskEffect(sys, v.net, l, r);
    StartCarried(v.links, v.at, final.links, t, s.workers[t]);
    StartFree(s.cells, {l, r}, ends);
    assert Promised(Interact(sys, v.net, l, r), b, final);
  }

  lemma StartFree(cells: Cells, makers: set<NodeId>, ends: seq<End>)
    requires EndsLive(cells, ends)
    ensures FreeLive(cells, Start(makers, EndSet(ends)))
  {
    forall e | e in ends
      ensures e.WireEnd? && e.wire in cells
    {
      var i :| 0 <= i < |ends| && ends[i] == e;
    }
  }

  lemma StartCarried(L: Links, at: Places, A: Links, t: nat, w: Worker)
    requires AllPlaced(L, at) && Carried(L, at, t, w) && w.Reading? && L.Keys !! A.Keys
    ensures Planning(L + A, PlanAt(at, A, t), t, A) && InFlight(L + A, PlanAt(at, A, t), t, Quiet)
  {
    var M, at' := L + A, PlanAt(at, A, t);
    forall e | e in M && e in at' && e !in A
      ensures at'[e] != Planned(t) && at'[e] != Flying(t)
    {
      assert e in L && at'[e] == at[e];
    }
  }

  // ----- Nodes, tasks, names -----

  lemma StartAlive(sys: System, held: set<End>, v: View, t: nat, f: Found)
    requires Starting(sys, held, v, t, f) && AllPlaced(v.links, v.at) && Alive(v.net, v.links, v.at)
    ensures var A := TaskEffect(sys, v.net, f.task.left, f.task.right).links;
            Alive(Interact(sys, v.net, f.task.left, f.task.right), v.links + A, PlanAt(v.at, A, t))
  {
    hide NetOk, TaskEffect, Interact, FindRule, Ready;
    var l, r := f.task.left, f.task.right;
    InteractedNodes(sys, held, v, t, f);
    var A := TaskEffect(sys, v.net, l, r).links;
    var M, at' := v.links + A, PlanAt(v.at, A, t);
    forall e | e in M && e in at' && e.Principal? && !at'[e].Met?
      ensures e.node in Interact(sys, v.net, l, r).nodes
    {
      if e !in A {
        assert e in v.links && v.at[e] == at'[e];
      }
    }
  }

  lemma PlanPlaces(at: Places, A: Links, count: nat, t: nat)
    requires PlacesOf(at, count) && t < count
    ensures PlacesOf(PlanAt(at, A, t), count)
  {
    var at' := PlanAt(at, A, t);
    forall x | x in at' && (at'[x].Planned? || at'[x].Flying?)
      ensures at'[x].worker < count
    {
      assert x in A || at[x] == at'[x];
    }
  }

  lemma StartClaims(sys: System, held: set<End>, v: View, t: nat, f: Found)
    requires Starting(sys, held, v, t, f) && AllPlaced(v.links, v.at)
    requires ClaimsOk(sys.rules, v.net, v.links, v.at, v.claims)
    ensures var A := TaskEffect(sys, v.net, f.task.left, f.task.right).links;
            ClaimsOk(sys.rules, Interact(sys, v.net, f.task.left, f.task.right), v.links + A, PlanAt(v.at, A, t),
                     v.claims - {f})
  {
    hide NetOk, TaskEffect, Interact, FindRule, Ready;
    var l, r := f.task.left, f.task.right;
    InteractedNodes(sys, held, v, t, f);
    LinksApartFrom(sys, held, v, t, f);
    var net' := Interact(sys, v.net, l, r);
    var b, claims' := TaskEffect(sys, v.net, l, r), v.claims - {f};
    var M, at' := v.links + b.links, PlanAt(v.at, b.links, t);
    forall x
      ensures x in M && x in at' && at'[x] == Met <==> x in v.links && x in v.at && v.at[x] == Met
      ensures x in v.links ==> x in M && M[x] == v.links[x] && x !in b.links
    {
      StartMet(v.links, v.at, b.links, t, x);
    }
    hide PlanAt, AllPlaced;
    forall g | g in claims'
      ensures ClaimOk(sys.rules, net', M, at', g)
    {
      assert v.claims[g] == v.claims[g] && v.claims[f] == v.claims[f];
      assert ClaimOk(sys.rules, v.net, v.links, v.at, g);
      assert !Shares(f, g);
    }
    hide ClaimOk, Claimed;
    forall x, y | x in net'.nodes && y in net'.nodes && Principal(x) in M && M[Principal(x)] == Principal(y)
                  && Principal(x) in at' && at'[Principal(x)] == Met
                  && FindRule(sys.rules, net'.nodes[x].ctor, net'.nodes[y].ctor).Some?
      ensures Claimed(claims', x, y)
    {
      assert Principal(x) in v.links && Principal(y) in v.links;
      assert x !in b.nodes && y !in b.nodes;
      assert Claimed(v.claims, x, y);
      ClaimedWithout(v.claims, f, x, y);
    }
  }

  lemma ClaimedWithout(claims: map<Found, Holder>, f: Found, x: NodeId, y: NodeId)
    requires Claimed(claims, x, y) && x != f.task.left && x != f.task.right
    ensures Claimed(claims - {f}, x, y)
  {
    var g :| g in claims && (g.task == Task(x, y) || g.task == Task(y, x));
    assert g in claims - {f};
  }

  lemma StartMet(L: Links, at: Places, A: Links, t: nat, x: End)
    requires AllPlaced(L, at) && Matching(A) && L.Keys !! A.Keys
    ensures var M, at' := L + A, PlanAt(at, A, t);
            && (x in M && x in at' && at'[x] == Met <==> x in L && x in at && at[x] == Met)
            && (x in L ==> x in M && M[x] == L[x] && x !in A && L[x] in L)
  {
    assert x in L ==> x in L.Keys;
    assert x in at ==> x in at.Keys;
  }

  lemma StartHolders(claims: map<Found, Holder>, queue: set<Found>, workers: seq<Worker>, t: nat, w: Worker)
    requires HoldersOk(claims, queue, workers) && t < |workers| && workers[t].Reading? && FoundOf(w) == {}
    requires workers[t].job in claims && claims[workers[t].job] == ReadBy(t)
    ensures HoldersOk(claims - {workers[t].job}, queue, workers[t := w])
  {
    var f, after := workers[t].job, workers[t := w];
    var claims' := claims - {f};
    forall g | g in claims'
      ensures HolderOk(queue, after, g, claims'[g])
    {
      assert HolderOk(queue, workers, g, claims[g]);
    }
    forall t', g | 0 <= t' < |after| && g in FoundOf(after[t'])
      ensures g in claims' && claims'[g] == FoundBy(t')
    {
      assert g in FoundOf(workers[t']);
    }
  }

  lemma StartNames(nodes: map<NodeId, Node>, net: Net, net': Net, created: set<Wire>, workers: seq<Worker>,
                   builds: seq<Build>,
                   t: nat, w: Worker, b: Build, l: NodeId, n: NodeId)
    requires |workers| == |builds| && NamesOk(nodes, net, created, workers, builds) && t < |workers|
    requires w.Building? && net.dead <= net'.dead && l in b.makers && l !in net.dead
    requires forall t' {:trigger workers[t']} :: 0 <= t' < |workers| && workers[t'].Building? ==>
               builds[t'].makers <= net.dead
    requires forall m :: m in nodes ==> m.makers <= net.dead
    requires !workers[t].Building?
    ensures NamesOk(nodes - {n}, net', created, workers[t := w], builds[t := b])
  {
    var after, builds' := workers[t := w], builds[t := b];
    forall t' | 0 <= t' < |after| && after[t'].Building? && t' != t
      ensures workers[t'].Building? && builds'[t'] == builds[t'] && l !in builds[t'].makers
    {
    }
    assert forall m :: m in nodes - {n} ==> m in nodes;
    forall t', t'' | 0 <= t' < t'' < |after| && after[t'].Building? && after[t''].Building?
      ensures builds'[t'].makers != builds'[t''].makers
    {
      if t' != t && t'' != t {
        assert workers[t'].Building? && workers[t''].Building?;
      }
    }
  }

  lemma StartMakers(sys: System, held: set<End>, s: Shared, v: View)
    requires Ok(sys, held, s, v)
    ensures forall t' {:trigger s.workers[t']} :: 0 <= t' < |s.workers| && s.workers[t'].Building? ==>
              v.builds[t'].makers <= v.net.dead
    ensures forall m :: m in s.nodes ==> m.makers <= v.net.dead
  {
    hide Sound, LocksOk, NamesOk, WiresOk, SlotsLive, ClaimsOk, Alive, HoldersOk, Carried, Doing, OneTask, Placed,
      Conserved,
      Built, GoodSystem, SamePairing;
    forall t' | 0 <= t' < |s.workers| && s.workers[t'].Building?
      ensures v.builds[t'].makers <= v.net.dead
    {
      OneWorker(held, s.cells, v, s.workers, t');
    }
    forall m | m in s.nodes
      ensures m.makers <= v.net.dead
    {
      assert m in s.nodes.Keys;
    }
  }

  // The nodes of the body are all still to be begun.
  lemma StartNodes(nodes: map<NodeId, Node>, net: Net, net': Net, locks: map<NodeId, nat>, workers: seq<Worker>,
                   builds: seq<Build>, t: nat, n: NodeId, w: Worker, b: Build, made: map<NodeId, Node>)
    requires |workers| == |builds| && NodesOk(nodes, net, workers, builds) && LocksOk(locks, workers) && t < |workers|
    requires workers[t].Reading? && workers[t].locked && n == Current(workers[t]) && workers[t].second
    requires w.Building? && w.open.None? && AllAllowed(b, w.script) && b.nodes == map[]
    requires PerformAll(b, w.script).nodes == made && made.Keys !! net.nodes.Keys
    requires var l := workers[t].job.task.left;
             && (forall m :: m in net.nodes && m != l && m != n ==> m in net'.nodes && net'.nodes[m] == net.nodes[m])
             && (forall m :: m in net'.nodes ==> m in made || (m in net.nodes && m != l && m != n))
    ensures NodesOk(nodes - {n}, net', workers[t := w], builds[t := b])
  {
    var after, builds', nodes', l := workers[t := w], builds[t := b], nodes - {n}, workers[t].job.task.left;
    assert HasLock(workers[t], n) && HalfRead(workers[t], l);
    assert n in locks && locks[n] == t && l !in nodes;
    forall m | m in nodes'
      ensures m in net.nodes && m in net'.nodes && net'.nodes[m] == net.nodes[m] && m in nodes
    {
      assert m in nodes.Keys;
    }
    StartHeld(nodes, locks, workers, builds, t, n, w, b);
    StartAway(nodes, net, net', workers, builds, t, n, w, b, made);
    hide AllAllowed, PerformAll, OpenedBy, HalfRead, Unbegun, HasLock, NodesHeld, NodesAway;
    forall m | m in nodes' && m in net'.nodes && nodes'[m] != net'.nodes[m]
      ensures exists t' :: 0 <= t' < |after| && OpenedBy(nodes', after[t'], builds'[t'], m)
    {
      StillOpened(nodes, net, workers, builds, after, builds', t, n, m);
    }
  }

  lemma StartAway(nodes: map<NodeId, Node>, net: Net, net': Net, workers: seq<Worker>,
                  builds: seq<Build>, t: nat, n: NodeId, w: Worker, b: Build, made: map<NodeId, Node>)
    requires |workers| == |builds| && NodesOk(nodes, net, workers, builds) && t < |workers| && workers[t].Reading?
    requires w.Building? && AllAllowed(b, w.script) && b.nodes == map[] && PerformAll(b, w.script).nodes == made
    requires forall m :: m in net'.nodes ==> m in made || (m in net.nodes && m != workers[t].job.task.left && m != n)
    ensures NodesAway(nodes - {n}, net', workers[t := w], builds[t := b])
  {
    var after, builds', nodes' := workers[t := w], builds[t := b], nodes - {n};
    hide AllAllowed, PerformAll, OpenedBy, HalfRead, Unbegun, HasLock, NodesHeld, NodesThere;
    forall m | m in net'.nodes && m !in nodes'
      ensures exists t' :: 0 <= t' < |after| && (Unbegun(after[t'], builds'[t'], m) || HalfRead(after[t'], m))
    {
      if m in made {
        NotBegun(w, b, m);
        assert Unbegun(after[t], builds'[t], m);
      } else {
        StillAbsent(nodes, net, workers, builds, after, builds', t, m);
      }
    }
  }

  lemma NotBegun(w: Worker, b: Build, m: NodeId)
    requires w.Building? && AllAllowed(b, w.script) && m in PerformAll(b, w.script).nodes && m !in b.nodes
    ensures Unbegun(w, b, m)
  {
  }

  lemma StillOpened(nodes: map<NodeId, Node>, net: Net, workers: seq<Worker>, builds: seq<Build>,
                    after: seq<Worker>, builds': seq<Build>, t: nat, n: NodeId, m: NodeId)
    requires |workers| == |builds| == |after| == |builds'| && NodesOk(nodes, net, workers, builds)
    requires t < |workers| && workers[t].Reading?
    requires forall t' :: 0 <= t' < |workers| && t' != t ==> after[t'] == workers[t'] && builds'[t'] == builds[t']
    requires m in nodes && m != n && m in net.nodes && nodes[m] != net.nodes[m]
    ensures exists t' :: 0 <= t' < |after| && OpenedBy(nodes - {n}, after[t'], builds'[t'], m)
  {
    hide AllAllowed, PerformAll, HasLock, HalfRead;
    var t' :| 0 <= t' < |workers| && OpenedBy(nodes, workers[t'], builds[t'], m);
    assert OpenedBy(nodes - {n}, after[t'], builds'[t'], m);
  }

  lemma StillAbsent(nodes: map<NodeId, Node>, net: Net, workers: seq<Worker>, builds: seq<Build>,
                    after: seq<Worker>, builds': seq<Build>, t: nat, m: NodeId)
    requires |workers| == |builds| == |after| == |builds'| && NodesOk(nodes, net, workers, builds)
    requires t < |workers| && workers[t].Reading?
    requires forall t' :: 0 <= t' < |workers| && t' != t ==> after[t'] == workers[t'] && builds'[t'] == builds[t']
    requires m in net.nodes && m !in nodes && m != workers[t].job.task.left
    ensures exists t' :: 0 <= t' < |after| && (Unbegun(after[t'], builds'[t'], m) || HalfRead(after[t'], m))
  {
    hide AllAllowed, PerformAll, OpenedBy, HasLock;
    var t' :| 0 <= t' < |workers| && (Unbegun(workers[t'], builds[t'], m) || HalfRead(workers[t'], m));
    assert t' != t;
    assert Unbegun(after[t'], builds'[t'], m) || HalfRead(after[t'], m);
  }

  lemma StartHeld(nodes: map<NodeId, Node>, locks: map<NodeId, nat>, workers: seq<Worker>, builds: seq<Build>,
                  t: nat, n: NodeId, w: Worker, b: Build)
    requires |workers| == |builds| && t < |workers| && LocksOk(locks, workers) && w.Building? && w.open.None?
    requires HasLock(workers[t], n) && workers[t].Reading? && NodesHeld(nodes, workers, builds)
    ensures NodesHeld(nodes - {n}, workers[t := w], builds[t := b])
  {
    var after, builds', nodes' := workers[t := w], builds[t := b], nodes - {n};
    assert n in locks && locks[n] == t;
    forall t', m | 0 <= t' < |after| && HasLock(after[t'], m)
      ensures m in nodes' && (after[t'].Building? ==> OpenedBy(nodes', after[t'], builds'[t'], m))
    {
      assert HasLock(workers[t'], m);
    }
    forall t', m | 0 <= t' < |after| && HalfRead(after[t'], m)
      ensures m !in nodes'
    {
      assert HalfRead(workers[t'], m);
    }
  }

  lemma SecondKeeps(sys: System, held: set<End>, s: Shared, v: View, t: nat, n: NodeId)
    requires Ok(sys, held, s, v) && Releasing(s, v, t, n) && s.workers[t].second
    ensures Starting(sys, held, v, t, s.workers[t].job)
    ensures Ok(sys, held, Release(sys, s, t, n), Interacted(sys, v, t, s.workers[t].job, s.workers[t].ends))
  {
    hide NetOk, Sound, NodesOk, LocksOk, NamesOk, WiresOk, SlotsLive, AllWorkersOk, ClaimsOk, Alive, HoldersOk,
      WorkerOk, Undisturbed, ReadOk, Starting, TaskEffect, Interact, EndsLive, AllPlaced, Doing, BodyScript, GoodEffect;
    ReleaseFacts(sys, held, s, v, t, n);
    ClaimReady(sys, held, s, v, t);
    var f, ends := s.workers[t].job, s.workers[t].ends;
    var l, r := f.task.left, f.task.right;
    StartingIn(sys, held, v, t, f);
    Effects(sys, held, v, t, f);
    LinksApartFrom(sys, held, v, t, f);
    InteractedNodes(sys, held, v, t, f);
    InteractedNet(sys, held, v, t, f);
    var v' := Interacted(sys, v, t, f, ends);
    var w', b := Building(BodyScript(sys, f.rule, {l, r}, ends), Quiet, {}, None), Start({l, r}, EndSet(ends));
    SoundParts(s.cells, v.links, v.at);
    PlacedOf(s.cells, v.links, v.at);
    Plan(s.cells, v.links, v.at, TaskEffect(sys, v.net, l, r).links, t);
    SoundParts(s.cells, v'.links, v'.at);
    StartWorker(sys, held, s, v, t, n, w');
    forall t' | 0 <= t' < |s.workers| && t' != t
      ensures Undisturbed(v, v', s.cells, t', s.workers[t'])
    {
      StartUndisturbed(sys, held, s, v, t, n, t');
    }
    OthersUndisturbed(held, s.cells, v, s.cells, v', s.workers, t, w');
    StartAlive(sys, held, v, t, f);
    PlanPlaces(v.at, TaskEffect(sys, v.net, l, r).links, |s.workers|, t);
    StartClaims(sys, held, v, t, f);
    SecondNodes(sys, held, s, v, t, n, w', b);
    ReleaseSlots(s.cells, s.nodes, n);
    ReleaseLocks(s.locks, s.workers, t, n, w');
    StartHolders(v.claims, s.queue, s.workers, t, w');
    SimilarWires(s.cells, s.freed, v.created, s.workers, t, w');
    StartMakers(sys, held, s, v);
    StartNames(s.nodes, v.net, v'.net, v.created, s.workers, v.builds, t, w', b, l, n);
  }

  lemma SecondNodes(sys: System, held: set<End>, s: Shared, v: View, t: nat, n: NodeId, w: Worker, b: Build)
    requires Ok(sys, held, s, v) && Releasing(s, v, t, n) && s.workers[t].second
    requires var f, ends := s.workers[t].job, s.workers[t].ends;
             && Starting(sys, held, v, t, f) && ends == TaskIns(v.net, f.task.left, f.task.right)
             && w == Building(BodyScript(sys, f.rule, {f.task.left, f.task.right}, ends), Quiet, {}, None)
             && b == Start({f.task.left, f.task.right}, EndSet(ends))
    ensures var net' := Interact(sys, v.net, s.workers[t].job.task.left, s.workers[t].job.task.right);
            NodesOk(s.nodes - {n}, net', s.workers[t := w], v.builds[t := b])
  {
    hide NetOk, Sound, NodesOk, LocksOk, NamesOk, WiresOk, SlotsLive, AllWorkersOk, ClaimsOk, Alive, HoldersOk,
      ReadOk, Starting, TaskEffect, Interact, EndsLive, AllPlaced, Held, BodyScript, GoodEffect;
    var f := s.workers[t].job;
    StartingIn(sys, held, v, t, f);
    Effects(sys, held, v, t, f);
    InteractedNodes(sys, held, v, t, f);
    StartNodes(s.nodes, v.net, Interact(sys, v.net, f.task.left, f.task.right), s.locks, s.workers, v.builds, t, n, w,
               b,
               TaskEffect(sys, v.net, f.task.left, f.task.right).nodes);
  }
}
