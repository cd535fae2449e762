/**
 Two principal ports meeting, and what becomes of the task that is found.
 */
module ParallelMeet {
  import opened Links
  import opened Script
  import opened Machine
  import opened Net
  import opened Confluence
  import opened Heap
  import opened Race
  import opened Plans
  import opened Parallel
  import opened ParallelOk
  import opened ParallelTake
  import opened ParallelBuild
  import opened ParallelNodes
  import opened ParallelConnect

  ghost predicate Meeting(s: Shared, v: View, t: nat, l: End, r: End) {
    && t < |s.workers| && t < |v.builds| && t < |v.ins| && s.workers[t].Building?
    && s.workers[t].pending == Connecting(l, r) && l.Principal? && r.Principal?
  }

  // The node of a principal port that is being connected is there.
  lemma FlyingNode(sys: System, held: set<End>, s: Shared, v: View, t: nat, n: NodeId)
    requires Ok(sys, held, s, v) && Principal(n) in v.links && Principal(n) in v.at && v.at[Principal(n)] == Flying(t)
    ensures n in s.nodes && n in v.net.nodes && v.net.nodes[n].ctor == s.nodes[n].ctor
  {
    hide NetOk, Sound, LocksOk, NamesOk, WiresOk, SlotsLive, HoldersOk, BuildOk, Carried, OpenedBy, Unbegun, ClaimsOk;
    assert n in v.net.nodes;
    if n !in s.nodes {
      var t' :| 0 <= t' < |s.workers| && (Unbegun(s.workers[t'], v.builds[t'], n) || HalfRead(s.workers[t'], n));
      if Unbegun(s.workers[t'], v.builds[t'], n) {
        UnbegunPort(sys, held, s, v, t', n);
        assert false;
      } else {
        OneWorker(held, s.cells, v, s.workers, t');
        ClaimPorts(sys, held, s, v, s.workers[t'].job, n);
        assert false;
      }
    }
    NodeInNet(sys, held, s, v, n);
  }

  lemma MeetFacts(sys: System, held: set<End>, s: Shared, v: View, t: nat, l: End, r: End)
    requires Ok(sys, held, s, v) && Meeting(s, v, t, l, r)
    ensures l in v.links && v.links[l] == r && l in v.at && v.at[l] == Flying(t)
    ensures r in v.links && v.links[r] == l && r in v.at && v.at[r] == Flying(t) && l != r
    ensures BuildOk(v.net, held, s.cells, v.builds[t], v.ins[t], s.workers[t])
    ensures Carried(v.links, v.at, t, s.workers[t])
    ensures s.workers[t].found == {}
    ensures s.workers[t].open.Some? ==> Principal(s.workers[t].open.value) !in v.builds[t].free
  {
    hide NetOk, CellsAgree, LinksLive, NodesOk, LocksOk, NamesOk, WiresOk, SlotsLive, ClaimsOk, Alive, HoldersOk,
      Held, Planning, Promised;
    OneWorker(held, s.cells, v, s.workers, t);
    assert v.links[v.links[l]] == l && v.links[l] != l;
  }

  // The task the worker finds: the first rule for the two nodes, turned the way it was declared.
  function NewTask(sys: System, net: Net, l: End, r: End): Option<Found> {
    TaskFor(sys.rules, Ctors(net.nodes), l, r)
  }

  function MeetClaims(claims: map<Found, Holder>, found: Option<Found>, t: nat): map<Found, Holder> {
    if found.Some? then claims[found.value := FoundBy(t)] else claims
  }

  lemma SameTask(sys: System, nodes: map<NodeId, Node>, net: Net, l: End, r: End)
    requires l.Principal? && r.Principal? && l.node in nodes && r.node in nodes && l.node in net.nodes
               && r.node in net.nodes
    requires nodes[l.node].ctor == net.nodes[l.node].ctor && nodes[r.node].ctor == net.nodes[r.node].ctor
    ensures TaskFor(sys.rules, Ctors(nodes), l, r) == NewTask(sys, net, l, r)
  {
  }

  lemma NewClaimOk(sys: System, net: Net, L: Links, at: Places, l: End, r: End)
    requires l.Principal? && r.Principal? && l.node in net.nodes && r.node in net.nodes
    requires l in L && L[l] == r && r in L && L[r] == l && at.Keys == L.Keys && at[l] == Met && at[r] == Met
    requires NewTask(sys, net, l, r).Some?
    ensures ClaimOk(sys.rules, net, L, at, NewTask(sys, net, l, r).value)
    ensures var f := NewTask(sys, net, l, r).value;
            f.task == Task(l.node, r.node) || f.task == Task(r.node, l.node)
  {
    var ctors := Ctors(net.nodes);
    FindRuleIn(sys.rules, ctors[l.node], ctors[r.node]);
    FindRuleSymmetric(sys.rules, ctors[l.node], ctors[r.node]);
    TaskOriented(sys.rules, ctors, l, r);
    assert l in at.Keys && r in at.Keys;
  }

  lemma NoneFound(sys: System, net: Net, l: End, r: End)
    requires l.Principal? && r.Principal? && l.node in net.nodes && r.node in net.nodes
    requires NewTask(sys, net, l, r).None?
    ensures FindRule(sys.rules, net.nodes[l.node].ctor, net.nodes[r.node].ctor).None?
    ensures FindRule(sys.rules, net.nodes[r.node].ctor, net.nodes[l.node].ctor).None?
  {
    FindRuleSymmetric(sys.rules, net.nodes[l.node].ctor, net.nodes[r.node].ctor);
  }

  lemma MeetClaimsEach(sys: System, net: Net, L: Links, at: Places, claims: map<Found, Holder>, l: End, r: End, t: nat)
    requires AllPlaced(L, at) && ClaimsOk(sys.rules, net, L, at, claims) && l.Principal? && r.Principal?
    requires l in L && L[l] == r && !at[l].Met? && l.node in net.nodes && r.node in net.nodes
    ensures var claims' := MeetClaims(claims, NewTask(sys, net, l, r), t);
            && (forall f :: f in claims' ==> ClaimOk(sys.rules, net, L, Moved(at, l, r, Met), f))
            && (forall f, g :: f in claims' && g in claims' && Shares(f, g) ==> f == g)
  {
    hide TaskFor, FindRule;
    assert at[r] == at[l] && L[r] == l;
    var at', claims' := Moved(at, l, r, Met), MeetClaims(claims, NewTask(sys, net, l, r), t);
    if NewTask(sys, net, l, r).Some? {
      NewClaimOk(sys, net, L, at', l, r);
    }
    forall f | f in claims
      ensures ClaimOk(sys.rules, net, L, at', f)
      ensures f.task.left != l.node && f.task.left != r.node && f.task.right != l.node && f.task.right != r.node
    {
      assert ClaimOk(sys.rules, net, L, at, f);
      assert at[L[Principal(f.task.left)]] == Met;
    }
  }

  lemma MeetClaimsOk(sys: System, net: Net, L: Links, at: Places, claims: map<Found, Holder>, l: End, r: End, t: nat)
    requires AllPlaced(L, at) && ClaimsOk(sys.rules, net, L, at, claims) && l.Principal? && r.Principal?
    requires l in L && L[l] == r && !at[l].Met? && l.node in net.nodes && r.node in net.nodes
    ensures ClaimsOk(sys.rules, net, L, Moved(at, l, r, Met), MeetClaims(claims, NewTask(sys, net, l, r), t))
  {
    hide TaskFor, FindRule, ClaimOk;
    assert at[r] == at[l] && L[r] == l;
    var at', claims' := Moved(at, l, r, Met), MeetClaims(claims, NewTask(sys, net, l, r), t);
    MeetClaimsEach(sys, net, L, at, claims, l, r, t);
    forall x, y | x in net.nodes && y in net.nodes && Principal(x) in L && L[Principal(x)] == Principal(y)
                  && Principal(x) in at' && at'[Principal(x)] == Met
                  && FindRule(sys.rules, net.nodes[x].ctor, net.nodes[y].ctor).Some?
      ensures Claimed(claims', x, y)
    {
      if Principal(x) == l || Principal(x) == r {
        NewlyClaimed(sys, net, L, at', claims, l, r, t, x, y);
      } else {
        assert Claimed(claims, x, y);
        StillClaimed(claims, claims', x, y);
      }
    }
  }

  lemma StillClaimed(claims: map<Found, Holder>, claims': map<Found, Holder>, x: NodeId, y: NodeId)
    requires claims.Keys <= claims'.Keys && Claimed(claims, x, y)
    ensures Claimed(claims', x, y)
  {
    var f :| f in claims && (f.task == Task(x, y) || f.task == Task(y, x));
    assert f in claims'.Keys;
  }

  lemma NewlyClaimed(sys: System, net: Net, L: Links, at: Places, claims: map<Found, Holder>, l: End, r: End, t: nat,
                     x: NodeId, y: NodeId)
    requires l.Principal? && r.Principal? && l.node in net.nodes && r.node in net.nodes
    requires l in L && L[l] == r && r in L && L[r] == l && at.Keys == L.Keys && at[l] == Met && at[r] == Met
    requires (Principal(x) == l && Principal(y) == r) || (Principal(x) == r && Principal(y) == l)
    requires x in net.nodes && y in net.nodes && FindRule(sys.rules, net.nodes[x].ctor, net.nodes[y].ctor).Some?
    ensures Claimed(MeetClaims(claims, NewTask(sys, net, l, r), t), x, y)
  {
    hide FindRule, TaskFor;
    if NewTask(sys, net, l, r).None? {
      NoneFound(sys, net, l, r);
    }
    NewClaimOk(sys, net, L, at, l, r);
    var f := NewTask(sys, net, l, r).value;
    assert f in MeetClaims(claims, NewTask(sys, net, l, r), t);
  }

  // A port that was in flight was in no task.
  lemma NotClaimed(rules: seq<Rule>, net: Net, L: Links, at: Places, claims: map<Found, Holder>, l: End, r: End,
                   f: Found)
    requires AllPlaced(L, at) && ClaimsOk(rules, net, L, at, claims) && l.Principal? && r.Principal?
    requires l in L && L[l] == r && !at[l].Met? && (f.task == Task(l.node, r.node) || f.task == Task(r.node, l.node))
    ensures f !in claims
  {
    assert at[r] == at[l];
    forall g | g in claims
      ensures Principal(g.task.left) in at && at[Principal(g.task.left)] == Met
    {
      assert ClaimOk(rules, net, L, at, g);
    }
  }

  lemma MeetHolders(claims: map<Found, Holder>, queue: set<Found>, workers: seq<Worker>, t: nat, w: Worker,
                    found: Option<Found>)
    requires HoldersOk(claims, queue, workers) && t < |workers| && workers[t].Building? && workers[t].found == {}
    requires w.Building? && w.found == (if found.Some? then {found.value} else {})
    requires found.Some? ==> found.value !in claims
    ensures HoldersOk(MeetClaims(claims, found, t), queue, workers[t := w])
  {
    var after, claims' := workers[t := w], MeetClaims(claims, found, t);
    forall f | f in claims'
      ensures HolderOk(queue, after, f, claims'[f])
    {
      if f in claims {
        assert HolderOk(queue, workers, f, claims[f]);
      }
    }
    forall t', f | 0 <= t' < |after| && f in FoundOf(after[t'])
      ensures f in claims' && claims'[f] == FoundBy(t')
    {
      if t' != t {
        assert f in FoundOf(workers[t']);
      }
    }
  }

  lemma MeetWorker(sys: System, held: set<End>, s: Shared, v: View, t: nat, l: End, r: End, w': Worker)
    requires Ok(sys, held, s, v) && Meeting(s, v, t, l, r)
    requires w'.Building? && w'.script == s.workers[t].script && w'.open == s.workers[t].open && w'.pending.Quiet?
    ensures WorkerOk(held, s.cells,
                     v.(at := Moved(v.at, l, r, Met), claims := MeetClaims(v.claims, NewTask(sys, v.net, l, r), t)), t,
                         w')
  {
    hide NetOk, CellsAgree, LinksLive, AllPlaced, NodesOk, LocksOk, NamesOk, WiresOk, SlotsLive, ClaimsOk, Alive,
      HoldersOk,
      Held, Planning, InFlight, Promised, AllWorkersOk;
    MeetFacts(sys, held, s, v, t, l, r);
    PlacedOf(s.cells, v.links, v.at);
    SameBuildOk(v.net, held, s.cells, s.cells, v.builds[t], v.ins[t], s.workers[t], w');
    LandedCarried(v.links, v.at, t, s.workers[t], w', l, r, Met);
  }

  lemma MeetUndisturbed(sys: System, held: set<End>, s: Shared, v: View, t: nat, l: End, r: End, t': nat)
    requires Ok(sys, held, s, v) && Meeting(s, v, t, l, r) && t' < |s.workers| && t' != t
    requires NewTask(sys, v.net, l, r).Some? ==> NewTask(sys, v.net, l, r).value !in v.claims
    ensures Undisturbed(v, v.(at := Moved(v.at, l, r, Met),
                              claims := MeetClaims(v.claims, NewTask(sys, v.net, l, r), t)),
                        s.cells, t', s.workers[t'])
  {
    hide NetOk, CellsAgree, LinksLive, AllPlaced, NodesOk, LocksOk, NamesOk, WiresOk, SlotsLive, ClaimsOk, Alive,
      HoldersOk,
      Held, Carried, Untouched, Promised, AllWorkersOk, NewTask;
    MeetFacts(sys, held, s, v, t, l, r);
    UndisturbedMove(sys, held, s, v, t, v.builds[t], l, r, Met, t');
    OneWorker(held, s.cells, v, s.workers, t');
    assert v.builds[t := v.builds[t]] == v.builds;
  }

  lemma MetAlive(net: Net, L: Links, at: Places, l: End, r: End)
    requires AllPlaced(L, at) && Alive(net, L, at)
    ensures Alive(net, L, Moved(at, l, r, Met))
  {
    var at' := Moved(at, l, r, Met);
    forall e | e in L && e in at' && e.Principal? && !at'[e].Met?
      ensures e.node in net.nodes
    {
      assert at[e] == at'[e];
    }
  }

  lemma MeetKeeps(sys: System, held: set<End>, s: Shared, v: View, t: nat, l: End, r: End)
    requires Ok(sys, held, s, v) && Meeting(s, v, t, l, r)
    ensures Ok(sys, held, Meet(sys, s, t, l, r),
               v.(at := Moved(v.at, l, r, Met), claims := MeetClaims(v.claims, NewTask(sys, v.net, l, r), t)))
  {
    hide NetOk, Sound, NodesOk, LocksOk, NamesOk, WiresOk, SlotsLive, AllWorkersOk, ClaimsOk, Alive, HoldersOk,
      WorkerOk, Undisturbed, BuildOk, Doing, AllPlaced, NewTask, MeetClaims, TaskFor, Moved;
    MeetFacts(sys, held, s, v, t, l, r);
    FlyingNode(sys, held, s, v, t, l.node);
    FlyingNode(sys, held, s, v, t, r.node);
    SameTask(sys, s.nodes, v.net, l, r);
    var found := NewTask(sys, v.net, l, r);
    var w' := s.workers[t].(pending := Quiet, found := if found.Some? then {found.value} else {});
    var v' := v.(at := Moved(v.at, l, r, Met), claims := MeetClaims(v.claims, found, t));
    MeetStep(sys, s, t, l, r, w');
    PlacedOf(s.cells, v.links, v.at);
    MeetNew(sys, v, l, r);
    MeetWorker(sys, held, s, v, t, l, r, w');
    SoundParts(s.cells, v.links, v.at);
    MeetUp(s.cells, v.links, v.at, l, r, t);
    SoundParts(s.cells, v.links, v'.at);
    forall t' | 0 <= t' < |s.workers| && t' != t
      ensures Undisturbed(v, v', s.cells, t', s.workers[t'])
    {
      MeetUndisturbed(sys, held, s, v, t, l, r, t');
    }
    OthersUndisturbed(held, s.cells, v, s.cells, v', s.workers, t, w');
    SimilarNodes(s.nodes, v.net, s.workers, v.builds, t, w');
    MetAlive(v.net, v.links, v.at, l, r);
    MovedPlaces(v.at, |s.workers|, l, r, Met);
    MeetClaimsOk(sys, v.net, v.links, v.at, v.claims, l, r, t);
    SimilarLocks(s.locks, s.workers, t, w');
    MeetHolders(v.claims, s.queue, s.workers, t, w', found);
    SimilarWires(s.cells, s.freed, v.created, s.workers, t, w');
    SimilarNames(s.nodes, v.net, v.created, s.workers, v.builds, t, w');
  }

  lemma MeetStep(sys: System, s: Shared, t: nat, l: End, r: End, w: Worker)
    requires t < |s.workers| && s.workers[t].Building? && s.workers[t].found == {} && l.Principal? && r.Principal?
    requires l.node in s.nodes && r.node in s.nodes
    requires var found := TaskFor(sys.rules, Ctors(s.nodes), l, r);
             w == s.workers[t].(pending := Quiet, found := if found.Some? then {found.value} else {})
    ensures Meet(sys, s, t, l, r) == Set(s, t, w)
  {
    hide TaskFor;
    var found := TaskFor(sys.rules, Ctors(s.nodes), l, r);
    if found.Some? {
      assert s.workers[t].found + {found.value} == {found.value};
    } else {
      assert w == s.workers[t].(pending := Quiet);
    }
  }

  lemma MeetNew(sys: System, v: View, l: End, r: End)
    requires AllPlaced(v.links, v.at) && ClaimsOk(sys.rules, v.net, v.links, v.at, v.claims) && l.Principal?
               && r.Principal?
    requires l in v.links && v.links[l] == r && !v.at[l].Met? && l.node in v.net.nodes && r.node in v.net.nodes
    ensures NewTask(sys, v.net, l, r).Some? ==> NewTask(sys, v.net, l, r).value !in v.claims
  {
    hide ClaimsOk, AllPlaced;
    if NewTask(sys, v.net, l, r).Some? {
      NotClaimed(sys.rules, v.net, v.links, v.at, v.claims, l, r, NewTask(sys, v.net, l, r).value);
    }
  }

  // ----- Publishing a task -----

  function PublishClaims(claims: map<Found, Holder>, found: set<Found>): map<Found, Holder> {
    claims + map f | f in found :: InQueue
  }

  lemma PublishHolders(claims: map<Found, Holder>, queue: set<Found>, workers: seq<Worker>, t: nat, w: Worker)
    requires HoldersOk(claims, queue, workers) && t < |workers| && workers[t].Building? && w.Building? && w.found == {}
    ensures HoldersOk(PublishClaims(claims, workers[t].found), queue + workers[t].found, workers[t := w])
    ensures PublishClaims(claims, workers[t].found).Keys == claims.Keys
    ensures forall f :: f in workers[t].found ==> f in claims && claims[f] == FoundBy(t)
  {
    var found, after := workers[t].found, workers[t := w];
    var claims' := PublishClaims(claims, found);
    assert found == FoundOf(workers[t]);
    assert forall f :: f in found ==> f in claims.Keys;
    forall f | f in claims'
      ensures HolderOk(queue + found, after, f, claims'[f])
    {
      if f !in found {
        assert HolderOk(queue, workers, f, claims[f]);
      }
    }
    forall t', f | 0 <= t' < |after| && f in FoundOf(after[t'])
      ensures f in claims' && claims'[f] == FoundBy(t')
    {
      assert f in FoundOf(workers[t']);
    }
  }

  lemma PublishKeeps(sys: System, held: set<End>, s: Shared, v: View, t: nat)
    requires Ok(sys, held, s, v) && t < |s.workers| && s.workers[t].Building? && s.workers[t].pending.Quiet?
    ensures Ok(sys, held, Publish(s, t), v.(claims := PublishClaims(v.claims, s.workers[t].found)))
  {
    hide NetOk, Sound, NodesOk, LocksOk, NamesOk, WiresOk, SlotsLive, AllWorkersOk, ClaimsOk, Alive, HoldersOk,
      WorkerOk, Undisturbed, PublishClaims;
    var w' := s.workers[t].(found := {});
    var v' := v.(claims := PublishClaims(v.claims, s.workers[t].found));
    PublishHolders(v.claims, s.queue, s.workers, t, w');
    OneWorker(held, s.cells, v, s.workers, t);
    PublishWorker(held, s.cells, v, v', t, s.workers[t], w');
    SoundParts(s.cells, v.links, v.at);
    forall t' | 0 <= t' < |s.workers| && t' != t
      ensures Undisturbed(v, v', s.cells, t', s.workers[t'])
    {
      PublishUndisturbed(sys, held, s, v, t, t');
    }
    OthersUndisturbed(held, s.cells, v, s.cells, v', s.workers, t, w');
    SimilarNodes(s.nodes, v.net, s.workers, v.builds, t, w');
    SimilarLocks(s.locks, s.workers, t, w');
    SameClaims(sys.rules, v.net, v.links, v.at, v.claims, v'.claims);
    SimilarWires(s.cells, s.freed, v.created, s.workers, t, w');
    SimilarNames(s.nodes, v.net, v.created, s.workers, v.builds, t, w');
  }

  lemma PublishWorker(held: set<End>, cells: Cells, v: View, v': View, t: nat, w: Worker, w': Worker)
    requires t < |v.builds| && t < |v.ins| && WorkerOk(held, cells, v, t, w) && w.Building? && w.pending.Quiet?
    requires v' == v.(claims := v'.claims) && w' == w.(found := {})
    ensures WorkerOk(held, cells, v', t, w')
  {
    hide Planning, InFlight, FreeLive, Held, Promised, Joins;
  }

  lemma PublishUndisturbed(sys: System, held: set<End>, s: Shared, v: View, t: nat, t': nat)
    requires Ok(sys, held, s, v) && t < |s.workers| && s.workers[t].Building? && t' < |s.workers| && t' != t
    ensures Undisturbed(v, v.(claims := PublishClaims(v.claims, s.workers[t].found)), s.cells, t', s.workers[t'])
  {
    hide NetOk, Sound, NodesOk, LocksOk, NamesOk, WiresOk, SlotsLive, ClaimsOk, Alive, Carried, OneTask, Held;
    OneWorker(held, s.cells, v, s.workers, t');
    PublishHolders(v.claims, s.queue, s.workers, t, s.workers[t].(found := {}));
  }

  // ----- Being done -----

  lemma StopNone(nodes: map<NodeId, Node>, w: Worker, b: Build, n: NodeId)
    requires w.Building? && w.script == [] && w.open.None?
    ensures !Unbegun(w, b, n) && !OpenedBy(nodes, w, b, n) && !HalfRead(w, n) && !HalfRead(Idle, n) && !HasLock(Idle, n)
  {
  }

  lemma StopNodes(nodes: map<NodeId, Node>, net: Net, workers: seq<Worker>, builds: seq<Build>, t: nat)
    requires |workers| == |builds| && NodesOk(nodes, net, workers, builds) && t < |workers|
    requires workers[t].Building? && workers[t].script == [] && workers[t].open.None?
    ensures NodesOk(nodes, net, workers[t := Idle], builds)
  {
    hide Unbegun, OpenedBy, HalfRead, HasLock;
    var after := workers[t := Idle];
    forall n
      ensures !Unbegun(workers[t], builds[t], n) && !OpenedBy(nodes, workers[t], builds[t], n)
                && !HalfRead(workers[t], n)
      ensures !HalfRead(after[t], n) && !HasLock(after[t], n)
    {
      StopNone(nodes, workers[t], builds[t], n);
    }
    forall n | n in nodes && n in net.nodes && nodes[n] != net.nodes[n]
      ensures exists t' :: 0 <= t' < |after| && OpenedBy(nodes, after[t'], builds[t'], n)
    {
      var t' :| 0 <= t' < |workers| && OpenedBy(nodes, workers[t'], builds[t'], n);
      assert OpenedBy(nodes, after[t'], builds[t'], n);
    }
    forall n | n in net.nodes && n !in nodes
      ensures exists t' :: 0 <= t' < |after| && (Unbegun(after[t'], builds[t'], n) || HalfRead(after[t'], n))
    {
      var t' :| 0 <= t' < |workers| && (Unbegun(workers[t'], builds[t'], n) || HalfRead(workers[t'], n));
      assert Unbegun(after[t'], builds[t'], n) || HalfRead(after[t'], n);
    }
    forall t', n | 0 <= t' < |after| && HasLock(after[t'], n)
      ensures n in nodes && (after[t'].Building? ==> OpenedBy(nodes, after[t'], builds[t'], n))
    {
      assert HasLock(workers[t'], n);
    }
    forall t', n | 0 <= t' < |after| && HalfRead(after[t'], n)
      ensures n !in nodes
    {
      assert HalfRead(workers[t'], n);
    }
  }

  lemma StopFacts(sys: System, held: set<End>, s: Shared, v: View, t: nat)
    requires Ok(sys, held, s, v) && t < |s.workers| && s.workers[t].Building? && s.workers[t].pending.Quiet?
    requires s.workers[t].script == []
    ensures s.workers[t].open.None? && WorkerOk(held, s.cells, v, t, Idle)
  {
    hide NetOk, Sound, NodesOk, LocksOk, NamesOk, WiresOk, SlotsLive, ClaimsOk, Alive, Planning, InFlight, OneTask,
      Held;
    OneWorker(held, s.cells, v, s.workers, t);
    assert Joins(ScriptOf(Idle)) == Joins(ScriptOf(s.workers[t]));
  }

  lemma StopKeeps(sys: System, held: set<End>, s: Shared, v: View, t: nat)
    requires Ok(sys, held, s, v) && t < |s.workers| && s.workers[t].Building? && s.workers[t].pending.Quiet?
    requires s.workers[t].script == [] && (s.workers[t].found == {} || s.workers[t].open.Some?)
    ensures Ok(sys, held, Set(s, t, Idle), v)
  {
    hide NetOk, Sound, NodesOk, LocksOk, NamesOk, WiresOk, SlotsLive, AllWorkersOk, ClaimsOk, Alive, HoldersOk,
      WorkerOk, Undisturbed;
    StopFacts(sys, held, s, v, t);
    assert v.(builds := v.builds[t := v.builds[t]]) == v;
    Others(sys, held, s, v, t, v.builds[t], Idle);
    StopNodes(s.nodes, v.net, s.workers, v.builds, t);
    SimilarLocks(s.locks, s.workers, t, Idle);
    SimilarHolders(v.claims, s.queue, s.workers, t, Idle);
    SimilarWires(s.cells, s.freed, v.created, s.workers, t, Idle);
    SimilarNames(s.nodes, v.net, v.created, s.workers, v.builds, t, Idle);
  }
}
