/**
 Connecting while others connect: the steps of `connect`, `fuze` and `worker_add_task`.
 */
module ParallelConnect {
  import opened Links
  import opened Script
  import opened Machine
  import opened Net
  import opened Confluence
  import opened Heap
  import opened Race
  import opened Plans
  import opened Parallel
  import opened ParallelOk
  import opened ParallelTake
  import opened ParallelBuild
  import opened ParallelNodes

  // ----- Links that move without two ports meeting -----

  lemma MovedAlive(net: Net, L: Links, at: Places, l: End, r: End, to: Where)
    requires AllPlaced(L, at) && Alive(net, L, at) && l in L && L[l] == r && !at[l].Met?
    ensures Alive(net, L, Moved(at, l, r, to))
  {
    assert at[r] == at[l] && L[r] == l;
    var at' := Moved(at, l, r, to);
    forall e | e in L && e in at' && e.Principal? && !at'[e].Met?
      ensures e.node in net.nodes
    {
      assert at[e] == at[e];
    }
  }

  lemma MovedClaims(rules: seq<Rule>, net: Net, L: Links, at: Places, claims: map<Found, Holder>, l: End, r: End,
                    to: Where)
    requires AllPlaced(L, at) && ClaimsOk(rules, net, L, at, claims) && l in L && L[l] == r && !at[l].Met? && !to.Met?
    ensures ClaimsOk(rules, net, L, Moved(at, l, r, to), claims)
  {
    assert at[r] == at[l];
    var at' := Moved(at, l, r, to);
    forall f | f in claims
      ensures ClaimOk(rules, net, L, at', f)
    {
      assert ClaimOk(rules, net, L, at, f);
    }
  }

  lemma MovedPlaces(at: Places, count: nat, l: End, r: End, to: Where)
    requires PlacesOf(at, count) && (to.Planned? || to.Flying? ==> to.worker < count)
    ensures PlacesOf(Moved(at, l, r, to), count)
  {
    var at' := Moved(at, l, r, to);
    forall e | e in at' && (at'[e].Planned? || at'[e].Flying?)
      ensures at'[e].worker < count
    {
      assert e == l || e == r || at[e] == at'[e];
    }
  }

  lemma SameNames(nodes: map<NodeId, Node>, net: Net, created: set<Wire>, workers: seq<Worker>, builds: seq<Build>,
                  t: nat, w: Worker, c: Build)
    requires |workers| == |builds| && NamesOk(nodes, net, created, workers, builds) && t < |workers|
    requires workers[t].Building? && w.Building? && c.makers == builds[t].makers && c.next == builds[t].next
    ensures NamesOk(nodes, net, created, workers[t := w], builds[t := c])
  {
    var after, builds' := workers[t := w], builds[t := c];
    forall t' | 0 <= t' < |after| && after[t'].Building?
      ensures workers[t'].Building? && builds'[t'].makers == builds[t'].makers && builds'[t'].next == builds[t'].next
    {
    }
  }

  // ----- Starting to connect -----

  lemma JoinFacts(sys: System, held: set<End>, s: Shared, v: View, t: nat, l: End, r: End)
    requires Ok(sys, held, s, v) && CanAct(s, v, t) && s.workers[t].script[0] == Join(l, r)
    ensures l in v.links && v.links[l] == r && l in v.at && v.at[l] == Planned(t)
    ensures (l.WireEnd? ==> l.wire in s.cells) && (r.WireEnd? ==> r.wire in s.cells)
    ensures var joins := Joins(s.workers[t].script[1..]);
            l != r && l !in joins && r !in joins && Joins(s.workers[t].script) == Link(joins, l, r)
  {
    hide NetOk, Sound, NodesOk, LocksOk, SlotsLive, ClaimsOk, Alive, HoldersOk, Carried, OneTask, Held, NamesOk,
      WiresOk;
    ActFacts(sys, held, s, v, t);
    Plans.JoinOnce(v.builds[t], v.ins[t], s.workers[t].script);
    PlannedJoin(v.links, v.at, t, s.workers[t], l);
  }

  lemma JoinPlanning(L: Links, at: Places, t: nat, before: Links, after: Links, l: End, r: End)
    requires AllPlaced(L, at) && Planning(L, at, t, before) && l in L && L[l] == r && at[l] == Planned(t)
    requires l !in after && r !in after && before == Link(after, l, r)
    ensures Planning(L, Moved(at, l, r, Flying(t)), t, after)
  {
    assert at[r] == at[l] && L[r] == l;
    var at' := Moved(at, l, r, Flying(t));
    forall e | e in after
      ensures e in L && e in at' && at'[e] == Planned(t) && L[e] == after[e]
    {
      assert before[e] == after[e];
    }
    forall e | e in L && e in at' && at'[e] == Planned(t)
      ensures e in after
    {
      assert at[e] == Planned(t);
      assert e in before;
    }
  }

  lemma JoinInFlight(L: Links, at: Places, t: nat, l: End, r: End)
    requires AllPlaced(L, at) && InFlight(L, at, t, Quiet) && l in L && L[l] == r
    ensures InFlight(L, Moved(at, l, r, Flying(t)), t, Connecting(l, r))
  {
    assert at[r] == at[l] && L[r] == l;
    var at' := Moved(at, l, r, Flying(t));
    assert forall e {:trigger at[e]} :: e in L && e in at ==> at[e] != Flying(t);
  }

  lemma JoinCarried(L: Links, at: Places, t: nat, w: Worker, w': Worker, l: End, r: End)
    requires AllPlaced(L, at) && Carried(L, at, t, w) && w.Building? && w.pending.Quiet? && l in L && L[l] == r
    requires w'.Building? && w'.pending == Connecting(l, r) && at[l] == Planned(t)
    requires l !in Joins(w'.script) && r !in Joins(w'.script) && Joins(w.script) == Link(Joins(w'.script), l, r)
    ensures Carried(L, Moved(at, l, r, Flying(t)), t, w')
  {
    hide AllPlaced, Planning, InFlight, Joins;
    JoinPlanning(L, at, t, Joins(w.script), Joins(w'.script), l, r);
    JoinInFlight(L, at, t, l, r);
  }

  lemma JoinOneTask(b: Build, w: Worker, w': Worker, l: End, r: End)
    requires w.Building? && w.pending.Quiet? && OneTask(b, w) && (w.found == {} || w.open.Some?)
    requires b.open == (if w.open.Some? then {w.open.value} else {}) && Allowed(b, Join(l, r))
    requires w'.Building? && w'.open == w.open && w'.found == w.found && w'.pending == Connecting(l, r)
    ensures OneTask(Perform(b, Join(l, r)), w')
  {
  }

  lemma JoinWorker(sys: System, held: set<End>, s: Shared, v: View, t: nat, l: End, r: End)
    requires Ok(sys, held, s, v) && CanAct(s, v, t) && s.workers[t].script[0] == Join(l, r)
    ensures WorkerOk(held, s.cells,
                     v.(builds := v.builds[t := Perform(v.builds[t], Join(l, r))], at := Moved(v.at, l, r, Flying(t))),
                     t, s.workers[t].(script := s.workers[t].script[1..], pending := Connecting(l, r)))
  {
    hide NetOk, NodesOk, LocksOk, SlotsLive, ClaimsOk, Alive, HoldersOk, Held, NamesOk, WiresOk,
      CellsAgree, LinksLive, OneTask, Carried, AllPlaced;
    ActFacts(sys, held, s, v, t);
    JoinFacts(sys, held, s, v, t, l, r);
    var w, b := s.workers[t], v.builds[t];
    var w' := w.(script := w.script[1..], pending := Connecting(l, r));
    JoinOneTask(b, w, w', l, r);
    ActBuildOk(v.net, held, s.cells, s.cells, b, v.ins[t], w, w');
    JoinCarried(v.links, v.at, t, w, w', l, r);
  }

  lemma UndisturbedMove(sys: System, held: set<End>, s: Shared, v: View, t: nat, b: Build, l: End, r: End, to: Where,
                        t': nat)
    requires Ok(sys, held, s, v) && t < |s.workers| && t' < |s.workers| && t' != t
    requires l in v.links && v.links[l] == r && (v.at[l] == Planned(t) || v.at[l] == Flying(t))
    requires to != Planned(t') && to != Flying(t')
    ensures Undisturbed(v, v.(builds := v.builds[t := b], at := Moved(v.at, l, r, to)), s.cells, t', s.workers[t'])
  {
    hide NetOk, CellsAgree, LinksLive, NodesOk, LocksOk, NamesOk, WiresOk, SlotsLive, ClaimsOk, Alive, HoldersOk,
      Carried,
      OneTask, Held;
    OneWorker(held, s.cells, v, s.workers, t');
    MovedElsewhere(v.links, v.at, l, r, to, t');
  }

  lemma JoinKeeps(sys: System, held: set<End>, s: Shared, v: View, t: nat, l: End, r: End)
    requires Ok(sys, held, s, v) && CanAct(s, v, t) && s.workers[t].script[0] == Join(l, r)
    ensures Ok(sys, held, Act(s, t),
               v.(builds := v.builds[t := Perform(v.builds[t], Join(l, r))], at := Moved(v.at, l, r, Flying(t))))
  {
    hide NetOk, Sound, NodesOk, LocksOk, NamesOk, WiresOk, SlotsLive, AllWorkersOk, ClaimsOk, Alive, HoldersOk,
      WorkerOk, Undisturbed, BuildOk, Doing, AllPlaced;
    ActFacts(sys, held, s, v, t);
    JoinFacts(sys, held, s, v, t, l, r);
    var w, b := s.workers[t], v.builds[t];
    var w', c := w.(script := w.script[1..], pending := Connecting(l, r)), Perform(b, Join(l, r));
    var v' := v.(builds := v.builds[t := c], at := Moved(v.at, l, r, Flying(t)));
    JoinWorker(sys, held, s, v, t, l, r);
    SoundParts(s.cells, v.links, v.at);
    Launch(s.cells, v.links, v.at, l, r, t);
    SoundParts(s.cells, v.links, v'.at);
    forall t' | 0 <= t' < |s.workers| && t' != t
      ensures Undisturbed(v, v', s.cells, t', s.workers[t'])
    {
      UndisturbedMove(sys, held, s, v, t, c, l, r, Flying(t), t');
    }
    OthersUndisturbed(held, s.cells, v, s.cells, v', s.workers, t, w');
    SameNodes(s.nodes, v.net, s.workers, v.builds, v.ins[t], t, w');
    PlacedOf(s.cells, v.links, v.at);
    MovedAlive(v.net, v.links, v.at, l, r, Flying(t));
    MovedPlaces(v.at, |s.workers|, l, r, Flying(t));
    MovedClaims(sys.rules, v.net, v.links, v.at, v.claims, l, r, Flying(t));
    SimilarLocks(s.locks, s.workers, t, w');
    SimilarHolders(v.claims, s.queue, s.workers, t, w');
    SimilarWires(s.cells, s.freed, v.created, s.workers, t, w');
    SameNames(s.nodes, v.net, v.created, s.workers, v.builds, t, w', c);
  }

  lemma PlacedOf(cells: Cells, L: Links, at: Places)
    requires Sound(cells, L, at)
    ensures AllPlaced(L, at)
  {
  }

  // ----- Finding an empty cell -----

  // Worker `t` is about to exchange at an end of its pending pair.
  ghost predicate Exchanging(s: Shared, v: View, t: nat, e: End, value: End) {
    && t < |s.workers| && t < |v.builds| && t < |v.ins| && s.workers[t].Building? && s.workers[t].pending.Connecting?
    && e.WireEnd?
    && var l, r := s.workers[t].pending.left, s.workers[t].pending.right;
       if l.WireEnd? then e == l && value == r else e == r && value == l
  }

  lemma ExchangeFacts(sys: System, held: set<End>, s: Shared, v: View, t: nat, e: End, value: End)
    requires Ok(sys, held, s, v) && Exchanging(s, v, t, e, value)
    ensures e in v.links && v.links[e] == value && e in v.at && v.at[e] == Flying(t) && e.wire in s.cells
    ensures value in v.links && v.links[value] == e && value in v.at && v.at[value] == Flying(t)
    ensures BuildOk(v.net, held, s.cells, v.builds[t], v.ins[t], s.workers[t])
    ensures Carried(v.links, v.at, t, s.workers[t])
  {
    hide NetOk, CellsAgree, NodesOk, LocksOk, NamesOk, WiresOk, SlotsLive, ClaimsOk, Alive, HoldersOk, BuildOk;
    OneWorker(held, s.cells, v, s.workers, t);
    var l := s.workers[t].pending.left;
    assert v.links[v.links[l]] == l;
  }

  lemma LandedPlanning(L: Links, at: Places, t: nat, joins: Links, l: End, r: End, to: Where)
    requires AllPlaced(L, at) && Planning(L, at, t, joins) && l in L && L[l] == r && at[l] == Flying(t)
               && to != Planned(t)
    ensures Planning(L, Moved(at, l, r, to), t, joins)
  {
    assert at[r] == at[l];
    var at' := Moved(at, l, r, to);
    forall e | e in joins
      ensures e in L && e in at' && at'[e] == Planned(t) && L[e] == joins[e]
    {
      assert joins[e] == joins[e];
    }
    forall e | e in L && e in at' && at'[e] == Planned(t)
      ensures e in joins
    {
      assert at[e] == Planned(t);
    }
  }

  lemma LandedInFlight(L: Links, at: Places, t: nat, pending: Pending, l: End, r: End, to: Where)
    requires AllPlaced(L, at) && InFlight(L, at, t, pending) && !pending.Quiet? && to != Flying(t)
    requires l in L && L[l] == r
    requires (l == pending.left && r == pending.right) || (l == pending.right && r == pending.left)
    ensures InFlight(L, Moved(at, l, r, to), t, Quiet)
  {
    var at' := Moved(at, l, r, to);
    forall e | e in L && e in at'
      ensures at'[e] != Flying(t)
    {
      assert e == l || e == r || at'[e] == at[e];
    }
  }

  lemma LandedCarried(L: Links, at: Places, t: nat, w: Worker, w': Worker, l: End, r: End, to: Where)
    requires AllPlaced(L, at) && Carried(L, at, t, w) && w.Building? && w'.Building? && w'.script == w.script
    requires !w.pending.Quiet? && w'.pending.Quiet? && l in L && L[l] == r && at[l] == Flying(t)
    requires (l == w.pending.left && r == w.pending.right) || (l == w.pending.right && r == w.pending.left)
    requires to != Flying(t) && to != Planned(t)
    ensures Carried(L, Moved(at, l, r, to), t, w')
  {
    hide AllPlaced, Planning, InFlight, Joins;
    LandedPlanning(L, at, t, Joins(w.script), l, r, to);
    LandedInFlight(L, at, t, w.pending, l, r, to);
  }

  lemma LandedOneTask(b: Build, w: Worker, w': Worker)
    requires w.Building? && w'.Building? && OneTask(b, w) && w'.open == w.open && w'.found == w.found
               && w'.pending.Quiet?
    ensures OneTask(b, w')
  {
  }

  lemma SameBuildOk(net: Net, held: set<End>, cells: Cells, cells': Cells, b: Build, ins: set<End>, w: Worker,
                    w': Worker)
    requires w.Building? && w'.Building? && w'.script == w.script && w'.open == w.open
    requires BuildOk(net, held, cells, b, ins, w) && FreeLive(cells', b) && OneTask(b, w')
    ensures BuildOk(net, held, cells', b, ins, w')
  {
    hide OneTask, FreeLive, Held, Promised;
  }

  lemma WinWorker(sys: System, held: set<End>, s: Shared, v: View, t: nat, e: End, value: End)
    requires Ok(sys, held, s, v) && Exchanging(s, v, t, e, value) && e.wire in s.cells && s.cells[e.wire].None?
    ensures WorkerOk(held, s.cells[e.wire := Some(value)], v.(at := Moved(v.at, e, value, Stored)), t,
                     s.workers[t].(pending := Quiet))
  {
    hide NetOk, CellsAgree, LinksLive, AllPlaced, NodesOk, LocksOk, NamesOk, WiresOk, SlotsLive, ClaimsOk, Alive,
      HoldersOk,
      OneTask, Held, Carried, Promised, AllWorkersOk;
    ExchangeFacts(sys, held, s, v, t, e, value);
    var w, w' := s.workers[t], s.workers[t].(pending := Quiet);
    LandedOneTask(v.builds[t], w, w');
    SameBuildOk(v.net, held, s.cells, s.cells[e.wire := Some(value)], v.builds[t], v.ins[t], w, w');
    LandedCarried(v.links, v.at, t, w, w', e, value, Stored);
  }

  lemma SameKeysUndisturbed(v: View, v': View, cells: Cells, cells': Cells, t: nat, w: Worker)
    requires t < |v.builds| && t < |v.ins| && Undisturbed(v, v', cells, t, w) && cells'.Keys == cells.Keys
    ensures Undisturbed(v, v', cells', t, w)
  {
    hide Untouched, Promised, AllAllowed;
    assert forall x :: x in cells ==> x in cells'.Keys;
  }

  lemma SameKeysWires(cells: Cells, cells': Cells, freed: set<Wire>, created: set<Wire>, workers: seq<Worker>)
    requires WiresOk(cells, freed, created, workers) && cells'.Keys == cells.Keys
    ensures WiresOk(cells', freed, created, workers)
  {
    assert forall x :: x in cells' <==> x in cells.Keys;
  }

  lemma WinKeeps(sys: System, held: set<End>, s: Shared, v: View, t: nat, e: End, value: End)
    requires Ok(sys, held, s, v) && Exchanging(s, v, t, e, value) && e.wire in s.cells && s.cells[e.wire].None?
    ensures Ok(sys, held, Exchange(s, t, e, value), v.(at := Moved(v.at, e, value, Stored)))
  {
    hide NetOk, Sound, NodesOk, LocksOk, NamesOk, WiresOk, SlotsLive, AllWorkersOk, ClaimsOk, Alive, HoldersOk,
      WorkerOk, Undisturbed, BuildOk, Doing, AllPlaced;
    ExchangeFacts(sys, held, s, v, t, e, value);
    var w', cells' := s.workers[t].(pending := Quiet), s.cells[e.wire := Some(value)];
    var v' := v.(at := Moved(v.at, e, value, Stored));
    WinWorker(sys, held, s, v, t, e, value);
    SoundParts(s.cells, v.links, v.at);
    Win(s.cells, v.links, v.at, e, value, t);
    SoundParts(cells', v.links, v'.at);
    assert cells'.Keys == s.cells.Keys;
    assert v.builds[t := v.builds[t]] == v.builds;
    forall t' | 0 <= t' < |s.workers| && t' != t
      ensures Undisturbed(v, v', cells', t', s.workers[t'])
    {
      UndisturbedMove(sys, held, s, v, t, v.builds[t], e, value, Stored, t');
      SameKeysUndisturbed(v, v', s.cells, cells', t', s.workers[t']);
    }
    OthersUndisturbed(held, s.cells, v, cells', v', s.workers, t, w');
    SimilarNodes(s.nodes, v.net, s.workers, v.builds, t, w');
    MoreSlotsLive(s.cells, cells', s.nodes);
    PlacedOf(s.cells, v.links, v.at);
    MovedAlive(v.net, v.links, v.at, e, value, Stored);
    MovedPlaces(v.at, |s.workers|, e, value, Stored);
    MovedClaims(sys.rules, v.net, v.links, v.at, v.claims, e, value, Stored);
    SimilarLocks(s.locks, s.workers, t, w');
    SimilarHolders(v.claims, s.queue, s.workers, t, w');
    SameKeysWires(s.cells, cells', s.freed, v.created, s.workers);
    SimilarWires(cells', s.freed, v.created, s.workers, t, w');
    SimilarNames(s.nodes, v.net, v.created, s.workers, v.builds, t, w');
  }
}
