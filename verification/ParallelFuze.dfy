/**
 The exchange that finds a value, and the freeing of the wire.
 */
module ParallelFuze {
  import opened Links
  import opened Script
  import opened Machine
  import opened Net
  import opened Confluence
  import opened Heap
  import opened Race
  import opened Plans
  import opened Parallel
  import opened ParallelOk
  import opened ParallelTake
  import opened ParallelBuild
  import opened ParallelNodes
  import opened ParallelConnect

  // Worker `t` finds a value in the cell of the wire of `e`.
  ghost predicate Losing(s: Shared, v: View, t: nat, e: End, value: End) {
    Exchanging(s, v, t, e, value) && e.wire in s.cells && s.cells[e.wire].Some?
  }

  ghost predicate Both(v: View, t: nat, e: End, value: End) {
    && e.WireEnd? && e in v.links && v.links[e] == value && e in v.at && v.at[e] == Flying(t)
    && e.Mate() in v.links && e.Mate() in v.at && v.at[e.Mate()] == Stored && v.links[e.Mate()] != e
    && AllPlaced(v.links, v.at)
  }

  lemma LosingBoth(sys: System, held: set<End>, s: Shared, v: View, t: nat, e: End, value: End)
    requires Ok(sys, held, s, v) && Losing(s, v, t, e, value)
    ensures Both(v, t, e, value) && s.cells[e.wire] == Some(v.links[e.Mate()])
    ensures BuildOk(v.net, held, s.cells, v.builds[t], v.ins[t], s.workers[t])
    ensures Carried(v.links, v.at, t, s.workers[t])
  {
    hide NetOk, AllPlaced, CellsAgree, LinksLive, AllWorkersOk, NodesOk, LocksOk, NamesOk, WiresOk, SlotsLive, ClaimsOk,
      Alive, HoldersOk, BuildOk, Carried;
    ExchangeFacts(sys, held, s, v, t, e, value);
    LoseFinds(s.cells, v.links, v.at, e, value, t);
    PlacedOf(s.cells, v.links, v.at);
  }

  // Neither end of the wire is in anybody's hand or slot.
  lemma WireUnused(sys: System, held: set<End>, s: Shared, v: View, t: nat, e: End, value: End)
    requires Ok(sys, held, s, v) && Losing(s, v, t, e, value)
    ensures SlotsLive(s.cells - {e.wire}, s.nodes)
    ensures forall t' {:trigger s.workers[t']} :: 0 <= t' < |s.workers| ==>
              (s.workers[t'].Building? ==> FreeLive(s.cells - {e.wire}, v.builds[t']))
              && (s.workers[t'].Reading? ==> EndsLive(s.cells - {e.wire}, s.workers[t'].ends))
  {
    hide NetOk, AllPlaced, CellsAgree, LinksLive, NodesOk, LocksOk, NamesOk, WiresOk, ClaimsOk, Alive, HoldersOk,
      Carried;
    LosingBoth(sys, held, s, v, t, e, value);
    forall n, i | n in s.nodes && i in s.nodes[n].slots && s.nodes[n].slots[i].WireEnd?
      ensures s.nodes[n].slots[i].wire in s.cells - {e.wire}
    {
      SlotInNet(sys, held, s, v, n, i);
      assert s.nodes[n].slots[i] != e && s.nodes[n].slots[i] != e.Mate();
    }
    forall t' | 0 <= t' < |s.workers|
      ensures s.workers[t'].Building? ==> FreeLive(s.cells - {e.wire}, v.builds[t'])
      ensures s.workers[t'].Reading? ==> EndsLive(s.cells - {e.wire}, s.workers[t'].ends)
    {
      OneWorker(held, s.cells, v, s.workers, t');
      if s.workers[t'].Building? {
        FreeLiveWithout(sys, held, s, v, t, e, value, t');
      } else if s.workers[t'].Reading? {
        EndsLiveWithout(sys, held, s, v, t, e, value, t');
      }
    }
  }

  lemma FreeLiveWithout(sys: System, held: set<End>, s: Shared, v: View, t: nat, e: End, value: End, t': nat)
    requires Ok(sys, held, s, v) && Both(v, t, e, value) && t' < |s.workers| && s.workers[t'].Building?
    requires FreeLive(s.cells, v.builds[t'])
    ensures FreeLive(s.cells - {e.wire}, v.builds[t'])
  {
    hide NetOk, AllPlaced, CellsAgree, LinksLive, NodesOk, LocksOk, NamesOk, WiresOk, ClaimsOk, Alive, HoldersOk,
      Carried,
      AllWorkersOk, SlotsLive;
    forall x | x in v.builds[t'].free && x.WireEnd?
      ensures x.wire in s.cells - {e.wire}
    {
      FreeEnd(sys, held, s, v, t', x);
      assert x != e && x != e.Mate();
    }
  }

  // The ends a worker has read are still in slots of the net.
  lemma ReadInSlot(net: Net, held: set<End>, claims: map<Found, Holder>, t: nat, w: Worker, x: End)
    requires w.Reading? && ReadOk(net, claims, t, w) && WellFormed(net, held) && x in w.ends
    ensures x.WireEnd? && InSlot(net.nodes, x)
  {
    hide Placed, Conserved, Fresh;
    var l, r := w.job.task.left, w.job.task.right;
    assert x in w.ends + AuxFrom(net.nodes[Current(w)], w.index);
    assert x in AuxEnds(net.nodes[l]) || x in AuxEnds(net.nodes[r]);
    InAux(net, l, x);
    InAux(net, r, x);
  }

  lemma EndsLiveWithout(sys: System, held: set<End>, s: Shared, v: View, t: nat, e: End, value: End, t': nat)
    requires Ok(sys, held, s, v) && Both(v, t, e, value) && t' < |s.workers| && s.workers[t'].Reading?
    requires EndsLive(s.cells, s.workers[t'].ends)
    ensures EndsLive(s.cells - {e.wire}, s.workers[t'].ends)
  {
    hide WellFormed, SamePairing, GoodSystem, AllPlaced, CellsAgree, LinksLive, NodesOk, LocksOk, NamesOk, WiresOk,
      ClaimsOk,
      Alive, HoldersOk, Carried, SlotsLive, ReadOk;
    OneWorker(held, s.cells, v, s.workers, t');
    var ends := s.workers[t'].ends;
    forall i | 0 <= i < |ends|
      ensures ends[i].WireEnd? && ends[i].wire in s.cells - {e.wire}
    {
      ReadInSlot(v.net, held, v.claims, t', s.workers[t'], ends[i]);
      NotLinked(v.net, held, v.links, ends[i]);
      assert ends[i] != e && ends[i] != e.Mate();
    }
  }

  lemma LoseAlive(net: Net, v: View, t: nat, e: End, value: End)
    requires Both(v, t, e, value) && Alive(net, v.links, v.at)
    ensures Alive(net, Taken(v.links, e), TakenAt(v.links, v.at, e, t))
  {
    var L, at, L', at' := v.links, v.at, Taken(v.links, e), TakenAt(v.links, v.at, e, t);
    assert at[L[e]] == at[e] && at[L[e.Mate()]] == at[e.Mate()];
    forall x | x in L' && x in at' && x.Principal? && !at'[x].Met?
      ensures x.node in net.nodes
    {
      assert x in L && !at[x].Met?;
    }
  }

  lemma LosePlaces(v: View, count: nat, t: nat, e: End)
    requires PlacesOf(v.at, count) && t < count && e.WireEnd? && e in v.links && e.Mate() in v.links
    ensures PlacesOf(TakenAt(v.links, v.at, e, t), count)
  {
    var at' := TakenAt(v.links, v.at, e, t);
    forall x | x in at' && (at'[x].Planned? || at'[x].Flying?)
      ensures at'[x].worker < count
    {
      assert x == v.links[e] || x == v.links[e.Mate()] || v.at[x] == at'[x];
    }
  }

  lemma LoseMet(v: View, t: nat, e: End, value: End, x: End)
    requires Both(v, t, e, value)
    requires Matching(Taken(v.links, e)) && Taken(v.links, e).Keys == v.links.Keys - {e, e.Mate()}
    ensures var L', at' := Taken(v.links, e), TakenAt(v.links, v.at, e, t);
            && (x in v.links && x in v.at && v.at[x] == Met ==>
                x in L' && x in at' && at'[x] == Met && L'[x] == v.links[x])
            && (x in L' && x in at' && at'[x] == Met ==>
                x in v.links && x in v.at && v.at[x] == Met && L'[x] == v.links[x])
  {
    var L, at := v.links, v.at;
    assert at[L[e]] == at[e] && at[L[e.Mate()]] == at[e.Mate()];
    assert x in Taken(L, e) <==> x in Taken(L, e).Keys;
  }

  lemma LoseClaims(rules: seq<Rule>, net: Net, v: View, t: nat, e: End, value: End)
    requires Both(v, t, e, value) && ClaimsOk(rules, net, v.links, v.at, v.claims)
    requires Matching(Taken(v.links, e)) && Taken(v.links, e).Keys == v.links.Keys - {e, e.Mate()}
    ensures ClaimsOk(rules, net, Taken(v.links, e), TakenAt(v.links, v.at, e, t), v.claims)
  {
    hide Taken, TakenAt, AllPlaced, Claimed, Matching, FindRule;
    var L, at, L', at' := v.links, v.at, Taken(v.links, e), TakenAt(v.links, v.at, e, t);
    forall f | f in v.claims
      ensures ClaimOk(rules, net, L', at', f)
    {
      assert ClaimOk(rules, net, L, at, f);
      LoseMet(v, t, e, value, Principal(f.task.left));
    }
    forall l, r | l in net.nodes && r in net.nodes && Principal(l) in L' && L'[Principal(l)] == Principal(r)
                  && Principal(l) in at' && at'[Principal(l)] == Met
                  && FindRule(rules, net.nodes[l].ctor, net.nodes[r].ctor).Some?
      ensures Claimed(v.claims, l, r)
    {
      LoseMet(v, t, e, value, Principal(l));
    }
  }

  lemma LosePlanning(v: View, t: nat, e: End, value: End, joins: Links)
    requires Both(v, t, e, value) && Planning(v.links, v.at, t, joins)
    requires Matching(Taken(v.links, e)) && Taken(v.links, e).Keys == v.links.Keys - {e, e.Mate()}
    ensures Planning(Taken(v.links, e), TakenAt(v.links, v.at, e, t), t, joins)
  {
    var L, at, L', at' := v.links, v.at, Taken(v.links, e), TakenAt(v.links, v.at, e, t);
    assert at[L[e]] == at[e] && at[L[e.Mate()]] == at[e.Mate()];
    forall x | x in joins
      ensures x in L' && x in at' && at'[x] == Planned(t) && L'[x] == joins[x]
    {
      assert joins[x] == L[x] && at[x] == Planned(t);
      assert x in L'.Keys;
    }
    forall x | x in L' && x in at' && at'[x] == Planned(t)
      ensures x in joins
    {
      assert x in L.Keys && at[x] == Planned(t);
    }
  }

  lemma LoseInFlight(v: View, t: nat, e: End, value: End, pending: Pending)
    requires Both(v, t, e, value) && InFlight(v.links, v.at, t, pending) && !pending.Quiet?
    requires (e == pending.left && value == pending.right) || (e == pending.right && value == pending.left)
    requires Matching(Taken(v.links, e)) && Taken(v.links, e).Keys == v.links.Keys - {e, e.Mate()}
    ensures InFlight(Taken(v.links, e), TakenAt(v.links, v.at, e, t), t, Freeing(e.wire, v.links[e.Mate()], value))
  {
    var L, at, L', at' := v.links, v.at, Taken(v.links, e), TakenAt(v.links, v.at, e, t);
    var u := L[e.Mate()];
    assert at[L[e]] == at[e] && at[u] == at[e.Mate()];
    assert u != value;
    assert L'[u] == value && L'[value] == u;
    forall x | x in L' && x in at' && x != u && x != value
      ensures at'[x] != Flying(t)
    {
      assert x in L.Keys && at'[x] == at[x];
    }
  }

  // While a node is built, only the connection of its principal port can find a value.
  lemma LoseOneTask(sys: System, held: set<End>, s: Shared, v: View, t: nat, e: End, value: End)
    requires Ok(sys, held, s, v) && Losing(s, v, t, e, value)
    ensures OneTask(v.builds[t], s.workers[t].(pending := Freeing(e.wire, v.links[e.Mate()], value)))
  {
    hide NetOk, AllPlaced, CellsAgree, LinksLive, AllWorkersOk, NamesOk, WiresOk, SlotsLive, ClaimsOk, Alive, HoldersOk,
      Carried;
    LosingBoth(sys, held, s, v, t, e, value);
    var w, b := s.workers[t], v.builds[t];
    if w.open.Some? && !(w.found == {} && Principal(w.open.value) !in b.free) {
      var n := w.open.value;
      assert HasLock(w, n);
      assert e.Mate() in b.nodes[n].slots.Values;
      var i :| i in b.nodes[n].slots && b.nodes[n].slots[i] == e.Mate();
      SlotInNet(sys, held, s, v, n, i);
      assert false;
    }
  }

  lemma LoseWorker(sys: System, held: set<End>, s: Shared, v: View, t: nat, e: End, value: End)
    requires Ok(sys, held, s, v) && Losing(s, v, t, e, value) && e in v.links && e.Mate() in v.links
    ensures WorkerOk(held, s.cells - {e.wire}, v.(links := Taken(v.links, e), at := TakenAt(v.links, v.at, e, t)), t,
                     s.workers[t].(pending := Freeing(e.wire, v.links[e.Mate()], value)))
  {
    hide NetOk, AllPlaced, CellsAgree, LinksLive, AllWorkersOk, NodesOk, LocksOk, NamesOk, WiresOk, SlotsLive, ClaimsOk,
      Alive, HoldersOk, OneTask, Held, Planning, InFlight, FreeLive, Taken, TakenAt;
    LosingBoth(sys, held, s, v, t, e, value);
    WireUnused(sys, held, s, v, t, e, value);
    LoseOneTask(sys, held, s, v, t, e, value);
    BothMatching(v, t, e, value);
    var w, w' := s.workers[t], s.workers[t].(pending := Freeing(e.wire, v.links[e.Mate()], value));
    SameBuildOk(v.net, held, s.cells, s.cells - {e.wire}, v.builds[t], v.ins[t], w, w');
    LosePlanning(v, t, e, value, Joins(w.script));
    LoseInFlight(v, t, e, value, w.pending);
  }

  lemma BothMatching(v: View, t: nat, e: End, value: End)
    requires Both(v, t, e, value)
    ensures Matching(Taken(v.links, e)) && Taken(v.links, e).Keys == v.links.Keys - {e, e.Mate()}
  {
    assert v.at[v.links[e]] == v.at[e];
    TakenMatching(v.links, e);
  }

  lemma LoseWires(cells: Cells, freed: set<Wire>, created: set<Wire>, workers: seq<Worker>, t: nat, w: Worker, x: Wire)
    requires WiresOk(cells, freed, created, workers) && t < |workers| && x in cells
               && !(exists y :: Doomed(workers[t], y))
    requires w.Building? && w.pending.Freeing? && w.pending.wire == x
    ensures WiresOk(cells - {x}, freed, created, workers[t := w])
  {
    var after := workers[t := w];
    forall t', y | 0 <= t' < |after| && Doomed(after[t'], y)
      ensures y in created && y !in cells - {x} && y !in freed && (t' == t <==> y == x)
    {
      if t' != t {
        assert Doomed(workers[t'], y);
      } else {
        assert x in cells.Keys;
      }
    }
    forall t', t'', y | 0 <= t' < |after| && 0 <= t'' < |after| && Doomed(after[t'], y) && Doomed(after[t''], y)
      ensures t' == t''
    {
      if t' != t && t'' != t {
        assert Doomed(workers[t'], y) && Doomed(workers[t''], y);
      }
    }
  }

  lemma LoseUndisturbed(sys: System, held: set<End>, s: Shared, v: View, t: nat, e: End, value: End, t': nat)
    requires Ok(sys, held, s, v) && Both(v, t, e, value) && t' < |s.workers| && t' != t
    requires s.workers[t'].Building? ==> FreeLive(s.cells - {e.wire}, v.builds[t'])
    requires s.workers[t'].Reading? ==> EndsLive(s.cells - {e.wire}, s.workers[t'].ends)
    ensures Undisturbed(v, v.(links := Taken(v.links, e), at := TakenAt(v.links, v.at, e, t)), s.cells - {e.wire},
                        t', s.workers[t'])
  {
    hide NetOk, CellsAgree, LinksLive, NodesOk, LocksOk, NamesOk, WiresOk, SlotsLive, ClaimsOk, Alive, HoldersOk,
      Carried,
      OneTask, Held, FreeLive, Taken, TakenAt;
    OneWorker(held, s.cells, v, s.workers, t');
    LoseElsewhere(v.links, v.at, e, t, t');
  }

  lemma NetOkSame(sys: System, held: set<End>, net: Net, L: Links, M: Links)
    requires NetOk(sys, held, net, L) && SamePairing(L, M)
    ensures NetOk(sys, held, net, M)
  {
    hide GoodSystem, WellFormed, SamePairing;
    SamePairingTransitive(net.links, L, M);
  }

  lemma LoseKeeps(sys: System, held: set<End>, s: Shared, v: View, t: nat, e: End, value: End)
    requires Ok(sys, held, s, v) && Losing(s, v, t, e, value)
    ensures e in v.links && e.Mate() in v.links
    ensures Ok(sys, held, Exchange(s, t, e, value), v.(links := Taken(v.links, e), at := TakenAt(v.links, v.at, e, t)))
  {
    hide NetOk, Sound, NodesOk, LocksOk, NamesOk, WiresOk, SlotsLive, AllWorkersOk, ClaimsOk, Alive, HoldersOk,
      WorkerOk, Undisturbed, BuildOk, Doing, AllPlaced, Taken, TakenAt, FreeLive;
    LosingBoth(sys, held, s, v, t, e, value);
    var w', cells' := s.workers[t].(pending := Freeing(e.wire, v.links[e.Mate()], value)), s.cells - {e.wire};
    var v' := v.(links := Taken(v.links, e), at := TakenAt(v.links, v.at, e, t));
    WireUnused(sys, held, s, v, t, e, value);
    LoseWorker(sys, held, s, v, t, e, value);
    Lose(s.cells, v.links, v.at, e, value, t);
    SoundParts(s.cells, v.links, v.at);
    SoundParts(cells', v'.links, v'.at);
    forall t' | 0 <= t' < |s.workers| && t' != t
      ensures Undisturbed(v, v', cells', t', s.workers[t'])
    {
      LoseUndisturbed(sys, held, s, v, t, e, value, t');
    }
    OthersUndisturbed(held, s.cells, v, cells', v', s.workers, t, w');
    NetOkSame(sys, held, v.net, v.links, v'.links);
    SimilarNodes(s.nodes, v.net, s.workers, v.builds, t, w');
    BothMatching(v, t, e, value);
    LoseAlive(v.net, v, t, e, value);
    LosePlaces(v, |s.workers|, t, e);
    LoseClaims(sys.rules, v.net, v, t, e, value);
    SimilarLocks(s.locks, s.workers, t, w');
    SimilarHolders(v.claims, s.queue, s.workers, t, w');
    LoseWires(s.cells, s.freed, v.created, s.workers, t, w', e.wire);
    SimilarNames(s.nodes, v.net, v.created, s.workers, v.builds, t, w');
  }

  // ----- Freeing the wire -----

  lemma FreeWires(cells: Cells, freed: set<Wire>, created: set<Wire>, workers: seq<Worker>, t: nat, w: Worker, x: Wire)
    requires WiresOk(cells, freed, created, workers) && t < |workers| && Doomed(workers[t], x)
    requires forall y :: !Doomed(w, y)
    ensures x !in cells && x !in freed && WiresOk(cells, freed + {x}, created, workers[t := w])
  {
    var after := workers[t := w];
    assert x in created && x !in cells && x !in freed;
    forall t', y | 0 <= t' < |after| && Doomed(after[t'], y)
      ensures Doomed(workers[t'], y) && y != x
    {
      assert t' != t;
      assert Doomed(workers[t'], y);
    }
    assert forall y :: y in cells.Keys ==> y in cells;
  }

  lemma FreeWorker(held: set<End>, cells: Cells, v: View, t: nat, w: Worker, w': Worker)
    requires t < |v.builds| && t < |v.ins| && WorkerOk(held, cells, v, t, w) && w.Building? && w.pending.Freeing?
    requires w' == w.(pending := Connecting(w.pending.left, w.pending.right))
    ensures WorkerOk(held, cells, v, t, w')
  {
    hide Planning, FreeLive, Held, Promised, Joins;
  }

  lemma FreeKeeps(sys: System, held: set<End>, s: Shared, v: View, t: nat, x: Wire, l: End, r: End)
    requires Ok(sys, held, s, v) && t < |s.workers| && s.workers[t].Building?
               && s.workers[t].pending == Freeing(x, l, r)
    ensures Ok(sys, held, Free(s, t, x, l, r), v)
  {
    hide NetOk, Sound, NodesOk, LocksOk, NamesOk, WiresOk, SlotsLive, AllWorkersOk, ClaimsOk, Alive, HoldersOk,
      WorkerOk, Undisturbed, Doing;
    var w' := s.workers[t].(pending := Connecting(l, r));
    assert Doomed(s.workers[t], x);
    FreeWires(s.cells, s.freed, v.created, s.workers, t, w', x);
    OneWorker(held, s.cells, v, s.workers, t);
    FreeWorker(held, s.cells, v, t, s.workers[t], w');
    assert v.(builds := v.builds[t := v.builds[t]]) == v;
    Others(sys, held, s, v, t, v.builds[t], w');
    SimilarNodes(s.nodes, v.net, s.workers, v.builds, t, w');
    SimilarLocks(s.locks, s.workers, t, w');
    SimilarHolders(v.claims, s.queue, s.workers, t, w');
    SimilarNames(s.nodes, v.net, v.created, s.workers, v.builds, t, w');
  }
}
