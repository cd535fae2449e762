/**
 At any moment every end of a wire in use is in some place.
 */
module ParallelPlaced {
  import opened Links
  import opened Script
  import opened Machine
  import opened Net
  import opened Confluence
  import opened Heap
  import opened Race
  import opened Plans
  import opened Parallel
  import opened ParallelOk
  import opened ParallelTake
  import opened ParallelTraced
  import opened ParallelRuns
  import opened ParallelHolders

  ghost predicate Somewhere(s: Shared, e: End) {
    exists spot :: At(s, spot, e)
  }

  // ----- In slots and in hands -----

  lemma BuildFacts(held: set<End>, s: Shared, v: View, t: nat)
    requires |s.workers| == |v.builds| == |v.ins| && AllWorkersOk(held, s.cells, v, s.workers)
    requires t < |s.workers| && s.workers[t].Building?
    ensures Doing(v.builds[t], v.ins[t], s.workers[t].script)
    ensures Promised(v.net, v.builds[t], Final(v.builds[t], s.workers[t]))
  {
    hide OneTask, FreeLive, Promised, Carried, Held;
    OneWorker(held, s.cells, v, s.workers, t);
  }

  // A slot that is empty in memory, of a node that is begun or not, is filled later.
  lemma FillFound(sys: System, held: set<End>, s: Shared, v: View, t: nat, n: NodeId, i: nat)
    requires Ok(sys, held, s, v) && t < |s.workers| && n in v.net.nodes && i in v.net.nodes[n].slots
    requires || Unbegun(s.workers[t], v.builds[t], n)
             || (OpenedBy(s.nodes, s.workers[t], v.builds[t], n) && i !in s.nodes[n].slots)
    ensures At(s, FillSpot(t, n, i), v.net.nodes[n].slots[i])
  {
    hide NetOk, Sound, ClaimsOk, HoldersOk, LocksOk, NamesOk, WiresOk, SlotsLive, Alive, NodesOk, Held, Later;
    BuildFacts(held, s, v, t);
    var w, b := s.workers[t], v.builds[t];
    var final := Final(b, w);
    if n in b.nodes {
      OpenedUnfinished(held, s, v, t, n);
      AllLater(b, v.ins[t], w.script, n);
      StaysIn(b, final, n);
    }
    assert Unfinished(b, n) && v.net.nodes[n] == final.nodes[n];
    FillComes(b, v.ins[t], w.script, n, i);
  }

  lemma StaysIn(b: Build, c: Build, n: NodeId)
    requires n in b.nodes && Later(b, c, n)
    ensures n in c.nodes
  {
  }

  lemma OpenedUnfinished(held: set<End>, s: Shared, v: View, t: nat, n: NodeId)
    requires |s.workers| == |v.builds| == |v.ins| && AllWorkersOk(held, s.cells, v, s.workers)
    requires t < |s.workers| && s.workers[t].Building? && s.workers[t].open == Some(n)
    ensures n in v.builds[t].open
  {
    hide OneTask, FreeLive, Promised, Carried, Doing;
    OneWorker(held, s.cells, v, s.workers, t);
  }

  // What a worker has read from a node it has in hand.
  lemma ReadFound(sys: System, held: set<End>, s: Shared, v: View, t: nat, n: NodeId, i: nat)
    requires Ok(sys, held, s, v) && Reads(s, t) && n in v.net.nodes && i in v.net.nodes[n].slots
    requires var w := s.workers[t];
             HalfRead(w, n) || (Current(w) == n && i < w.index)
    requires v.net.nodes[n].slots[i].WireEnd?
    ensures Somewhere(s, v.net.nodes[n].slots[i])
  {
    hide Ok, Placed, Conserved, Fresh, NoRepeats, At;
    var w := s.workers[t];
    ReadingFacts(sys, held, s, v, t);
    var e, c := v.net.nodes[n].slots[i], Current(w);
    InAux(v.net, n, e);
    AuxFromElements(v.net.nodes[c], w.index, e);
    var rest := AuxFrom(v.net.nodes[c], w.index);
    assert e in w.ends + rest;
    forall j: nat | j in v.net.nodes[c].slots && v.net.nodes[c].slots[j] == e
      ensures j < w.index
    {
      SameSlot(sys, held, s, v, n, i, c, j);
    }
    var k :| 0 <= k < |w.ends| && w.ends[k] == e;
    InHand(s, t, k);
  }

  lemma InHand(s: Shared, t: nat, k: nat)
    requires Reads(s, t) && k < |s.workers[t].ends|
    ensures Somewhere(s, s.workers[t].ends[k])
  {
    assert At(s, HandSpot(t, k), s.workers[t].ends[k]);
  }

  lemma MissingNode(sys: System, held: set<End>, s: Shared, v: View, n: NodeId) returns (t: nat)
    requires Ok(sys, held, s, v) && n in v.net.nodes && n !in s.nodes
    ensures t < |s.workers| && (Unbegun(s.workers[t], v.builds[t], n) || HalfRead(s.workers[t], n))
  {
    hide NetOk, Sound, ClaimsOk, HoldersOk, LocksOk, NamesOk, WiresOk, SlotsLive, Alive, AllWorkersOk, NodesThere,
      NodesHeld, Unbegun;
    t :| 0 <= t < |s.workers| && (Unbegun(s.workers[t], v.builds[t], n) || HalfRead(s.workers[t], n));
  }

  lemma PartialNode(sys: System, held: set<End>, s: Shared, v: View, n: NodeId) returns (t: nat)
    requires Ok(sys, held, s, v) && n in v.net.nodes && n in s.nodes && s.nodes[n] != v.net.nodes[n]
    ensures t < |s.workers| && OpenedBy(s.nodes, s.workers[t], v.builds[t], n)
  {
    hide NetOk, Sound, ClaimsOk, HoldersOk, LocksOk, NamesOk, WiresOk, SlotsLive, Alive, AllWorkersOk, NodesAway,
      NodesHeld;
    t :| 0 <= t < |s.workers| && OpenedBy(s.nodes, s.workers[t], v.builds[t], n);
  }

  lemma SlotPlaced(sys: System, held: set<End>, s: Shared, v: View, n: NodeId, i: nat)
    requires Ok(sys, held, s, v) && n in v.net.nodes && i in v.net.nodes[n].slots && v.net.nodes[n].slots[i].WireEnd?
    ensures Somewhere(s, v.net.nodes[n].slots[i])
  {
    hide Ok, Unbegun;
    var e := v.net.nodes[n].slots[i];
    if n !in s.nodes {
      var t := MissingNode(sys, held, s, v, n);
      if HalfRead(s.workers[t], n) {
        ReadFound(sys, held, s, v, t, n, i);
      } else {
        FillFound(sys, held, s, v, t, n, i);
        assert At(s, FillSpot(t, n, i), e);
      }
    } else if i !in s.nodes[n].slots {
      var t := PartialNode(sys, held, s, v, n);
      FillFound(sys, held, s, v, t, n, i);
      assert At(s, FillSpot(t, n, i), e);
    } else {
      SlotInNet(sys, held, s, v, n, i);
      if ReadAlready(s, n, i) {
        var t: nat :| Reads(s, t) && Current(s.workers[t]) == n && i < s.workers[t].index;
        ReadFound(sys, held, s, v, t, n, i);
      } else {
        assert At(s, SlotSpot(n, i), e);
      }
    }
  }

  // ----- Linked -----

  // The wire of `e` keeps what `e` was connected to.
  ghost predicate Used(s: Shared, L: Links, e: End) {
    e in L && HeldBy(s.cells, e, L[e])
  }

  lemma LinkPlaced(sys: System, held: set<End>, s: Shared, v: View, e: End)
    requires Ok(sys, held, s, v) && e in v.links && e.WireEnd?
    ensures Used(s, v.links, e) || Somewhere(s, e)
  {
    hide NetOk, LinksLive, LocksOk, NamesOk, WiresOk, SlotsLive, Alive, ClaimsOk, HoldersOk, NodesOk, BuildOk, Planning;
    assert e in v.at.Keys;
    match v.at[e]
    case Stored =>
      if HeldBy(s.cells, v.links[e], e) {
        assert At(s, CellSpot(v.links[e].wire), e);
      }
    case Flying(t) =>
      OneWorker(held, s.cells, v, s.workers, t);
      assert At(s, FlightSpot(t, e == s.workers[t].pending.left), e);
    case Planned(t) =>
      OneWorker(held, s.cells, v, s.workers, t);
      StillPlanned(v.links, v.at, t, s.workers[t], e);
      assert At(s, PlannedSpot(t), e);
    case Met =>
  }

  lemma StillPlanned(L: Links, at: Places, t: nat, w: Worker, e: End)
    requires Carried(L, at, t, w) && e in L && e in at && at[e] == Planned(t)
    ensures w.Building? && e in Joins(w.script)
  {
  }

  // What a cell keeps was connected to one end of its wire; that end is nowhere else.
  lemma UsedNowhere(sys: System, held: set<End>, s: Shared, v: View, e: End)
    requires Ok(sys, held, s, v) && Waiting(s) && e.WireEnd? && Used(s, v.links, e)
    ensures !Somewhere(s, e) && e !in held
  {
    hide Ok, At, Waiting, Sound, WellFormed, SamePairing;
    NetFacts(sys, held, s, v);
    SoundFacts(sys, held, s, v);
    NotLinkedHeld(v.net, held, v.links, e);
    UsedStored(sys, held, s, v, e);
    forall spot
      ensures !At(s, spot, e)
    {
      if At(s, spot, e) {
        if InNode(spot) {
          NotLinkedIn(sys, held, s, v, spot, e);
        } else {
          LinkedSpot(sys, held, s, v, spot, e);
          CellOf(s, v, spot, e);
        }
        assert false;
      }
    }
  }

  lemma NotLinkedHeld(net: Net, held: set<End>, L: Links, e: End)
    requires WellFormed(net, held) && SamePairing(net.links, L) && e in L
    ensures e !in held
  {
    hide WellFormed, SamePairing;
    NotLinked(net, held, L, e);
  }

  lemma UsedStored(sys: System, held: set<End>, s: Shared, v: View, e: End)
    requires Ok(sys, held, s, v) && e.WireEnd? && Used(s, v.links, e)
    ensures e in v.at && v.at[e].Stored? && !HeldBy(s.cells, v.links[e], e)
  {
    hide NetOk, LinksLive, LocksOk, NamesOk, WiresOk, SlotsLive, Alive, ClaimsOk, HoldersOk, NodesOk, AllWorkersOk;
    var u := v.links[e];
    assert u in v.links && v.links[u] in v.links && v.links[v.links[u]] == u;
    assert v.at[v.links[e]] == v.at[e];
    CellLink(s.cells, v.links, v.at, e.wire);
  }

  lemma CellLink(cells: Cells, L: Links, at: Places, x: Wire)
    requires Sound(cells, L, at) && x in cells && cells[x].Some?
    ensures var u := cells[x].value; u in L && u in at && at[u].Stored? && L[u].WireEnd? && L[u].wire == x
  {
  }

  lemma CellOf(s: Shared, v: View, spot: Spot, e: End)
    requires Sound(s.cells, v.links, v.at) && At(s, spot, e) && !InNode(spot)
    requires e in v.links && e in v.at && v.at[e].Stored? && PlaceOf(spot, v.at[e])
    ensures HeldBy(s.cells, v.links[e], e)
  {
    CellLink(s.cells, v.links, v.at, spot.wire);
  }

  lemma SoundFacts(sys: System, held: set<End>, s: Shared, v: View)
    requires Ok(sys, held, s, v)
    ensures Sound(s.cells, v.links, v.at)
  {
    hide NetOk, Sound, LocksOk, NamesOk, WiresOk, SlotsLive, Alive, ClaimsOk, HoldersOk, NodesOk, AllWorkersOk;
  }

  // ----- Every end -----

  // An end is in some place, or the program has left it over, or its wire has used it.
  lemma EndPlaced(sys: System, held: set<End>, s: Shared, v: View, e: End)
    requires Ok(sys, held, s, v) && Traced(s.cells, v.net, v.links) && e.WireEnd? && e.wire in s.cells
    ensures Used(s, v.links, e) || Somewhere(s, e) || e in held
  {
    hide Ok, Somewhere, Used, SamePairing, Placed, Fresh, Built, DistinctSlots;
    NetFacts(sys, held, s, v);
    TracedAt(s.cells, v.net, v.links, e);
    if InSlot(v.net.nodes, e) {
      var n, i :| n in v.net.nodes && i in v.net.nodes[n].slots && v.net.nodes[n].slots[i] == e;
      SlotPlaced(sys, held, s, v, n, i);
    } else if e !in held {
      assert WireEnd(e.wire, e.side) == e;
      LinkPlaced(sys, held, s, v, e);
    }
  }

  lemma TracedAt(cells: Cells, net: Net, L: Links, e: End)
    requires Traced(cells, net, L) && e.WireEnd? && e.wire in cells
    ensures e.wire in net.wires && (e in net.links ==> e in L)
  {
    assert TracedEnd(net, L, WireEnd(e.wire, e.side));
  }

  lemma LeftNowhere(sys: System, held: set<End>, s: Shared, v: View, e: End)
    requires Ok(sys, held, s, v) && e.WireEnd? && e in held
    ensures !Somewhere(s, e)
  {
    hide Ok, At, WellFormed, SamePairing;
    NetFacts(sys, held, s, v);
    NotLinked(v.net, held, v.links, e);
    forall spot
      ensures !At(s, spot, e)
    {
      if At(s, spot, e) {
        if InNode(spot) {
          NotHeldIn(sys, held, s, v, spot, e);
        } else {
          LinkedSpot(sys, held, s, v, spot, e);
        }
        assert false;
      }
    }
  }

  lemma NotHeldIn(sys: System, held: set<End>, s: Shared, v: View, spot: Spot, e: End)
    requires Ok(sys, held, s, v) && At(s, spot, e) && InNode(spot) && e.WireEnd?
    ensures e !in held
  {
    hide Ok, Runs, ReadAlready, WellFormed, SamePairing, Unbegun;
    match spot {
      case SlotSpot(n, i) => SlotInNet(sys, held, s, v, n, i);
      case HandSpot(t, k) =>
        var m, j := HandFrom(sys, held, s, v, t, k);
      case FillSpot(t, n, i) => FillFrom(sys, held, s, v, t, n, i, e);
    }
    assert InSlot(v.net.nodes, e);
    NetFacts(sys, held, s, v);
    NotLinked(v.net, held, v.links, e);
  }

  // In hand after the program, or in some place.
  ghost predicate Kept(s: Shared, left: set<End>, e: End) {
    Somewhere(s, e) || e in left
  }

  // Of a wire whose cell is empty both ends are kept; of one whose cell has a value exactly one is, and the other has
  // been used to put the value there.
  lemma WireKept(sys: System, held: set<End>, s: Shared, v: View, x: Wire)
    requires Ok(sys, held, s, v) && Waiting(s) && Traced(s.cells, v.net, v.links) && x in s.cells
    ensures s.cells[x].None? ==> Kept(s, held, WireEnd(x, false)) && Kept(s, held, WireEnd(x, true))
    ensures s.cells[x].Some? ==> Kept(s, held, WireEnd(x, false)) != Kept(s, held, WireEnd(x, true))
  {
    hide Ok, Somewhere, Waiting, Traced, Sound;
    EndPlaced(sys, held, s, v, WireEnd(x, false));
    EndPlaced(sys, held, s, v, WireEnd(x, true));
    if s.cells[x].Some? {
      SoundFacts(sys, held, s, v);
      CellLink(s.cells, v.links, v.at, x);
      MatchingOf(s.cells, v.links, v.at);
      var e := v.links[s.cells[x].value];
      UsedNowhere(sys, held, s, v, e);
    }
  }

  lemma MatchingOf(cells: Cells, L: Links, at: Places)
    requires Sound(cells, L, at)
    ensures Matching(L)
  {
  }

  // In every state of every run no end of a wire in use is lost: it is in a place, or the program has left it over,
  // never both, unless it has been used to put a value into the cell of its wire.
  lemma NothingIsLost(sys: System, script: seq<Action>, count: nat, moves: seq<Move>, s: Shared, x: Wire)
    requires GoodSystem(sys) && Runnable(script) && count > 0 && Runs(sys, Begun(script, count), moves, s)
    requires x in s.cells
    ensures var left, a, b := BuildOf(script).free, WireEnd(x, false), WireEnd(x, true);
            && (s.cells[x].None? ==> Kept(s, left, a) && Kept(s, left, b))
            && (s.cells[x].Some? ==> Kept(s, left, a) != Kept(s, left, b))
            && !(Somewhere(s, a) && a in left) && !(Somewhere(s, b) && b in left)
  {
    hide Ok, Runs, Begun, GoodSystem, Runnable, Somewhere, Waiting, Traced;
    var held, v, tasks := ParallelRuns.Reached(sys, script, count, moves, s);
    BegunWaits(script, count);
    AllWait(sys, Begun(script, count), moves, s);
    WireKept(sys, held, s, v, x);
    forall side
      ensures !(Somewhere(s, WireEnd(x, side)) && WireEnd(x, side) in held)
    {
      if WireEnd(x, side) in held {
        LeftNowhere(sys, held, s, v, WireEnd(x, side));
      }
    }
  }
}
