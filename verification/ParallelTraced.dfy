/**
 Every wire in use is one of the net, and an end of it that is linked in the net is still linked.
 */
module ParallelTraced {
  import opened Links
  import opened Script
  import opened Machine
  import opened Net
  import opened Confluence
  import opened Heap
  import opened Race
  import opened Plans
  import opened Parallel
  import opened ParallelOk
  import opened ParallelTake
  import opened ParallelBuild

  ghost predicate TracedEnd(net: Net, L: Links, e: End) {
    e.WireEnd? && e.wire in net.wires && (e in net.links ==> e in L)
  }

  ghost predicate Traced(cells: Cells, net: Net, L: Links) {
    forall x, side {:trigger WireEnd(x, side)} :: x in cells ==> TracedEnd(net, L, WireEnd(x, side))
  }

  lemma TracedFewer(cells: Cells, cells': Cells, net: Net, L: Links)
    requires cells'.Keys <= cells.Keys && Traced(cells, net, L)
    ensures Traced(cells', net, L)
  {
    assert forall x :: x in cells' ==> x in cells'.Keys;
  }

  // The second connector takes out a wire with both its ends.
  lemma TracedTaken(cells: Cells, net: Net, L: Links, e: End)
    requires Traced(cells, net, L) && Matching(L) && e.WireEnd? && e in L && e.Mate() in L && L[e] != e.Mate()
    ensures Traced(cells - {e.wire}, net, Taken(L, e))
  {
    TakenMatching(L, e);
    forall x, side | x in cells - {e.wire}
      ensures TracedEnd(net, Taken(L, e), WireEnd(x, side))
    {
      var a := WireEnd(x, side);
      assert TracedEnd(net, L, a) && a != e && a != e.Mate();
      assert a in L ==> a in Taken(L, e).Keys;
    }
  }

  lemma TracedInteract(sys: System, cells: Cells, net: Net, L: Links, l: NodeId, r: NodeId)
    requires Traced(cells, net, L) && l in net.nodes && r in net.nodes
    ensures Traced(cells, Interact(sys, net, l, r), L + TaskEffect(sys, net, l, r).links)
  {
    hide TaskEffect;
    forall x, side | x in cells
      ensures TracedEnd(Interact(sys, net, l, r), L + TaskEffect(sys, net, l, r).links, WireEnd(x, side))
    {
      assert TracedEnd(net, L, WireEnd(x, side));
    }
  }

  // What a worker has in hand is going to be linked, put into a slot, or left over.
  lemma FreeTraced(sys: System, held: set<End>, s: Shared, v: View, t: nat, b: Build, script: seq<Action>, e: End)
    requires Ok(sys, held, s, v) && t < |s.workers| && s.workers[t].Building?
    requires Doing(b, v.ins[t], script) && e in b.free && e.WireEnd?
    requires Joins(script) == Joins(s.workers[t].script)
    requires AllAllowed(v.builds[t], s.workers[t].script)
    requires PerformAll(b, script) == Final(v.builds[t], s.workers[t])
    requires forall n :: Unfinished(b, n) ==> Unfinished(v.builds[t], n)
    ensures TracedEnd(v.net, v.links, e)
  {
    hide WellFormed, SamePairing, Sound, GoodSystem, ClaimsOk, HoldersOk, LocksOk, NamesOk, WiresOk, SlotsLive, Alive,
      NodesOk, Held, OneTask, FreeLive, Carried;
    OneWorker(held, s.cells, v, s.workers, t);
    Fate(b, v.ins[t], script, e);
    if e in Joins(script) {
      PlannedJoin(v.links, v.at, t, s.workers[t], e);
      NotLinked(v.net, held, v.links, e);
    } else if GoesIntoSlot(b, PerformAll(b, script), e) {
      var final := Final(v.builds[t], s.workers[t]);
      var n, i :| n in final.nodes && Unfinished(b, n) && i in final.nodes[n].slots && final.nodes[n].slots[i] == e;
      assert Unfinished(v.builds[t], n) && v.net.nodes[n].slots[i] == e;
      assert InSlot(v.net.nodes, e);
    }
    HeldOrSlot(v.net, held, v.links, e);
  }

  lemma HeldOrSlot(net: Net, held: set<End>, L: Links, e: End)
    requires WellFormed(net, held) && e.WireEnd?
    ensures e in net.links && e in L ==> TracedEnd(net, L, e)
    ensures e in held || InSlot(net.nodes, e) ==> TracedEnd(net, L, e)
  {
  }

  lemma TracedNewWire(sys: System, held: set<End>, s: Shared, v: View, t: nat, x: Wire)
    requires Ok(sys, held, s, v) && CanAct(s, v, t) && s.workers[t].script[0] == NewWire(x)
    requires Traced(s.cells, v.net, v.links)
    ensures Traced(s.cells[x := None], v.net, v.links)
  {
    hide Ok, Held, Carried, BuildOk, TracedEnd;
    ActFacts(sys, held, s, v, t);
    var w, b := s.workers[t], v.builds[t];
    var c := Perform(b, w.script[0]);
    UnfinishedLonger(b, x);
    forall side
      ensures TracedEnd(v.net, v.links, WireEnd(x, side))
    {
      assert WireEnd(x, side) in c.free;
      FreeTraced(sys, held, s, v, t, c, w.script[1..], WireEnd(x, side));
    }
  }

  lemma UnfinishedLonger(b: Build, x: Wire)
    requires Allowed(b, NewWire(x))
    ensures forall n :: Unfinished(Perform(b, NewWire(x)), n) ==> Unfinished(b, n)
  {
  }

  // ----- Steps that leave the cells alone -----

  lemma ActCells(s: Shared, t: nat)
    requires t < |s.workers| && s.workers[t].Building? && s.workers[t].script != []
    ensures var a := s.workers[t].script[0];
            if a.NewWire? then Act(s, t).cells.Keys <= s.cells[a.wire := None].Keys else Act(s, t).cells == s.cells
  {
  }

  lemma MeetCells(sys: System, s: Shared, t: nat, l: End, r: End)
    requires t < |s.workers| && s.workers[t].Building? && l.Principal? && r.Principal?
    ensures Parallel.Meet(sys, s, t, l, r).cells == s.cells
  {
  }

  lemma ReadCells(sys: System, s: Shared, t: nat)
    requires t < |s.workers| && s.workers[t].Reading?
    ensures Read(sys, s, t).cells == s.cells
    ensures !s.workers[t].locked ==> LockNode(s, t).cells == s.cells
  {
  }

  lemma ExchangeCells(s: Shared, t: nat, e: End, value: End)
    requires t < |s.workers| && s.workers[t].Building? && e.WireEnd? && e.wire in s.cells
    ensures Exchange(s, t, e, value).cells.Keys
         == if s.cells[e.wire].None? then s.cells.Keys else s.cells.Keys - {e.wire}
  {
  }

  lemma OtherCells(s: Shared, t: nat)
    requires t < |s.workers| && s.workers[t].Building?
    ensures Publish(s, t).cells == s.cells
    ensures s.workers[t].pending.Freeing? ==>
              var p := s.workers[t].pending; Free(s, t, p.wire, p.left, p.right).cells == s.cells
  {
  }
}
