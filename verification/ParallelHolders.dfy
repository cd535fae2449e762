/**
 At any moment an end of a wire is in one place only.
 */
module ParallelHolders {
  import opened Links
  import opened Script
  import opened Machine
  import opened Net
  import opened Confluence
  import opened Heap
  import opened Race
  import opened Plans
  import opened Parallel
  import opened ParallelOk
  import opened ParallelTake
  import opened ParallelFuze
  import opened ParallelStart
  import opened ParallelRuns

  // A slot not read yet, what a worker has read, the cell of a wire, one side of a connection being made, what a
  // worker is still going to connect or to put into a slot.
  datatype Spot =
    | SlotSpot(node: NodeId, port: nat)
    | HandSpot(worker: nat, place: nat)
    | CellSpot(wire: Wire)
    | FlightSpot(worker: nat, first: bool)
    | PlannedSpot(worker: nat)
    | FillSpot(worker: nat, node: NodeId, port: nat)

  predicate Reads(s: Shared, t: nat) {
    t < |s.workers| && s.workers[t].Reading?
  }

  ghost predicate ReadAlready(s: Shared, n: NodeId, i: nat) {
    exists t: nat :: Reads(s, t) && Current(s.workers[t]) == n && i < s.workers[t].index
  }

  ghost predicate At(s: Shared, spot: Spot, e: End) {
    match spot
    case SlotSpot(n, i) => n in s.nodes && i in s.nodes[n].slots && s.nodes[n].slots[i] == e && !ReadAlready(s, n, i)
    case HandSpot(t, k) => Reads(s, t) && k < |s.workers[t].ends| && s.workers[t].ends[k] == e
    case CellSpot(x) => x in s.cells && s.cells[x] == Some(e)
    case FlightSpot(t, first) =>
      && t < |s.workers| && s.workers[t].Building? && !s.workers[t].pending.Quiet?
      && e == if first then s.workers[t].pending.left else s.workers[t].pending.right
    case PlannedSpot(t) => t < |s.workers| && s.workers[t].Building? && e in Joins(s.workers[t].script)
    case FillSpot(t, n, i) => t < |s.workers| && s.workers[t].Building? && Fill(n, i, e) in s.workers[t].script
  }

  // Where in the net the end comes from that a worker has in hand.
  ghost predicate CameFrom(net: Net, w: Worker, e: End, m: NodeId, j: nat)
    requires w.Reading?
  {
    && (m == w.job.task.left || m == w.job.task.right) && m in net.nodes && j in net.nodes[m].slots
    && net.nodes[m].slots[j] == e
    && (if m == Current(w) then j < w.index else w.second && m == w.job.task.left)
  }

  lemma HandFrom(sys: System, held: set<End>, s: Shared, v: View, t: nat, k: nat) returns (m: NodeId, j: nat)
    requires Ok(sys, held, s, v) && Reads(s, t) && k < |s.workers[t].ends|
    ensures CameFrom(v.net, s.workers[t], s.workers[t].ends[k], m, j) && s.workers[t].ends[k].WireEnd?
    ensures forall k' :: 0 <= k' < |s.workers[t].ends| && s.workers[t].ends[k'] == s.workers[t].ends[k] ==> k' == k
  {
    hide Ok, Placed, Conserved, Fresh, NoRepeats;
    var w := s.workers[t];
    ReadingFacts(sys, held, s, v, t);
    var l, r, c := w.job.task.left, w.job.task.right, Current(w);
    var e, rest := w.ends[k], AuxFrom(v.net.nodes[c], w.index);
    var ins := w.ends + rest;
    assert ins[k] == e && e in ins;
    RepeatsNot(ins, k);
    m := if w.second && e in AuxEnds(v.net.nodes[l]) then l else c;
    InAux(v.net, m, e);
    j :| j in v.net.nodes[m].slots && v.net.nodes[m].slots[j] == e;
    NotInRest(w.ends, rest, k);
    AuxFromElements(v.net.nodes[c], w.index, e);
    assert v.net.nodes[m].WellBuilt(m);
    forall k' | 0 <= k' < |w.ends| && w.ends[k'] == e
      ensures k' == k
    {
      assert ins[k'] == e;
    }
  }

  lemma NotInRest(a: seq<End>, b: seq<End>, k: nat)
    requires NoRepeats(a + b) && k < |a|
    ensures a[k] !in b
  {
    forall q | 0 <= q < |b|
      ensures b[q] != a[k]
    {
      assert (a + b)[k] == a[k] && (a + b)[|a| + q] == b[q];
    }
  }

  lemma RepeatsNot(ins: seq<End>, k: nat)
    requires NoRepeats(ins) && k < |ins|
    ensures forall k' :: 0 <= k' < |ins| && ins[k'] == ins[k] ==> k' == k
  {
  }

  lemma ReadingFacts(sys: System, held: set<End>, s: Shared, v: View, t: nat)
    requires Ok(sys, held, s, v) && Reads(s, t)
    ensures ReadOk(v.net, v.claims, t, s.workers[t]) && WellFormed(v.net, held)
    ensures var w := s.workers[t];
            NoRepeats(w.ends + AuxFrom(v.net.nodes[Current(w)], w.index)) && w.job.task.left != w.job.task.right
  {
    hide WellFormed, SamePairing, Sound, NodesOk, LocksOk, NamesOk, WiresOk, SlotsLive, Alive, ClaimsOk, HoldersOk,
      Carried, BuildOk, NoRepeats, Ready, AuxFrom;
    OneWorker(held, s.cells, v, s.workers, t);
    ClaimReady(sys, held, s, v, t);
    var w := s.workers[t];
    StartingInputs(sys, held, v, t, w.job);
  }

  lemma StartingInputs(sys: System, held: set<End>, v: View, t: nat, f: Found)
    requires Starting(sys, held, v, t, f)
    ensures f.task.left in v.net.nodes && f.task.right in v.net.nodes && f.task.left != f.task.right
    ensures NoRepeats(TaskIns(v.net, f.task.left, f.task.right)) && NoRepeats(AuxEnds(v.net.nodes[f.task.left]))
  {
    hide Ready, FindRule, NoRepeats, AuxEnds;
    var l, r := f.task.left, f.task.right;
    TaskInputs(v.net, held, l, r);
    FirstPart(AuxEnds(v.net.nodes[l]), AuxEnds(v.net.nodes[r]));
  }

  lemma FirstPart(a: seq<End>, b: seq<End>)
    requires NoRepeats(a + b)
    ensures NoRepeats(a)
  {
    forall i, j | 0 <= i < j < |a|
      ensures a[i] != a[j]
    {
      assert (a + b)[i] == a[i] && (a + b)[j] == a[j];
    }
  }

  // ----- In slots and in hands -----

  lemma SameSlot(sys: System, held: set<End>, s: Shared, v: View, n: NodeId, i: nat, m: NodeId, j: nat)
    requires Ok(sys, held, s, v) && n in v.net.nodes && i in v.net.nodes[n].slots
    requires m in v.net.nodes && j in v.net.nodes[m].slots
    requires v.net.nodes[n].slots[i] == v.net.nodes[m].slots[j] && v.net.nodes[n].slots[i].WireEnd?
    ensures n == m && i == j
  {
    hide Conserved, Fresh, Built, SamePairing, Sound, NodesOk, LocksOk, NamesOk, WiresOk, SlotsLive, Alive, ClaimsOk,
      HoldersOk, AllWorkersOk, GoodSystem;
  }

  // What was read is no longer in a slot to be read.
  lemma SlotNotHand(sys: System, held: set<End>, s: Shared, v: View, n: NodeId, i: nat, t: nat, k: nat, e: End)
    requires Ok(sys, held, s, v) && At(s, SlotSpot(n, i), e)
    ensures !At(s, HandSpot(t, k), e)
  {
    hide Ok, Runs, ReadAlready;
    if At(s, HandSpot(t, k), e) {
      SlotInNet(sys, held, s, v, n, i);
      var m, j := HandFrom(sys, held, s, v, t, k);
      SameSlot(sys, held, s, v, n, i, m, j);
      NotReadAgain(sys, held, s, v, n, i, t);
      assert false;
    }
  }

  lemma NotReadAgain(sys: System, held: set<End>, s: Shared, v: View, n: NodeId, i: nat, t: nat)
    requires Ok(sys, held, s, v) && n in s.nodes && !ReadAlready(s, n, i) && Reads(s, t)
    ensures Current(s.workers[t]) == n ==> i >= s.workers[t].index
    ensures !HalfRead(s.workers[t], n)
  {
    hide NetOk, Sound, LocksOk, NamesOk, WiresOk, SlotsLive, Alive, ClaimsOk, HoldersOk, AllWorkersOk, NodesThere,
      NodesAway;
  }

  lemma OneHand(sys: System, held: set<End>, s: Shared, v: View, t: nat, k: nat, u: nat, q: nat, e: End)
    requires Ok(sys, held, s, v) && At(s, HandSpot(t, k), e) && At(s, HandSpot(u, q), e)
    ensures t == u && k == q
  {
    hide Ok, Runs;
    var n, i := HandFrom(sys, held, s, v, t, k);
    var m, j := HandFrom(sys, held, s, v, u, q);
    SameSlot(sys, held, s, v, n, i, m, j);
    ReadClaim(sys, held, s, v, t);
    ReadClaim(sys, held, s, v, u);
    ClaimsApart(sys, held, s, v, s.workers[t].job, s.workers[u].job);
  }

  lemma ReadClaim(sys: System, held: set<End>, s: Shared, v: View, t: nat)
    requires Ok(sys, held, s, v) && Reads(s, t)
    ensures s.workers[t].job in v.claims && v.claims[s.workers[t].job] == ReadBy(t)
  {
    hide NetOk, Sound, LocksOk, NamesOk, WiresOk, SlotsLive, Alive, ClaimsOk, HoldersOk, NodesOk, Carried, BuildOk;
    OneWorker(held, s.cells, v, s.workers, t);
  }

  // ----- Slots still to be filled -----

  lemma FillFrom(sys: System, held: set<End>, s: Shared, v: View, t: nat, n: NodeId, i: nat, e: End)
    requires Ok(sys, held, s, v) && At(s, FillSpot(t, n, i), e)
    ensures n in v.net.nodes && i in v.net.nodes[n].slots && v.net.nodes[n].slots[i] == e
    ensures t < |v.builds| && n.makers == v.builds[t].makers
    ensures HasLock(s.workers[t], n) || Unbegun(s.workers[t], v.builds[t], n)
    ensures n in s.nodes ==> i !in s.nodes[n].slots
  {
    hide WellFormed, SamePairing, Sound, GoodSystem, ClaimsOk, HoldersOk, LocksOk, WiresOk, SlotsLive, Alive,
      OneTask, FreeLive, Carried, NodesThere, NodesAway, Covered, Apart, Shaped;
    OneWorker(held, s.cells, v, s.workers, t);
    var w, b := s.workers[t], v.builds[t];
    FillFinal(b, v.ins[t], w.script, n, i, e);
    if n !in b.nodes {
      NewNodeFate(b, v.ins[t], w.script, n);
      NotMade(sys, held, s, v, t, n);
    } else {
      assert HasLock(w, n);
    }
  }

  lemma NotMade(sys: System, held: set<End>, s: Shared, v: View, t: nat, n: NodeId)
    requires Ok(sys, held, s, v) && t < |s.workers| && s.workers[t].Building?
    requires n.makers == v.builds[t].makers && n.k >= v.builds[t].next
    ensures n !in s.nodes
  {
    hide NetOk, Sound, LocksOk, WiresOk, SlotsLive, Alive, ClaimsOk, HoldersOk, AllWorkersOk, NodesOk;
  }

  // A node that is being made has not been read.
  lemma HandNotFill(sys: System, held: set<End>, s: Shared, v: View, u: nat, k: nat, t: nat, n: NodeId, i: nat, e: End)
    requires Ok(sys, held, s, v) && Waiting(s) && At(s, HandSpot(u, k), e)
    ensures !At(s, FillSpot(t, n, i), e)
  {
    hide Ok, Runs, Unbegun;
    if At(s, FillSpot(t, n, i), e) {
      var m, j := HandFrom(sys, held, s, v, u, k);
      FillFrom(sys, held, s, v, t, n, i, e);
      SameSlot(sys, held, s, v, n, i, m, j);
      ReadClaim(sys, held, s, v, u);
      ClaimPorts(sys, held, s, v, s.workers[u].job, n);
      MadeOrRead(sys, held, s, v, u, t, n);
      if Unbegun(s.workers[t], v.builds[t], n) {
        UnbegunPort(sys, held, s, v, t, n);
      }
      assert false;
    }
  }

  lemma MadeOrRead(sys: System, held: set<End>, s: Shared, v: View, u: nat, t: nat, n: NodeId)
    requires Ok(sys, held, s, v) && Reads(s, u) && t < |s.workers| && s.workers[t].Building?
    ensures !(HasLock(s.workers[u], n) && HasLock(s.workers[t], n))
    ensures !(HalfRead(s.workers[u], n) && HasLock(s.workers[t], n))
  {
    hide NetOk, Sound, NamesOk, WiresOk, SlotsLive, Alive, ClaimsOk, HoldersOk, AllWorkersOk, NodesThere, NodesAway;
  }

  lemma OneMaker(sys: System, held: set<End>, s: Shared, v: View, t: nat, u: nat)
    requires Ok(sys, held, s, v) && t < |s.workers| && s.workers[t].Building?
    requires u < |s.workers| && s.workers[u].Building? && v.builds[t].makers == v.builds[u].makers
    ensures t == u
  {
    hide NetOk, Sound, LocksOk, WiresOk, SlotsLive, Alive, ClaimsOk, HoldersOk, AllWorkersOk, NodesOk;
  }

  // Nobody has read anything from a node before locking it.
  predicate Waiting(s: Shared) {
    forall t {:trigger s.workers[t]} :: 0 <= t < |s.workers| && s.workers[t].Reading? && !s.workers[t].locked ==>
      s.workers[t].index == 0
  }

  predicate NoneReads(s: Shared, s': Shared, t: nat) {
    && t < |s.workers| == |s'.workers| && !s'.workers[t].Reading?
    && s'.workers == s.workers[t := s'.workers[t]]
  }

  lemma ActReads(s: Shared, t: nat)
    requires t < |s.workers| && s.workers[t].Building? && s.workers[t].script != []
    ensures NoneReads(s, Act(s, t), t)
  {
  }

  lemma ConnectReads(sys: System, s: Shared, t: nat, l: End, r: End)
    requires t < |s.workers| && s.workers[t].Building?
    ensures NoneReads(s, Connect(sys, s, t, l, r), t)
  {
    hide TaskFor, Ctors;
  }

  lemma ContinueReads(sys: System, s: Shared, t: nat)
    requires t < |s.workers| && s.workers[t].Building?
    ensures NoneReads(s, Continue(sys, s, t), t)
  {
    hide Act, Connect;
    match s.workers[t].pending
    case Connecting(l, r) => ConnectReads(sys, s, t, l, r);
    case Freeing(x, l, r) =>
    case Quiet =>
      if s.workers[t].script != [] {
        ActReads(s, t);
      }
  }

  lemma ContinueWaits(sys: System, s: Shared, t: nat)
    requires Waiting(s) && t < |s.workers| && s.workers[t].Building?
    ensures Waiting(Continue(sys, s, t))
  {
    hide Continue;
    ContinueReads(sys, s, t);
  }

  lemma {:induction false} AllWait(sys: System, s: Shared, moves: seq<Move>, last: Shared)
    requires Waiting(s) && Runs(sys, s, moves, last)
    ensures Waiting(last)
    decreases |moves|
  {
    hide Continue, BodyScript;
    if moves != [] {
      match moves[0] {
        case TakeMove(t, f) =>
        case GoMove(t) =>
          if s.workers[t].Building? {
            ContinueWaits(sys, s, t);
          }
      }
      AllWait(sys, Do(sys, s, moves[0]), moves[1..], last);
    }
  }

  lemma BegunWaits(script: seq<Action>, count: nat)
    requires count > 0
    ensures Waiting(Begun(script, count))
  {
    var s := Begun(script, count);
    forall t | 0 <= t < |s.workers|
      ensures !s.workers[t].Reading?
    {
      assert t > 0 ==> s.workers[t] == Idle;
    }
  }

  // ----- Linked -----

  // Where the link is of which the spot keeps an end.
  predicate PlaceOf(spot: Spot, place: Where) {
    match spot
    case CellSpot(_) => place.Stored?
    case FlightSpot(t, _) => place == Flying(t)
    case PlannedSpot(t) => place == Planned(t)
    case _ => false
  }

  predicate InNode(spot: Spot) {
    spot.SlotSpot? || spot.HandSpot? || spot.FillSpot?
  }

  lemma LinkedSpot(sys: System, held: set<End>, s: Shared, v: View, spot: Spot, e: End)
    requires Ok(sys, held, s, v) && At(s, spot, e) && !InNode(spot)
    ensures e in v.links && e in v.at && PlaceOf(spot, v.at[e])
  {
    hide NetOk, AllPlaced, LinksLive, LocksOk, NamesOk, WiresOk, SlotsLive, Alive, ClaimsOk, HoldersOk, NodesOk,
      BuildOk, Planning;
    if !spot.CellSpot? {
      OneWorker(held, s.cells, v, s.workers, spot.worker);
      if spot.PlannedSpot? {
        PlannedJoin(v.links, v.at, spot.worker, s.workers[spot.worker], e);
      }
    }
  }

  lemma OneLink(sys: System, held: set<End>, s: Shared, v: View, a: Spot, b: Spot, e: End)
    requires Ok(sys, held, s, v) && At(s, a, e) && At(s, b, e) && !InNode(a) && !InNode(b)
    ensures a == b
  {
    hide NetOk, LinksLive, LocksOk, NamesOk, WiresOk, SlotsLive, Alive, ClaimsOk, HoldersOk, NodesOk, BuildOk, Planning;
    LinkedSpot(sys, held, s, v, a, e);
    LinkedSpot(sys, held, s, v, b, e);
    if a.FlightSpot? {
      OneWorker(held, s.cells, v, s.workers, a.worker);
      assert InFlight(v.links, v.at, a.worker, s.workers[a.worker].pending);
      assert s.workers[a.worker].pending.left != s.workers[a.worker].pending.right;
    }
  }

  lemma NotLinkedIn(sys: System, held: set<End>, s: Shared, v: View, spot: Spot, e: End)
    requires Ok(sys, held, s, v) && At(s, spot, e) && InNode(spot) && e.WireEnd?
    ensures e !in v.links
  {
    hide Ok, Runs, ReadAlready, Placed, Conserved, Fresh, Built, SamePairing, Unbegun;
    match spot
    case SlotSpot(n, i) => SlotInNet(sys, held, s, v, n, i);
    case HandSpot(t, k) =>
      var m, j := HandFrom(sys, held, s, v, t, k);
      assert InSlot(v.net.nodes, e);
      NetFacts(sys, held, s, v);
      NotLinked(v.net, held, v.links, e);
    case FillSpot(t, n, i) =>
      FillFrom(sys, held, s, v, t, n, i, e);
      assert InSlot(v.net.nodes, e);
      NetFacts(sys, held, s, v);
      NotLinked(v.net, held, v.links, e);
  }

  lemma NetFacts(sys: System, held: set<End>, s: Shared, v: View)
    requires Ok(sys, held, s, v)
    ensures WellFormed(v.net, held) && SamePairing(v.net.links, v.links)
  {
    hide WellFormed, SamePairing, Sound, NodesOk, LocksOk, NamesOk, WiresOk, SlotsLive, Alive, ClaimsOk, HoldersOk,
      AllWorkersOk;
  }

  // ----- One place -----

  // In no state of any run is an end of a wire in two places.
  lemma OneHolder(sys: System, script: seq<Action>, count: nat, moves: seq<Move>, s: Shared, e: End, a: Spot, b: Spot)
    requires GoodSystem(sys) && Runnable(script) && count > 0 && Runs(sys, Begun(script, count), moves, s)
    requires e.WireEnd? && At(s, a, e) && At(s, b, e)
    ensures a == b
  {
    hide Ok, Runs, Begun, GoodSystem, Runnable, At, Waiting;
    var held, v, tasks := ParallelRuns.Reached(sys, script, count, moves, s);
    BegunWaits(script, count);
    AllWait(sys, Begun(script, count), moves, s);
    OneSpot(sys, held, s, v, e, a, b);
  }

  lemma OneSpot(sys: System, held: set<End>, s: Shared, v: View, e: End, a: Spot, b: Spot)
    requires Ok(sys, held, s, v) && Waiting(s) && e.WireEnd? && At(s, a, e) && At(s, b, e)
    ensures a == b
  {
    hide Ok, Runs, Waiting;
    if InNode(a) != InNode(b) {
      NodeOrLink(sys, held, s, v, e, if InNode(a) then a else b, if InNode(a) then b else a);
      assert false;
    } else if !InNode(a) {
      OneLink(sys, held, s, v, a, b, e);
    } else {
      OneInNode(sys, held, s, v, e, a, b);
    }
  }

  lemma NodeOrLink(sys: System, held: set<End>, s: Shared, v: View, e: End, a: Spot, b: Spot)
    requires Ok(sys, held, s, v) && e.WireEnd? && InNode(a) && !InNode(b)
    ensures !(At(s, a, e) && At(s, b, e))
  {
    hide Ok, At;
    if At(s, a, e) && At(s, b, e) {
      NotLinkedIn(sys, held, s, v, a, e);
      LinkedSpot(sys, held, s, v, b, e);
      assert false;
    }
  }

  lemma OneInNode(sys: System, held: set<End>, s: Shared, v: View, e: End, a: Spot, b: Spot)
    requires Ok(sys, held, s, v) && Waiting(s) && e.WireEnd? && At(s, a, e) && At(s, b, e) && InNode(a) && InNode(b)
    ensures a == b
    decreases Rank(a)
  {
    hide Ok, ReadAlready, Waiting, Unbegun;
    if Rank(a) > Rank(b) {
      OneInNode(sys, held, s, v, e, b, a);
    } else if Rank(a) < Rank(b) {
      KindsApart(sys, held, s, v, e, a, b);
      assert false;
    } else {
      match a
      case SlotSpot(n, i) =>
        SlotInNet(sys, held, s, v, n, i);
        SlotInNet(sys, held, s, v, b.node, b.port);
        SameSlot(sys, held, s, v, n, i, b.node, b.port);
      case HandSpot(t, k) => OneHand(sys, held, s, v, t, k, b.worker, b.place, e);
      case FillSpot(t, n, i) =>
        FillFrom(sys, held, s, v, t, n, i, e);
        FillFrom(sys, held, s, v, b.worker, b.node, b.port, e);
        SameSlot(sys, held, s, v, n, i, b.node, b.port);
        OneMaker(sys, held, s, v, t, b.worker);
    }
  }

  function Rank(a: Spot): nat {
    if a.SlotSpot? then 0 else if a.HandSpot? then 1 else 2
  }

  lemma KindsApart(sys: System, held: set<End>, s: Shared, v: View, e: End, a: Spot, b: Spot)
    requires Ok(sys, held, s, v) && Waiting(s) && e.WireEnd? && InNode(a) && InNode(b) && Rank(a) < Rank(b)
    ensures !(At(s, a, e) && At(s, b, e))
  {
    hide Ok, ReadAlready, Waiting, Unbegun;
    if At(s, a, e) && a.SlotSpot? && b.HandSpot? {
      SlotNotHand(sys, held, s, v, a.node, a.port, b.worker, b.place, e);
    } else if At(s, a, e) && a.HandSpot? {
      HandNotFill(sys, held, s, v, a.worker, a.place, b.worker, b.node, b.port, e);
    } else if At(s, a, e) && At(s, b, e) {
      SlotInNet(sys, held, s, v, a.node, a.port);
      FillFrom(sys, held, s, v, b.worker, b.node, b.port, e);
      SameSlot(sys, held, s, v, a.node, a.port, b.node, b.port);
      assert false;
    }
  }
}
