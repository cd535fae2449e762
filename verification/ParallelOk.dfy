/**
 What holds in every state of the parallel machine.

 The view of a state is the net one would have if every body begun so far had run to its end at once.  The
 current links are those of that net with some wires contracted; a worker in the middle of a body holds the
 part of the net that is still to be made.
 */
module ParallelOk {
  import opened Links
  import opened Script
  import opened Machine
  import opened Net
  import opened Confluence
  import opened Heap
  import opened Race
  import opened Plans
  import opened Parallel

  // Who has a task that was found and not yet begun.
  datatype Holder = InQueue | FoundBy(worker: nat) | ReadBy(worker: nat)

  // `builds` and `ins`: what each worker has built so far, and out of which ends.
  datatype View = View(
    net: Net, links: Links, at: Places, claims: map<Found, Holder>,
    builds: seq<Build>, ins: seq<set<End>>, created: set<Wire>)

  ghost predicate NetOk(sys: System, held: set<End>, net: Net, L: Links) {
    GoodSystem(sys) && WellFormed(net, held) && SamePairing(net.links, L)
  }

  // A node goes only after its principal port has met another.
  ghost predicate Alive(net: Net, L: Links, at: Places) {
    forall e {:trigger at[e]} :: e in L && e in at && e.Principal? && !at[e].Met? ==> e.node in net.nodes
  }

  // ----- Each worker -----

  function ScriptOf(w: Worker): seq<Action> {
    if w.Building? then w.script else []
  }

  function PendingOf(w: Worker): Pending {
    if w.Building? then w.pending else Quiet
  }

  function FoundOf(w: Worker): set<Found> {
    if w.Building? then w.found else {}
  }

  // `joins` are the links that worker `t` still plans to make.
  ghost predicate Planning(L: Links, at: Places, t: nat, joins: Links) {
    && (forall e {:trigger joins[e]} :: e in joins ==> e in L && e in at && at[e] == Planned(t) && L[e] == joins[e])
    && (forall e {:trigger at[e]} :: e in L && e in at && at[e] == Planned(t) ==> e in joins)
  }

  // The link in flight by worker `t` is the pair of its pending `connect`.
  ghost predicate InFlight(L: Links, at: Places, t: nat, pending: Pending) {
    && (!pending.Quiet? ==>
          var l, r := pending.left, pending.right;
          l in L && L[l] == r && r in L && l in at && r in at && at[l] == Flying(t) && at[r] == Flying(t))
    && (forall e {:trigger at[e]} :: e in L && e in at && at[e] == Flying(t) ==>
          !pending.Quiet? && (e == pending.left || e == pending.right))
  }

  ghost predicate Carried(L: Links, at: Places, t: nat, w: Worker) {
    Planning(L, at, t, Joins(ScriptOf(w))) && InFlight(L, at, t, PendingOf(w))
  }

  function Final(b: Build, w: Worker): Build
    requires w.Building? && AllAllowed(b, w.script)
  {
    PerformAll(b, w.script)
  }

  // The nodes the worker has not finished are in the net as they will be.
  ghost predicate Promised(net: Net, b: Build, final: Build) {
    forall n {:trigger Unfinished(b, n)} :: n in final.nodes && Unfinished(b, n) ==>
      n in net.nodes && net.nodes[n] == final.nodes[n]
  }

  // While a node is built, its principal port is connected once, and only that may find a task.
  ghost predicate OneTask(b: Build, w: Worker)
    requires w.Building?
  {
    match w.open
    case None => w.found != {} ==> w.pending.Quiet?
    case Some(n) =>
      && (w.found != {} ==> Principal(n) !in b.free)
      && (!w.pending.Quiet? ==>
            || (w.found == {} && Principal(n) !in b.free)
            || (w.pending.Connecting? && w.pending.left.WireEnd? && n in b.nodes
                && w.pending.left.Mate() in b.nodes[n].slots.Values))
  }

  ghost predicate FreeLive(cells: Cells, b: Build) {
    forall e {:trigger e in b.free} :: e in b.free && e.WireEnd? ==> e.wire in cells
  }

  ghost predicate BuildOk(net: Net, held: set<End>, cells: Cells, b: Build, ins: set<End>, w: Worker)
    requires w.Building?
  {
    && Doing(b, ins, w.script) && b.makers <= net.dead
    && b.open == (if w.open.Some? then {w.open.value} else {})
    && Final(b, w).open == {} && Final(b, w).free <= held
    && Promised(net, b, Final(b, w))
    && FreeLive(cells, b) && OneTask(b, w)
  }

  ghost predicate ReadOk(net: Net, claims: map<Found, Holder>, t: nat, w: Worker)
    requires w.Reading?
  {
    var l, r := w.job.task.left, w.job.task.right;
    && w.job in claims && claims[w.job] == ReadBy(t) && l in net.nodes && r in net.nodes
    && w.index <= net.nodes[Current(w)].ctor.Arity()
    && w.ends + AuxFrom(net.nodes[Current(w)], w.index)
       == if w.second then AuxEnds(net.nodes[l]) + AuxEnds(net.nodes[r]) else AuxEnds(net.nodes[l])
  }

  // The ends read so far are on wires that are there.
  ghost predicate EndsLive(cells: Cells, ends: seq<End>) {
    forall i {:trigger ends[i]} :: 0 <= i < |ends| ==> ends[i].WireEnd? && ends[i].wire in cells
  }

  ghost predicate WorkerOk(held: set<End>, cells: Cells, v: View, t: nat, w: Worker)
    requires t < |v.builds| && t < |v.ins|
  {
    && Carried(v.links, v.at, t, w)
    && (w.Building? ==> BuildOk(v.net, held, cells, v.builds[t], v.ins[t], w))
    && (w.Reading? ==> ReadOk(v.net, v.claims, t, w) && EndsLive(cells, w.ends))
  }

  // ----- Nodes and locks -----

  ghost predicate OpenedBy(nodes: map<NodeId, Node>, w: Worker, b: Build, n: NodeId) {
    w.Building? && w.open == Some(n) && n in b.nodes && n in nodes && nodes[n] == b.nodes[n]
  }

  ghost predicate Unbegun(w: Worker, b: Build, n: NodeId) {
    w.Building? && AllAllowed(b, w.script) && n in PerformAll(b, w.script).nodes && n !in b.nodes
  }

  predicate HalfRead(w: Worker, n: NodeId) {
    w.Reading? && w.second && w.job.task.left == n
  }

  ghost predicate NodesThere(nodes: map<NodeId, Node>, net: Net, workers: seq<Worker>, builds: seq<Build>)
    requires |workers| == |builds|
  {
    forall n {:trigger nodes[n]} :: n in nodes && n in net.nodes ==>
      || nodes[n] == net.nodes[n]
      || exists t :: 0 <= t < |workers| && OpenedBy(nodes, workers[t], builds[t], n)
  }

  ghost predicate NodesAway(nodes: map<NodeId, Node>, net: Net, workers: seq<Worker>, builds: seq<Build>)
    requires |workers| == |builds|
  {
    forall n {:trigger n in net.nodes} :: n in net.nodes && n !in nodes ==>
      exists t :: 0 <= t < |workers| && (Unbegun(workers[t], builds[t], n) || HalfRead(workers[t], n))
  }

  ghost predicate NodesHeld(nodes: map<NodeId, Node>, workers: seq<Worker>, builds: seq<Build>)
    requires |workers| == |builds|
  {
    && (forall t, n {:trigger HasLock(workers[t], n)} :: 0 <= t < |workers| && HasLock(workers[t], n) ==>
          n in nodes && (workers[t].Building? ==> OpenedBy(nodes, workers[t], builds[t], n)))
    && (forall t, n {:trigger HalfRead(workers[t], n)} :: 0 <= t < |workers| && HalfRead(workers[t], n) ==> n !in nodes)
  }

  // A node is complete, or being built, or not begun, or its reader is already at the other one.
  ghost predicate NodesOk(nodes: map<NodeId, Node>, net: Net, workers: seq<Worker>, builds: seq<Build>)
    requires |workers| == |builds|
  {
    && nodes.Keys <= net.nodes.Keys
    && NodesThere(nodes, net, workers, builds) && NodesAway(nodes, net, workers, builds)
    && NodesHeld(nodes, workers, builds)
  }

  ghost predicate SlotsLive(cells: Cells, nodes: map<NodeId, Node>) {
    forall n, i {:trigger nodes[n].slots[i]} ::
      n in nodes && i in nodes[n].slots && nodes[n].slots[i].WireEnd? ==> nodes[n].slots[i].wire in cells
  }

  ghost predicate LocksOk(locks: map<NodeId, nat>, workers: seq<Worker>) {
    && (forall n {:trigger locks[n]} :: n in locks ==> locks[n] < |workers| && HasLock(workers[locks[n]], n))
    && (forall t, n {:trigger HasLock(workers[t], n)} :: 0 <= t < |workers| && HasLock(workers[t], n) ==>
          n in locks && locks[n] == t)
  }

  // ----- Tasks -----

  ghost predicate ClaimOk(rules: seq<Rule>, net: Net, L: Links, at: Places, f: Found) {
    var l, r := f.task.left, f.task.right;
    && l in net.nodes && r in net.nodes
    && Principal(l) in L && L[Principal(l)] == Principal(r) && Principal(l) in at && at[Principal(l)] == Met
    && FindRule(rules, net.nodes[l].ctor, net.nodes[r].ctor) == Some(f.rule)
    && f.rule.left == net.nodes[l].ctor && f.rule.right == net.nodes[r].ctor
  }

  predicate Shares(f: Found, g: Found) {
    || f.task.left == g.task.left || f.task.left == g.task.right
    || f.task.right == g.task.left || f.task.right == g.task.right
  }

  predicate Claimed(claims: map<Found, Holder>, l: NodeId, r: NodeId) {
    exists f :: f in claims && (f.task == Task(l, r) || f.task == Task(r, l))
  }

  // Two principal ports that met and have a rule are in exactly one task; no node is in two.
  ghost predicate ClaimsOk(rules: seq<Rule>, net: Net, L: Links, at: Places, claims: map<Found, Holder>) {
    && (forall f {:trigger claims[f]} :: f in claims ==> ClaimOk(rules, net, L, at, f))
    && (forall f, g {:trigger claims[f], claims[g]} :: f in claims && g in claims && Shares(f, g) ==> f == g)
    && (forall l, r {:trigger Claimed(claims, l, r)} ::
          l in net.nodes && r in net.nodes && Principal(l) in L && L[Principal(l)] == Principal(r)
          && Principal(l) in at && at[Principal(l)] == Met
          && FindRule(rules, net.nodes[l].ctor, net.nodes[r].ctor).Some?
          ==> Claimed(claims, l, r))
  }

  predicate HolderOk(queue: set<Found>, workers: seq<Worker>, f: Found, h: Holder) {
    match h
    case InQueue => f in queue
    case FoundBy(t) => t < |workers| && f in FoundOf(workers[t])
    case ReadBy(t) => t < |workers| && workers[t].Reading? && workers[t].job == f
  }

  ghost predicate HoldersOk(claims: map<Found, Holder>, queue: set<Found>, workers: seq<Worker>) {
    && (forall f {:trigger claims[f]} {:trigger f in claims} :: f in claims ==> HolderOk(queue, workers, f, claims[f]))
    && (forall f {:trigger f in queue} :: f in queue ==> f in claims && claims[f] == InQueue)
    && (forall t, f {:trigger f in FoundOf(workers[t])} :: 0 <= t < |workers| && f in FoundOf(workers[t]) ==>
          f in claims && claims[f] == FoundBy(t))
  }

  // ----- Names -----

  predicate Doomed(w: Worker, x: Wire) {
    w.Building? && w.pending.Freeing? && w.pending.wire == x
  }

  // A wire is in use, about to be freed by one worker, or freed.
  ghost predicate WiresOk(cells: Cells, freed: set<Wire>, created: set<Wire>, workers: seq<Worker>) {
    && cells.Keys !! freed && cells.Keys <= created && freed <= created
    && (forall t, x {:trigger Doomed(workers[t], x)} :: 0 <= t < |workers| && Doomed(workers[t], x) ==>
          x in created && x !in cells && x !in freed)
    && (forall t, t', x {:trigger Doomed(workers[t], x), Doomed(workers[t'], x)} ::
          0 <= t < |workers| && 0 <= t' < |workers| && Doomed(workers[t], x) && Doomed(workers[t'], x) ==> t == t')
  }

  // Names are handed out in order, and no two workers hand out the same.
  ghost predicate NamesOk(nodes: map<NodeId, Node>, net: Net, created: set<Wire>, workers: seq<Worker>,
                          builds: seq<Build>)
    requires |workers| == |builds|
  {
    && (forall x {:trigger x in created} :: x in created ==> x.makers <= net.dead)
    && (forall t, x {:trigger workers[t], x in created} :: 0 <= t < |workers| && workers[t].Building? ==>
          x in created && x.makers == builds[t].makers ==> x.k < builds[t].next)
    && (forall t, n {:trigger workers[t], n in nodes} :: 0 <= t < |workers| && workers[t].Building? ==>
          n in nodes && n.makers == builds[t].makers ==> n.k < builds[t].next)
    && (forall t, t' {:trigger workers[t], workers[t']} :: 0 <= t < t' < |workers| ==>
          workers[t].Building? && workers[t'].Building? ==> builds[t].makers != builds[t'].makers)
  }

  // ----- All of it -----

  ghost predicate AllWorkersOk(held: set<End>, cells: Cells, v: View, workers: seq<Worker>)
    requires |workers| == |v.builds| == |v.ins|
  {
    forall t {:trigger workers[t]} :: 0 <= t < |workers| ==> WorkerOk(held, cells, v, t, workers[t])
  }

  // Only workers there are plan or connect anything.
  ghost predicate PlacesOf(at: Places, count: nat) {
    forall e {:trigger at[e]} :: e in at && (at[e].Planned? || at[e].Flying?) ==> at[e].worker < count
  }

  ghost predicate Ok(sys: System, held: set<End>, s: Shared, v: View) {
    && !s.fault && |s.workers| == |v.builds| == |v.ins|
    && NetOk(sys, held, v.net, v.links)
    && Sound(s.cells, v.links, v.at) && Alive(v.net, v.links, v.at) && PlacesOf(v.at, |s.workers|)
    && AllWorkersOk(held, s.cells, v, s.workers)
    && NodesOk(s.nodes, v.net, s.workers, v.builds)
    && SlotsLive(s.cells, s.nodes)
    && LocksOk(s.locks, s.workers)
    && ClaimsOk(sys.rules, v.net, v.links, v.at, v.claims)
    && HoldersOk(v.claims, s.queue, s.workers)
    && WiresOk(s.cells, s.freed, v.created, s.workers)
    && NamesOk(s.nodes, v.net, v.created, s.workers, v.builds)
  }
}
