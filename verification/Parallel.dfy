/**
 Workers that handle tasks at the same time, one memory access at a time.

 A worker takes a task from the queues, locks and reads its two nodes one after the other, runs the body of the
 rule on the ends it read, and connects, fuses and frees wires while the others do the same.  `fault` records
 what must never happen: a wire used or freed after it was freed, a node read before it is complete or after it
 was recycled, a slot filled without the lock, or a second task found while one node is built.
 */
module Parallel {
  import opened Links
  import opened Script
  import opened Machine
  import opened Net
  import opened Confluence
  import opened Heap

  datatype Pending =
    | Quiet
    | Connecting(left: End, right: End)
    | Freeing(wire: Wire, left: End, right: End)

  datatype Worker =
    | Idle
    | Reading(job: Found, second: bool, locked: bool, index: nat, ends: seq<End>)
    | Building(script: seq<Action>, pending: Pending, found: set<Found>, open: Option<NodeId>)

  // `queue` are the tasks in all the deques.
  datatype Shared = Shared(
    nodes: map<NodeId, Node>, locks: map<NodeId, nat>, cells: Cells, freed: set<Wire>,
    queue: set<Found>, workers: seq<Worker>, fault: bool)

  // The node a worker is reading.
  function Current(w: Worker): NodeId
    requires w.Reading?
  {
    if w.second then w.job.task.right else w.job.task.left
  }

  predicate HasLock(w: Worker, n: NodeId) {
    (w.Reading? && w.locked && Current(w) == n) || (w.Building? && w.open == Some(n))
  }

  function Set(s: Shared, t: nat, w: Worker): Shared
    requires t < |s.workers|
  {
    s.(workers := s.workers[t := w])
  }

  function Broken(s: Shared): Shared {
    s.(fault := true)
  }

  // A worker that waits for a lock cannot go on.
  predicate Enabled(s: Shared, t: nat) {
    && t < |s.workers|
    && match s.workers[t]
       case Idle => false
       case Reading(_, _, locked, _, _) => locked || Current(s.workers[t]) !in s.locks
       case Building(_, _, _, _) => true
  }

  // ----- Taking a task and disconnecting its nodes -----

  predicate CanTake(s: Shared, t: nat, f: Found) {
    t < |s.workers| && s.workers[t].Idle? && f in s.queue
  }

  function Take(s: Shared, t: nat, f: Found): Shared
    requires CanTake(s, t, f)
  {
    Set(s.(queue := s.queue - {f}), t, Reading(f, false, false, 0, []))
  }

  function LockNode(s: Shared, t: nat): Shared
    requires t < |s.workers| && s.workers[t].Reading? && !s.workers[t].locked
  {
    var n := Current(s.workers[t]);
    if n !in s.nodes then Broken(s)
    else Set(s.(locks := s.locks[n := t]), t, s.workers[t].(locked := true))
  }

  // One slot; a principal wire is dropped, anything else goes onto the value stack.
  function ReadSlot(s: Shared, t: nat, n: NodeId): Shared
    requires t < |s.workers| && s.workers[t].Reading? && n in s.nodes
  {
    var w := s.workers[t];
    if w.index !in s.nodes[n].slots then Broken(s)
    else
      var e := s.nodes[n].slots[w.index];
      Set(s, t, w.(index := w.index + 1, ends := if e.Principal? then w.ends else w.ends + [e]))
  }

  // The node is unlocked and recycled; after the second one the body runs.
  function Release(sys: System, s: Shared, t: nat, n: NodeId): Shared
    requires t < |s.workers| && s.workers[t].Reading?
  {
    var w := s.workers[t];
    var s' := s.(nodes := s.nodes - {n}, locks := s.locks - {n});
    if !w.second then Set(s', t, Reading(w.job, true, false, 0, w.ends))
    else
      var script := BodyScript(sys, w.job.rule, {w.job.task.left, w.job.task.right}, w.ends);
      Set(s', t, Building(script, Quiet, {}, None))
  }

  function Read(sys: System, s: Shared, t: nat): Shared
    requires t < |s.workers| && s.workers[t].Reading?
  {
    var n := Current(s.workers[t]);
    if n !in s.nodes then Broken(s)
    else if s.workers[t].index < s.nodes[n].ctor.Arity() then ReadSlot(s, t, n)
    else Release(sys, s, t, n)
  }

  // ----- Running a body -----

  function Act(s: Shared, t: nat): Shared
    requires t < |s.workers| && s.workers[t].Building? && s.workers[t].script != []
  {
    var w := s.workers[t];
    var w' := w.(script := w.script[1..]);
    match w.script[0]
    case NewWire(x) =>
      if x in s.cells || x in s.freed then Broken(s) else Set(s.(cells := s.cells[x := None]), t, w')
    case Begin(n, ctor) =>
      if n in s.nodes || n in s.locks || w.open.Some? then Broken(s)
      else Set(s.(nodes := s.nodes[n := Node(ctor, map[])], locks := s.locks[n := t]), t, w'.(open := Some(n)))
    case Fill(n, i, e) =>
      if n !in s.nodes || w.open != Some(n) || n !in s.locks || s.locks[n] != t || i in s.nodes[n].slots then Broken(s)
      else Set(s.(nodes := s.nodes[n := s.nodes[n].(slots := s.nodes[n].slots[i := e])]), t, w')
    case Finish(n) =>
      if w.open != Some(n) || n !in s.locks || s.locks[n] != t then Broken(s)
      else Set(s.(locks := s.locks - {n}), t, w'.(open := None))
    case Join(l, r) => Set(s, t, w'.(pending := Connecting(l, r)))
  }

  // The constructors that `connect_active_pair` reads from the two nodes.
  function Ctors(nodes: map<NodeId, Node>): map<NodeId, Ctor> {
    map n | n in nodes :: nodes[n].ctor
  }

  // `connect_active_pair`
  function Meet(sys: System, s: Shared, t: nat, l: End, r: End): Shared
    requires t < |s.workers| && s.workers[t].Building? && l.Principal? && r.Principal?
  {
    var w := s.workers[t].(pending := Quiet);
    if l.node !in s.nodes || r.node !in s.nodes then Broken(s)
    else
      match TaskFor(sys.rules, Ctors(s.nodes), l, r)
      case None => Set(s, t, w)
      case Some(f) =>
        if w.found != {} && w.open.Some? then Broken(s)
        else Set(s, t, w.(found := w.found + {f}))
  }

  // The compare-and-exchange of `fuze`: `e` is an end of the wire, `value` is to be stored.
  function Exchange(s: Shared, t: nat, e: End, value: End): Shared
    requires t < |s.workers| && s.workers[t].Building? && e.WireEnd?
  {
    var w := s.workers[t];
    if e.wire !in s.cells then Broken(s)
    else if s.cells[e.wire].None?
    then Set(s.(cells := s.cells[e.wire := Some(value)]), t, w.(pending := Quiet))
    else Set(s.(cells := s.cells - {e.wire}), t, w.(pending := Freeing(e.wire, s.cells[e.wire].value, value)))
  }

  function Connect(sys: System, s: Shared, t: nat, l: End, r: End): Shared
    requires t < |s.workers| && s.workers[t].Building?
  {
    if l.Principal? && r.Principal? then Meet(sys, s, t, l, r)
    else if l.WireEnd? then Exchange(s, t, l, r)
    else Exchange(s, t, r, l)
  }

  // `wire_destroy`
  function Free(s: Shared, t: nat, x: Wire, l: End, r: End): Shared
    requires t < |s.workers| && s.workers[t].Building?
  {
    if x in s.freed || x in s.cells then Broken(s)
    else Set(s.(freed := s.freed + {x}), t, s.workers[t].(pending := Connecting(l, r)))
  }

  // `worker_add_task`
  function Publish(s: Shared, t: nat): Shared
    requires t < |s.workers| && s.workers[t].Building?
  {
    Set(s.(queue := s.queue + s.workers[t].found), t, s.workers[t].(found := {}))
  }

  function Continue(sys: System, s: Shared, t: nat): Shared
    requires t < |s.workers| && s.workers[t].Building?
  {
    var w := s.workers[t];
    match w.pending
    case Connecting(l, r) => Connect(sys, s, t, l, r)
    case Freeing(x, l, r) => Free(s, t, x, l, r)
    case Quiet =>
      if w.found != {} && w.open.None? then Publish(s, t)
      else if w.script == [] then Set(s, t, Idle)
      else Act(s, t)
  }

  // ----- Runs -----

  function Go(sys: System, s: Shared, t: nat): Shared
    requires Enabled(s, t)
  {
    var w := s.workers[t];
    if w.Building? then Continue(sys, s, t)
    else if w.locked then Read(sys, s, t)
    else LockNode(s, t)
  }

  datatype Move = TakeMove(worker: nat, job: Found) | GoMove(worker: nat)

  predicate Possible(s: Shared, m: Move) {
    match m
    case TakeMove(t, f) => CanTake(s, t, f)
    case GoMove(t) => Enabled(s, t)
  }

  function Do(sys: System, s: Shared, m: Move): Shared
    requires Possible(s, m)
  {
    match m
    case TakeMove(t, f) => Take(s, t, f)
    case GoMove(t) => Go(sys, s, t)
  }

  // Any interleaving of moves that leads from `s` to `last`.
  ghost predicate Runs(sys: System, s: Shared, moves: seq<Move>, last: Shared)
    decreases |moves|
  {
    if moves == [] then s == last
    else Possible(s, moves[0]) && Runs(sys, Do(sys, s, moves[0]), moves[1..], last)
  }

  // Everybody is idle and no task is left.
  predicate AtEnd(s: Shared) {
    s.queue == {} && forall w | w in s.workers :: w.Idle?
  }

  // `count` workers; the first one is about to do what the program does.
  function Begun(script: seq<Action>, count: nat): Shared
    requires count > 0
  {
    Shared(map[], map[], map[], {}, {},
          [Building(script, Quiet, {}, None)] + seq(count - 1, i => Idle), false)
  }
}
