/**
 What running a rule body does to the net, as a list of actions, and the linear discipline these must obey.
 */
module Script {
  import opened Links

  // `true` marks the principal port.  Inputs come before outputs, as in the C array of port infos.
  datatype Ctor = Ctor(name: string, inputs: seq<bool>, outputs: seq<bool>)
  {
    function Arity(): nat {
      |inputs| + |outputs|
    }

    predicate IsPrincipal(i: nat) {
      i < Arity() && (inputs + outputs)[i]
    }
  }

  // While a node is being built some of its slots are still empty.
  datatype Node = Node(ctor: Ctor, slots: map<nat, End>)
  {
    ghost predicate Complete() {
      forall i: nat :: i < ctor.Arity() <==> i in slots
    }

    ghost predicate WellBuilt(n: NodeId) {
      forall i: nat :: i in slots ==>
        i < ctor.Arity() && if ctor.IsPrincipal(i) then slots[i] == Principal(n) else slots[i].WireEnd?
    }
  }

  datatype Action =
    | NewWire(wire: Wire)
    | Join(left: End, right: End)
    | Begin(node: NodeId, ctor: Ctor)
    | Fill(node: NodeId, index: nat, end: End)
    | Finish(node: NodeId)

  // The part of the net that one body has built so far.  Names are handed out in order under `makers`;
  // `free` holds the ends the body still has in hand.
  datatype Build = Build(
    makers: set<NodeId>, next: nat, free: set<End>,
    nodes: map<NodeId, Node>, open: set<NodeId>, links: Links, wires: set<Wire>)

  function Start(makers: set<NodeId>, ins: set<End>): Build {
    Build(makers, 0, ins, map[], {}, map[], {})
  }

  // While a node is being built, only its own principal port, or a wire just put into one of its slots, is connected.
  predicate FromBuilding(b: Build, l: End) {
    forall n | n in b.open ::
      l == Principal(n) || (l.WireEnd? && n in b.nodes && l.Mate() in b.nodes[n].slots.Values)
  }

  predicate Allowed(b: Build, a: Action) {
    match a
    case NewWire(w) => w == Wire(b.makers, b.next)
    case Join(l, r) => l in b.free && r in b.free && l != r && FromBuilding(b, l)
    case Begin(n, ctor) => n == NodeId(b.makers, b.next) && b.open == {}
    case Fill(n, i, e) =>
      && b.open == {n} && n in b.nodes && i < b.nodes[n].ctor.Arity() && i !in b.nodes[n].slots
      && if b.nodes[n].ctor.IsPrincipal(i) then e == Principal(n) else e.WireEnd? && e in b.free
    case Finish(n) =>
      && b.open == {n} && n in b.nodes
      && forall i | 0 <= i < b.nodes[n].ctor.Arity() :: i in b.nodes[n].slots
  }

  function Perform(b: Build, a: Action): Build
    requires Allowed(b, a)
  {
    match a
    case NewWire(w) =>
      b.(next := b.next + 1, free := b.free + {WireEnd(w, false), WireEnd(w, true)}, wires := b.wires + {w})
    case Join(l, r) => b.(free := b.free - {l, r}, links := Link(b.links, l, r))
    case Begin(n, ctor) =>
      b.(next := b.next + 1, free := b.free + {Principal(n)}, open := {n}, nodes := b.nodes[n := Node(ctor, map[])])
    case Fill(n, i, e) =>
      b.(free := if e.Principal? then b.free else b.free - {e},
         nodes := b.nodes[n := b.nodes[n].(slots := b.nodes[n].slots[i := e])])
    case Finish(n) => b.(open := {})
  }

  predicate AllAllowed(b: Build, script: seq<Action>)
    decreases |script|
  {
    script == [] || (Allowed(b, script[0]) && AllAllowed(Perform(b, script[0]), script[1..]))
  }

  function PerformAll(b: Build, script: seq<Action>): Build
    requires AllAllowed(b, script)
    decreases |script|
  {
    if script == [] then b else PerformAll(Perform(b, script[0]), script[1..])
  }

  // A body that uses every end it was given or made exactly once, and finishes every node it begins.
  predicate Linear(makers: set<NodeId>, ins: set<End>, script: seq<Action>) {
    && AllAllowed(Start(makers, ins), script)
    && PerformAll(Start(makers, ins), script).free == {}
    && PerformAll(Start(makers, ins), script).open == {}
  }

  // ----- Every end has exactly one holder -----

  ghost predicate InSlot(nodes: map<NodeId, Node>, e: End) {
    exists n, i :: n in nodes && i in nodes[n].slots && nodes[n].slots[i] == e
  }

  // No two slots hold the same wire end.
  ghost predicate DistinctSlots(nodes: map<NodeId, Node>) {
    forall n, i, m, j {:trigger nodes[n].slots[i], nodes[m].slots[j]} ::
      (n in nodes && i in nodes[n].slots && m in nodes && j in nodes[m].slots
       && nodes[n].slots[i] == nodes[m].slots[j] && nodes[n].slots[i].WireEnd?) ==> n == m && i == j
  }

  // The ends that exist from the body's point of view.
  predicate Known(b: Build, ins: set<End>, e: End) {
    || e in ins
    || (e.WireEnd? && e.wire in b.wires)
    || (e.Principal? && e.node in b.nodes)
  }

  ghost predicate Named(b: Build, ins: set<End>) {
    && (forall w :: w in b.wires ==> w.makers == b.makers && w.k < b.next)
    && (forall n :: n in b.nodes ==> n.makers == b.makers && n.k < b.next)
    && (forall e :: e in ins ==> e.WireEnd? && e.wire.makers != b.makers)
  }

  ghost predicate Shaped(b: Build) {
    && b.open <= b.nodes.Keys
    && (forall n :: n in b.nodes ==> b.nodes[n].WellBuilt(n))
    && (forall n :: n in b.nodes && n !in b.open ==> b.nodes[n].Complete())
  }

  // An end is in hand, or linked, or in one slot: never in two of these.
  ghost predicate Apart(b: Build) {
    && Matching(b.links)
    && (forall e :: e in b.free ==> e !in b.links)
    && (forall e :: InSlot(b.nodes, e) && e.WireEnd? ==> e !in b.free && e !in b.links)
    && DistinctSlots(b.nodes)
  }

  // And every end is in one of them: none is lost.
  ghost predicate Covered(b: Build, ins: set<End>) {
    && (forall e :: e in b.free || e in b.links || (e.WireEnd? && InSlot(b.nodes, e)) ==> Known(b, ins, e))
    && (forall e :: Known(b, ins, e) ==> e in b.free || e in b.links || (e.WireEnd? && InSlot(b.nodes, e)))
  }

  ghost predicate Held(b: Build, ins: set<End>) {
    Named(b, ins) && Shaped(b) && Apart(b) && Covered(b, ins)
  }

  // What a slot map becomes when one more slot is filled.
  lemma InSlotFill(nodes: map<NodeId, Node>, n: NodeId, i: nat, e: End, x: End)
    requires n in nodes && i !in nodes[n].slots
    ensures InSlot(nodes[n := nodes[n].(slots := nodes[n].slots[i := e])], x) <==> InSlot(nodes, x) || x == e
  {
    var after := nodes[n := nodes[n].(slots := nodes[n].slots[i := e])];
    assert after[n].slots[i] == e;
    if InSlot(nodes, x) {
      var m, j :| m in nodes && j in nodes[m].slots && nodes[m].slots[j] == x;
      assert m in after && j in after[m].slots && after[m].slots[j] == x;
    }
    if InSlot(after, x) {
      var m, j :| m in after && j in after[m].slots && after[m].slots[j] == x;
      if m != n || j != i {
        assert m in nodes && j in nodes[m].slots && nodes[m].slots[j] == x;
      }
    }
  }

  lemma InSlotBegin(nodes: map<NodeId, Node>, n: NodeId, ctor: Ctor, x: End)
    requires n !in nodes
    ensures InSlot(nodes[n := Node(ctor, map[])], x) <==> InSlot(nodes, x)
  {
    var after := nodes[n := Node(ctor, map[])];
    if InSlot(nodes, x) {
      var m, j :| m in nodes && j in nodes[m].slots && nodes[m].slots[j] == x;
      assert m in after && j in after[m].slots && after[m].slots[j] == x;
    }
    if InSlot(after, x) {
      var m, j :| m in after && j in after[m].slots && after[m].slots[j] == x;
      assert m in nodes && j in nodes[m].slots && nodes[m].slots[j] == x;
    }
  }

  lemma HeldStart(makers: set<NodeId>, ins: set<End>)
    requires forall e :: e in ins ==> e.WireEnd? && e.wire.makers != makers
    ensures Held(Start(makers, ins), ins)
  {
  }

  lemma PerformHeld(b: Build, ins: set<End>, a: Action)
    requires Held(b, ins) && Allowed(b, a)
    ensures Held(Perform(b, a), ins)
  {
    match a
    case NewWire(w) => HeldNewWire(b, ins, w);
    case Join(l, r) => HeldJoin(b, ins, l, r);
    case Begin(n, ctor) => HeldBegin(b, ins, n, ctor);
    case Fill(n, i, e) => HeldFill(b, ins, n, i, e);
    case Finish(n) =>
  }

  lemma HeldNewWire(b: Build, ins: set<End>, w: Wire)
    requires Held(b, ins) && Allowed(b, NewWire(w))
    ensures Held(Perform(b, NewWire(w)), ins)
  {
    assert !Known(b, ins, WireEnd(w, false)) && !Known(b, ins, WireEnd(w, true));
  }

  lemma HeldJoin(b: Build, ins: set<End>, l: End, r: End)
    requires Held(b, ins) && Allowed(b, Join(l, r))
    ensures Held(Perform(b, Join(l, r)), ins)
  {
    LinkMatching(b.links, l, r);
  }

  lemma HeldBegin(b: Build, ins: set<End>, n: NodeId, ctor: Ctor)
    requires Held(b, ins) && Allowed(b, Begin(n, ctor))
    ensures Held(Perform(b, Begin(n, ctor)), ins)
  {
    var c := Perform(b, Begin(n, ctor));
    assert n !in b.nodes && !Known(b, ins, Principal(n));
    SlotsBegin(b.nodes, n, ctor);
    assert Apart(c);
    assert Shaped(c);
    assert Covered(c, ins);
  }

  lemma SlotsBegin(nodes: map<NodeId, Node>, n: NodeId, ctor: Ctor)
    requires n !in nodes && DistinctSlots(nodes)
    ensures DistinctSlots(nodes[n := Node(ctor, map[])])
    ensures forall x :: InSlot(nodes[n := Node(ctor, map[])], x) <==> InSlot(nodes, x)
  {
    forall x ensures InSlot(nodes[n := Node(ctor, map[])], x) <==> InSlot(nodes, x) {
      InSlotBegin(nodes, n, ctor, x);
    }
  }

  lemma HeldFill(b: Build, ins: set<End>, n: NodeId, i: nat, e: End)
    requires Held(b, ins) && Allowed(b, Fill(n, i, e))
    ensures Held(Perform(b, Fill(n, i, e)), ins)
  {
    assert Apart(b) && n in b.nodes && i !in b.nodes[n].slots;
    assert e.WireEnd? ==> e in b.free;
    SlotsFill(b.nodes, n, i, e);
    ApartFill(b, n, i, e);
    ShapedFill(b, n, i, e);
    CoveredFill(b, ins, n, i, e);
  }

  lemma SlotsFill(nodes: map<NodeId, Node>, n: NodeId, i: nat, e: End)
    requires n in nodes && i !in nodes[n].slots && DistinctSlots(nodes) && (e.WireEnd? ==> !InSlot(nodes, e))
    ensures DistinctSlots(nodes[n := nodes[n].(slots := nodes[n].slots[i := e])])
    ensures forall x :: InSlot(nodes[n := nodes[n].(slots := nodes[n].slots[i := e])], x)
                   <==> InSlot(nodes, x) || x == e
  {
    var after := nodes[n := nodes[n].(slots := nodes[n].slots[i := e])];
    forall x ensures InSlot(after, x) <==> InSlot(nodes, x) || x == e {
      InSlotFill(nodes, n, i, e, x);
    }
    forall m, j, m', j' | m in after && j in after[m].slots && m' in after && j' in after[m'].slots
                          && after[m].slots[j] == after[m'].slots[j'] && after[m].slots[j].WireEnd?
      ensures m == m' && j == j'
    {
      if (m, j) != (n, i) {
        assert nodes[m].slots[j] == after[m].slots[j];
        assert InSlot(nodes, after[m].slots[j]);
      }
      if (m', j') != (n, i) {
        assert nodes[m'].slots[j'] == after[m'].slots[j'];
        assert InSlot(nodes, after[m'].slots[j']);
      }
    }
  }

  lemma ApartFill(b: Build, n: NodeId, i: nat, e: End)
    requires Apart(b) && Allowed(b, Fill(n, i, e))
    requires DistinctSlots(Perform(b, Fill(n, i, e)).nodes)
    requires forall x :: InSlot(Perform(b, Fill(n, i, e)).nodes, x) <==> InSlot(b.nodes, x) || x == e
    ensures Apart(Perform(b, Fill(n, i, e)))
  {
  }

  lemma ShapedFill(b: Build, n: NodeId, i: nat, e: End)
    requires Shaped(b) && Allowed(b, Fill(n, i, e))
    ensures Shaped(Perform(b, Fill(n, i, e)))
  {
  }

  lemma CoveredFill(b: Build, ins: set<End>, n: NodeId, i: nat, e: End)
    requires Covered(b, ins) && Allowed(b, Fill(n, i, e))
    requires forall x :: InSlot(Perform(b, Fill(n, i, e)).nodes, x) <==> InSlot(b.nodes, x) || x == e
    ensures Covered(Perform(b, Fill(n, i, e)), ins)
  {
    var c := Perform(b, Fill(n, i, e));
    assert forall x :: Known(c, ins, x) <==> Known(b, ins, x);
  }

  lemma {:induction false} PerformAllHeld(b: Build, ins: set<End>, script: seq<Action>)
    requires Held(b, ins) && AllAllowed(b, script)
    ensures Held(PerformAll(b, script), ins)
    decreases |script|
  {
    if script != [] {
      PerformHeld(b, ins, script[0]);
      PerformAllHeld(Perform(b, script[0]), ins, script[1..]);
    }
  }
}
